/** The two enumerations of enum_types.py that request records use. */
module EnumTypes {
  /** WidgetType: BONE, OPERATOR. */
  datatype WidgetType = Bone | Operator

  /** ShapeType: NONE, VERTICES, MESH, MESH3D, RECT, CIRCLE, QUAD. */
  datatype ShapeType = NoShape | Vertices | Mesh | Mesh3D | Rect | Circle | Quad
}
