/** The setup script templates/ctrls_picker.py: two vertex-shape picker
    requests queued into the shared store. */
module CtrlsPicker {
  import opened Wrappers
  import opened EnumTypes
  import opened Storage
  import Shapes

  /** A BONE/VERTICES request for bone `boneName` at `position`, carrying the
      Quad2D class template. */
  function QuadPicker(boneName: string, position: (real, real)): Stock {
    Stock(widgetType := WidgetType.Bone, shapeType := Vertices, position := position,
          data := Some(VertexData(boneName, Shapes.Template(Shapes.Quad2D))))
  }

  /** The requests `create_picker` queues, in order. */
  function PickerRequests(): seq<Stock> {
    [QuadPicker("ms-root", (2.0, 0.0)), QuadPicker("fk-bone_9", (2.0, 2.0))]
  }

  /** Two requests: 'ms-root' at (2, 0), then 'fk-bone_9' at (2, 2), both
      BONE/VERTICES with the six Quad2D template vertices as payload. */
  lemma PickerRequestsContent()
    ensures |PickerRequests()| == 2
    ensures var r := PickerRequests();
      && r[0].data == Some(VertexData("ms-root", Shapes.QuadVertices())) && r[0].position == (2.0, 0.0)
      && r[1].data == Some(VertexData("fk-bone_9", Shapes.QuadVertices())) && r[1].position == (2.0, 2.0)
    ensures forall k :: 0 <= k < 2 ==>
      && PickerRequests()[k].widgetType == WidgetType.Bone && PickerRequests()[k].shapeType == Vertices
      && PickerRequests()[k].data.Some? && PickerRequests()[k].data.value.VertexData?
      && |PickerRequests()[k].data.value.vertices| == 6
  {
    Shapes.TemplateSizes();
  }

  /** `create_picker()`: obtains the store with `Storage()` and appends the
      two requests; earlier requests are untouched. */
  method CreatePicker(state: StorageState)
    requires state.Valid()
    modifies state
    ensures state.Valid() && state.Exists()
    ensures old(state.Exists()) ==> state.instance == old(state.instance)
    ensures state.widgets == old(state.widgets) + PickerRequests()
  {
    var store := state.New();
    var wdg := QuadPicker("ms-root", (2.0, 0.0));
    store.AddWidget(wdg);
    wdg := QuadPicker("fk-bone_9", (2.0, 2.0));
    store.AddWidget(wdg);
  }

  /** Running the script twice queues four requests: nothing is
      deduplicated. */
  method CreatePickerTwice(state: StorageState)
    requires state.Valid()
    modifies state
    ensures state.Valid() && state.Exists()
    ensures old(state.Exists()) ==> state.instance == old(state.instance)
    ensures state.widgets == old(state.widgets) + PickerRequests() + PickerRequests()
    ensures |state.widgets| == |old(state.widgets)| + 4
  {
    CreatePicker(state);
    CreatePicker(state);
  }
}
