# PizMo in Dafny

PizMo is a Blender addon. It draws gizmo "picker" handles for the bones of a
posed armature. This project models its core in Dafny and proves properties
of the model:

- **Shapes** (`shapes.dfy`): the 2D triangle-list templates `Tris2D`,
  `Quad2D`, `Rect2D` and `Cross2D`. Also the `BasicShape` instance, which
  copies its class template and scales it in place.
- **Storage** (`storage.dfy`): the `Stock` request record. Also the
  `Storage` singleton, whose class-level list every handle shares.
- **Wizmo** (`wizmo.dfy`): the gizmo group `GrouzMo` with its add handle
  (`AddzMo`) and bone handles (`BonezMo`). This covers:
  - setup;
  - creating bone gizmos for the selected pose bones;
  - selecting a bone by clicking its gizmo;
  - dragging;
  - recoloring against the selection;
  - `poll`.
- **CtrlsPicker** (`ctrls_picker.dfy`): the setup script that queues two
  quad pickers.
- **RigifyGizmos** (`rigify_gizmos.dfy`): the setup script that picks the
  tallest rigged mesh and queues 30 mesh-picker requests for a Rigify
  character. `rigify_names.dfy` (**RigifyNames**) spells out the names of the 24
  sided requests, one `format` call at a time.
- `enum_types.dfy` holds the enumerations. `host_data.dfy` holds the plain
  records that stand for the host's data: bones, scene objects and input
  events. `wrappers.dfy` holds `Option`, and `seqs.dfy`
  holds the associativity of concatenation that the loop proofs share.

The form follows the source:

- Objects whose fields the source updates are classes: a shape instance,
  the singleton state with its handles, and the gizmo group.
- Loops are `while`/`for` loops, proved against specification functions.
- Gizmos are records, held in the group's sequence field.
- The host's context is fixed or passed in:
  - the armature's bones are a field of the group;
  - the set of selected bone names is a field of the group;
  - the scene's objects are a parameter of the script;
  - mouse events are parameters.

## Model

| member | source | states |
|---|---|---|
| Shapes.Shape.constructor | shapes.py:7-10 | a new instance holds its own copy of the class template, every coordinate multiplied by the scale argument (default 1.0) |
| Shapes.Shape.Scale | shapes.py:12-15 | every coordinate of every vertex is multiplied by the factor, in place; the vertex count and each vertex's dimension are kept |
| Shapes.ScaleTwice | shapes.py:12-15 | two `scale` calls on one instance equal one call with the product of the factors |
| Shapes.ScaledShape | shapes.py:12-15 | scaling keeps the vertex count and every vertex's dimension, and each coordinate `co` becomes `co * factor` |
| Shapes.ScaleCompose | shapes.py:12-15 | scaling by a and then b is scaling by a*b |
| Shapes.ScaleIdentity | shapes.py:7-10 | the default scale 1.0 leaves the template's vertices unchanged |
| Shapes.ScaleRoundTrip | shapes.py:12-15 | scaling by a non-zero f and then by 1/f restores the vertices |
| Shapes.TemplateSizes | shapes.py:4-54 | the templates have 0, 3, 6, 6 and 12 vertices (BasicShape, Tris2D, Quad2D, Rect2D, Cross2D) |
| Shapes.QuadLiteral | shapes.py:26-29 | Quad2D, built from Tris2D's vertices, is the unit square as two triangles and starts with Tris2D |
| Shapes.CrossExtendsRect | shapes.py:45-54 | Cross2D is Rect2D's six vertices followed by the horizontal bar |
| Shapes.TemplatesWellFormed | shapes.py:18-54 | every template is whole triangles ("each one is a triangle") of 2D vertices, and no triangle repeats a vertex |
| Shapes.ScaleKeepsDistinct | shapes.py:12-15 | scaling by a non-zero factor keeps two different vertices different |
| Shapes.ScaleKeepsTriangleList | shapes.py:12-15 | scaling a well-formed triangle list by a non-zero factor gives a well-formed triangle list |
| Storage.StockDefaults | storage.py:9-15 | with no arguments a request is BONE, shape NONE, no data, at (0, 0); given arguments are stored unchanged |
| Storage.StorageState.constructor | storage.py:17-20 | at import time there is no instance and the request list is empty |
| Storage.StorageState.Exists | storage.py:22-24 | `exists()` holds exactly when the singleton instance has been created |
| Storage.StorageState.New | storage.py:26-32 | the first `Storage()` creates the instance and every later call returns that same instance; afterwards `exists()` holds and the list is untouched |
| Storage.Storage.AddWidget | storage.py:34-35 | the request is appended to the shared list that `widgets()` returns, the earlier requests keep their places, and the instance is unchanged |
| Storage.Storage.Widgets | storage.py:37-38 | `widgets()` is the class-level list itself, the same for every handle |
| Storage.Storage.Clear | storage.py:40-41 | the shared list becomes empty and the instance is unchanged |
| Storage.SharedThroughHandles | storage.py:17-41 | two `Storage()` calls return the same handle; a request added through the first is seen through the second, and a clear through the second empties the list for the first |
| HostData.FindBone | wizmo.py:119-124 | `bones[name]` finds a bone of that name exactly when one exists; `None` is the KeyError case |
| Wizmo.ResetColor | wizmo.py:19-21 | the color becomes the base color and alpha 0.25; nothing else changes |
| Wizmo.AddSetup | wizmo.py:39-48 | `AddzMo.setup` sets base color and color to the add color, alpha 0.25, the Cross2D shape when none is set yet, scale basis 0.25 and the draw-modal and offset-scale flags; nothing else changes |
| Wizmo.NewAddGizmoSetup | wizmo.py:39-48 | the add gizmo has no bone, the add base color with alpha 0.25, the group's highlight color and alpha, the Cross2D template as its shape, and a scale basis of 0.25 |
| Wizmo.BoneSetup | wizmo.py:94-102 | `BonezMo.setup` sets the color to the base color, alpha 0.25, the Quad2D shape scaled by 0.25 when none is set yet, and the draw-modal, draw-scale and offset-scale flags; nothing else changes |
| Wizmo.SetBone | wizmo.py:104-110 | `set_bone` records the bone's name and moves the gizmo to (head.x + 2, head.z), keeping the third translation entry; nothing else changes |
| Wizmo.BoneGizmoForPlacement | wizmo.py:94-110 | a gizmo made for a bone carries that bone's name, sits at (head.x + 2, head.z) in entries [0][3] and [1][3], and has the base color, alpha 0.25 and the Quad2D shape scaled by 0.25 |
| Wizmo.BoneNames | wizmo.py:164-166 | a name is in `bone_names` exactly when some gizmo has that bone name; there are at most as many names as gizmos |
| Wizmo.BoneNamesAppend | wizmo.py:164-166 | `bone_names` of two gizmo lists end to end is the two name lists end to end |
| Wizmo.BoneNamesUpdate | wizmo.py:164-166 | replacing a gizmo by one with the same bone name keeps `bone_names` |
| Wizmo.SelectedPoseBones | wizmo.py:54 | the selected pose bones are exactly the armature's bones whose names are selected |
| Wizmo.SelectedNamesMembership | wizmo.py:184-185 | a name is in `sel_names` exactly when it is selected and names a bone of the armature |
| Wizmo.InvokeSelectionRule | wizmo.py:112-126 | without shift, a clicked bone becomes the only selected bone; with shift it joins the selection; a bone missing from the armature (KeyError) leaves only the deselection |
| Wizmo.RefreshRule | wizmo.py:184-196 | after refresh, a selected bone's gizmo has the selection color and alpha 0.5, an unselected bone's gizmo its base color and alpha 0.25, and a gizmo without a bone is skipped; nothing but color and alpha changes |
| Wizmo.RefreshIdempotent | wizmo.py:184-196 | refreshing twice against one selection is refreshing once |
| Wizmo.RefreshKeepsBoneNames | wizmo.py:184-196 | refresh keeps `bone_names` |
| Wizmo.AddedForProperties | wizmo.py:54-57 | each gizmo the add gizmo creates is `set_bone` of a new bone gizmo for one of the selected bones; afterwards every selected bone is covered; no new gizmo repeats an existing name or another new gizmo's name |
| Wizmo.AddedForProvenance | wizmo.py:54-57 | every gizmo the walk creates is `set_bone` of a new bone gizmo for one of the selected bones |
| Wizmo.AddedForNames | wizmo.py:54-57 | after the walk every bone walked over has its name among the existing names or the new gizmos, no new gizmo repeats an existing name, and the new names are distinct |
| Wizmo.AddInvokeOutcome | wizmo.py:50-58 | after the walk every new gizmo is a well-formed bone gizmo, every selected bone has a gizmo, and distinct bone names stay distinct |
| Wizmo.PanAccumulates | wizmo.py:63-69 | deltas are measured from the invoke-time mouse, so two modal steps at one mouse position move the gizmos twice as far as one |
| Wizmo.PanRefreshCommute | wizmo.py:63-72 | moving the gizmos and recoloring them against a selection commute, since they touch different fields |
| Wizmo.ModalTwiceOutcome | wizmo.py:63-72 | two modal steps with one delta, each followed by a refresh, equal one step by twice the delta followed by one refresh |
| Wizmo.PanKeepsBoneNames | wizmo.py:63-69 | moving the gizmos keeps `bone_names` |
| Wizmo.Poll | wizmo.py:157-162 | the group is active exactly when there is an active object, it is an armature, and it is in pose mode |
| Wizmo.Group.constructor | wizmo.py:147-155 | a group starts with no gizmos over given bones and a given selection |
| Wizmo.Group.Setup | wizmo.py:168-174 | setup appends one new add gizmo with the group's highlight color and alpha, and keeps every gizmo well formed |
| Wizmo.Group.Refresh | wizmo.py:184-196 | each gizmo is recolored with the refresh rule against the current selected names; the selection and `bone_names` are unchanged |
| Wizmo.Group.AddInvoke | wizmo.py:50-58 | the mouse position is recorded on the add gizmo, and new bone gizmos are appended for the selected bones not yet covered, in selection order. Afterwards every selected bone has a gizmo and distinct names stay distinct |
| Wizmo.Group.AddMissing | wizmo.py:54-57 | the loop over the given pose bones appends exactly the gizmos the walk over them creates, checked against the names present before the loop; the selection is unchanged |
| Wizmo.Group.AddModal | wizmo.py:63-72 | every gizmo, the add gizmo included, moves by the mouse delta since invoke (x into [0][3], y into [2][3]); then the group refreshes; `bone_names` is kept |
| Wizmo.Group.AddModalTwice | wizmo.py:63-72 | two `AddzMo.modal` events at one mouse position leave every gizmo moved by twice the delta since invoke and refreshed once; the selection is unchanged |
| Wizmo.Group.BoneInvoke | wizmo.py:112-126 | the mouse position is recorded, and the selection becomes the selection rule applied to the gizmo's bone with shift as the additive flag; no gizmo changes otherwise |
| Wizmo.Group.BoneModal | wizmo.py:131-144 | with alt the gizmo moves by the mouse delta since invoke (x into [0][3], y into [1][3]); with shift `delta_x` is added to its scale basis; nothing else changes |
| CtrlsPicker.PickerRequestsContent | templates/ctrls_picker.py:9-23 | the script queues two BONE/VERTICES requests: 'ms-root' at (2, 0), then 'fk-bone_9' at (2, 2), each carrying the six Quad2D class vertices |
| CtrlsPicker.CreatePicker | templates/ctrls_picker.py:9-23 | `create_picker()` obtains the singleton and appends exactly those two requests after the ones already queued |
| CtrlsPicker.CreatePickerTwice | templates/ctrls_picker.py:9-23 | running the script twice queues four requests; nothing is deduplicated. The store exists afterwards, and an instance that already existed is the one kept |
| RigifyGizmos.RiggedObjects | templates/rigify_gizmos.py:23 | the rigged objects are exactly the objects of type MESH with an 'Armature' modifier |
| RigifyGizmos.MaxHeight | templates/rigify_gizmos.py:24 | `max` of the heights is one of the heights and at least every height |
| RigifyGizmos.FirstRiggedWithHeight | templates/rigify_gizmos.py:25 | `next` over the rigged list finds the first rigged object of that height in scene order, or none exists |
| RigifyGizmos.ShiftFirst | templates/rigify_gizmos.py:25 | a first match in the tail, after a head that does not match, is the first match of the whole list |
| RigifyGizmos.Tallest | templates/rigify_gizmos.py:23-25 | with no rigged mesh there is no result (`max` raises ValueError); otherwise the result is a rigged mesh no lower than any other and strictly taller than every rigged mesh before it |
| RigifyGizmos.FormatPlain | templates/rigify_gizmos.py:47 | `format` leaves a name without braces unchanged |
| RigifyGizmos.FormatSplice | templates/rigify_gizmos.py:47 | `format` replaces a single `{0}` between brace-free text by the side |
| RigifyGizmos.SideRequests | templates/rigify_gizmos.py:46-47 | one side's block holds one request per side control, in table order, both names formatted with the side |
| RigifyGizmos.UnsidedRequests | templates/rigify_gizmos.py:57-58 | the unsided block holds one request per control, in table order, names used verbatim |
| RigifyGizmos.LayoutSides | templates/rigify_gizmos.py:45-47 | for any two sides and tables, the queue opens with the first side's block, then the second side's |
| RigifyGizmos.LayoutRest | templates/rigify_gizmos.py:57-67 | ... and closes with the unsided block, then the root request |
| RigifyGizmos.MainRequestsLayout | templates/rigify_gizmos.py:27-67 | the script queues 30 requests: the 12 side controls for 'L', the same 12 for 'R', the 5 unsided controls, then 'root' |
| RigifyNames.Spliced | templates/rigify_gizmos.py:47 | a template made of brace-free text, one `{0}` and brace-free text formats to the text with the side in place of the field |
| RigifyNames.SideNamesL | templates/rigify_gizmos.py:27-47 | each of the twelve `side_controls` entries formatted with 'L' gives the literal name, e.g. 'thigh_ik.L' on 'DEF-thigh.L.001' and 'f_pinky.01_master.L' on 'DEF-f_pinky.02.L' |
| RigifyNames.SideNamesR | templates/rigify_gizmos.py:27-47 | the same twelve entries formatted with 'R' give the literal names, e.g. 'hand_fk.R' on 'DEF-palm.02.R' |
| RigifyNames.SideRequestsL | templates/rigify_gizmos.py:27-47 | requests 0 to 11 of the 30 are the mesh pickers 'toe.L' on 'DEF-toe.L' through 'f_pinky.01_master.L' on 'DEF-f_pinky.02.L', in table order |
| RigifyNames.SideRequestsR | templates/rigify_gizmos.py:27-47 | requests 12 to 23 are the mesh pickers 'toe.R' on 'DEF-toe.R' through 'f_pinky.01_master.R' on 'DEF-f_pinky.02.R', in table order |
| RigifyGizmos.CreateMeshPicker | templates/rigify_gizmos.py:11-19 | one BONE/MESH3D request at (0, 0) is appended, carrying the control name, the object and the vertex group |
| RigifyGizmos.QueueSide | templates/rigify_gizmos.py:46-47 | the inner loop appends exactly one side's block |
| RigifyGizmos.QueueSides | templates/rigify_gizmos.py:45-47 | the outer loop appends the blocks of the sides in order |
| RigifyGizmos.QueueUnsided | templates/rigify_gizmos.py:57-58 | the loop over `controls` appends exactly the unsided block |
| RigifyGizmos.RunScript | templates/rigify_gizmos.py:22-67 | without a rigged mesh the script stops before touching the store. Otherwise it obtains the singleton and appends the 30 requests for the tallest rigged mesh after those already queued. In either case an instance that already existed is the one kept |

## Left out

- Drawing: `draw`, `draw_select` and `draw_prepare` (view alignment) are host rendering and are not modelled.
- Custom shapes: `new_custom_shape` is modelled as storing the vertex list on the gizmo.
- `exit` is not modelled: it only clears the header text.
- `_update_offset_matrix` is not modelled: it is a no-op.
- `bpy.ops.pose.select_all(action='DESELECT')` is modelled as emptying the set of selected bone names.
- Host selection: selected pose bones are the armature's bones whose names are selected, in armature order. Visibility and hidden bones are not modelled.
- The host's `gizmos.new` is assumed to run the gizmo type's `setup` before returning, which Blender does.
- Host initial values: the color, alpha and highlight a gizmo has before `setup` are the host's. The model writes placeholders (black, 1.0); `setup` overwrites color and alpha.
- Event ordering: the host calls `modal` only after `invoke`, so the modal methods require a recorded mouse position. A `modal` without an `invoke` would raise AttributeError on `_init_mouse_x` in the source.
- Wizmo.Group.BoneInvoke: the AttributeError path for a bone gizmo without `bone_name` is not reachable in the model. The group's invariant gives every bone gizmo a name, because the group creates them only through `set_bone`.
- Floating point: coordinates, colors and deltas are exact reals, and the division by 1000.0 is exact division. Rounding is not modelled.
- Storage.Storage.Widgets: `widgets()` returns the list object itself, so a caller could mutate the store through it. The model returns the list's value; aliasing through the returned list is not modelled.
- CtrlsPicker.QuadPicker: both requests pass the class attribute `Quad2D.vertices` itself as their data (templates/ctrls_picker.py:15 and :21), so the two requests and the `Quad2D` class share one list object. The model stores the vertex list's value in each request; this sharing is not modelled, so a later in-place change through one of them is not seen through the others.
- RigifyGizmos.Format: models `str.format` only for positional `{0}` fields, the only ones the templates use with an argument. The field `{side}` in 'DEF-pelvis.{side}' is never formatted by the source, and the model keeps it verbatim as well.
- The `if __name__ == "__main__"` guards are not modelled. `CtrlsPicker.CreatePicker` is the script's one call, and `RigifyGizmos.RunScript` is the main block.
- RigifyGizmos.RunScript: the script imports `MeshShape3D` from the shapes module (templates/rigify_gizmos.py:7), but the shapes module modelled here (shapes.py:4-54) does not define it, so as written the import would raise ImportError before any object is read or `Storage()` is called. The model assumes the import succeeds, since the script never uses the name.
- `Stock`'s default position is the integer pair (0, 0) in the source; the model uses the real pair (0.0, 0.0).
- From enum_types.py: `Axis` and `PrimaryDrag` are not modelled, because no core operation reads them.
- `reload` calls at import are not modelled: there is no module reloading in Dafny.
- Not part of this model: properties.py, ui.py and `__init__.py` (addon registration, the UI panel and the property groups).
- Host object and event data are plain record fields: `context.object.data.bones`, `context.selected_pose_bones`, `bpy.data.objects`, `ob.dimensions`, `event.mouse_x`, etc.
