/** The import queue of storage.py: `Stock` request records and the
    `Storage` singleton whose class-level list collects them.

    The class-level attributes `_instance` and `_widgets` are one object,
    `StorageState`, shared by every handle. `Storage` is a handle: it owns no
    data of its own and reads and writes its owner's list. */
module Storage {
  import opened Wrappers
  import opened EnumTypes
  import HostData
  import Shapes

  /** The `data` dictionaries that requests carry, one variant per shape of
      dictionary the setup scripts build. */
  datatype Payload =
    | VertexData(boneName: string, vertices: Shapes.Vertices)
    | MeshData(boneName: string, obj: HostData.SceneObject, vertexGroup: string)
    | FollowData(boneName: string, boneFollow: bool)

  /** `Stock(widget_type, shape_type, data, position)`, with its defaults. */
  datatype Stock = Stock(widgetType: WidgetType := WidgetType.Bone,
                         shapeType: ShapeType := NoShape,
                         data: Option<Payload> := None,
                         position: (real, real) := (0.0, 0.0))

  /** A request built with no arguments is a BONE request of shape NONE, with
      no data, at (0, 0); arguments given are stored unchanged. */
  lemma StockDefaults(w: WidgetType, s: ShapeType, d: Option<Payload>, p: (real, real))
    ensures Stock().widgetType == WidgetType.Bone && Stock().shapeType == NoShape
    ensures Stock().data == None && Stock().position == (0.0, 0.0)
    ensures var r := Stock(w, s, d, p);
      r.widgetType == w && r.shapeType == s && r.data == d && r.position == p
  {
  }

  /** The class-level state of `Storage`: the singleton instance, once
      created, and the shared request list. */
  class StorageState {
    var instance: Storage?
    var widgets: seq<Stock>

    ghost predicate Valid()
      reads this
    {
      instance != null ==> instance.owner == this
    }

    /** The state at import time: no instance yet and an empty list. */
    constructor ()
      ensures Valid() && instance == null && widgets == []
    {
      instance := null;
      widgets := [];
    }

    /** `Storage.exists()`: whether an instance has been created. */
    predicate Exists(): (r: bool)
      reads this
      ensures r <==> instance != null
    {
      instance != null
    }

    /** `Storage()`: creates the instance on the first call and returns that
        same instance on every call. The request list is not touched. */
    method New() returns (s: Storage)
      requires Valid()
      modifies this
      ensures Valid() && Exists()
      ensures s == instance && s.owner == this
      ensures old(instance) != null ==> s == old(instance)
      ensures old(instance) == null ==> fresh(s)
      ensures widgets == old(widgets)
    {
      if instance == null {
        instance := new Storage(this);
      }
      s := instance;
    }
  }

  /** A handle returned by `Storage()`. */
  class Storage {
    const owner: StorageState

    constructor (owner: StorageState)
      ensures this.owner == owner
    {
      this.owner := owner;
    }

    /** `widgets()`: the class-level request list, in insertion order; every
        handle of one state returns the same list. */
    function Widgets(): (r: seq<Stock>)
      reads owner
      ensures r == owner.widgets
    {
      owner.widgets
    }

    /** `add_widget(w)`: appends `w` to the shared list; the requests already
        there keep their places. */
    method AddWidget(w: Stock)
      modifies owner
      ensures Widgets() == old(Widgets()) + [w]
      ensures owner.instance == old(owner.instance)
    {
      owner.widgets := owner.widgets + [w];
    }

    /** `clear()`: empties the shared list. */
    method Clear()
      modifies owner
      ensures Widgets() == []
      ensures owner.instance == old(owner.instance)
    {
      owner.widgets := [];
    }
  }

  /** Two calls of `Storage()` give one instance (`first == second`): a
      request added through the first handle is seen through the second
      (`seen`, read through `second` after the addition), and a clear through
      the second empties the list for the first. `exists()` turns true with
      the first call. */
  method SharedThroughHandles(state: StorageState, w: Stock) returns (first: Storage, second: Storage, seen: seq<Stock>)
    requires state.Valid()
    modifies state
    ensures first == second && first.owner == state
    ensures seen == old(state.widgets) + [w]
    ensures state.Valid() && state.Exists() && first.Widgets() == [] && state.widgets == []
  {
    first := state.New();
    second := state.New();
    first.AddWidget(w);
    seen := second.Widgets();
    second.Clear();
  }
}
