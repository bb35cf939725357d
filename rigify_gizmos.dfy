/** The setup script templates/rigify_gizmos.py: mesh-picker requests for
    the controls of a Rigify character, queued into the shared store. */
module RigifyGizmos {
  import opened Wrappers
  import opened EnumTypes
  import opened HostData
  import opened Storage
  import opened Seqs

  // ---------------------------------------------------------------------
  // Choosing the mesh
  // ---------------------------------------------------------------------

  /** A rigged mesh: an object of type MESH with a modifier named
      'Armature'. */
  predicate IsRigged(o: SceneObject) {
    o.objectType == "MESH" && "Armature" in o.modifiers
  }

  /** The rigged meshes among `objs`, in scene order. */
  function RiggedObjects(objs: seq<SceneObject>): (r: seq<SceneObject>)
    ensures forall o :: o in r <==> o in objs && IsRigged(o)
  {
    if objs == [] then []
    else
      assert forall o :: o in objs <==> o == objs[0] || o in objs[1..];
      (if IsRigged(objs[0]) then [objs[0]] else []) + RiggedObjects(objs[1..])
  }

  /** `max(ob.dimensions[2] for ob in rs)`: the largest height. */
  function MaxHeight(rs: seq<SceneObject>): (h: real)
    requires rs != []
    ensures exists k :: 0 <= k < |rs| && rs[k].height == h
    ensures forall k :: 0 <= k < |rs| ==> rs[k].height <= h
  {
    if |rs| == 1 then rs[0].height
    else
      var rest := MaxHeight(rs[1..]);
      assert forall k :: 1 <= k < |rs| ==> rs[k] == rs[1..][k - 1];
      if rs[0].height >= rest then rs[0].height else rest
  }

  /** `next(ob for ob in rs if ob.dimensions[2] == h)`, with `None` for an
      exhausted generator. */
  function FirstWithHeight(rs: seq<SceneObject>, h: real): Option<SceneObject> {
    if rs == [] then None
    else if rs[0].height == h then Some(rs[0])
    else FirstWithHeight(rs[1..], h)
  }

  /** The first rigged mesh of height `h`, found through the filtered list,
      is the first in scene order among all objects. */
  lemma {:induction false} FirstRiggedWithHeight(objs: seq<SceneObject>, h: real)
    ensures var r := FirstWithHeight(RiggedObjects(objs), h);
      && (r.None? ==> forall k :: 0 <= k < |objs| && IsRigged(objs[k]) ==> objs[k].height != h)
      && (r.Some? ==> exists k :: 0 <= k < |objs| && objs[k] == r.value && IsRigged(objs[k]) && objs[k].height == h
                                 && forall j :: 0 <= j < k && IsRigged(objs[j]) ==> objs[j].height != h)
  {
    if objs != [] {
      var tail := objs[1..];
      FirstRiggedWithHeight(tail, h);
      var r := FirstWithHeight(RiggedObjects(objs), h);
      var rt := FirstWithHeight(RiggedObjects(tail), h);
      assert forall k :: 1 <= k < |objs| ==> objs[k] == tail[k - 1];
      if IsRigged(objs[0]) && objs[0].height == h {
        assert RiggedObjects(objs) == [objs[0]] + RiggedObjects(tail);
        assert r == Some(objs[0]);
        assert objs[0] == r.value && IsRigged(objs[0]) && objs[0].height == h;
      } else {
        if IsRigged(objs[0]) {
          assert RiggedObjects(objs) == [objs[0]] + RiggedObjects(tail);
          assert ([objs[0]] + RiggedObjects(tail))[1..] == RiggedObjects(tail);
        } else {
          assert RiggedObjects(objs) == RiggedObjects(tail);
        }
        assert r == rt;
        if rt.Some? {
          ShiftFirst(objs, h, rt.value);
        }
      }
    }
  }

  /** The step of `FirstRiggedWithHeight` past a first object that is not a
      rigged mesh of height `h`: a first match in the tail is a first match
      in the whole sequence, one index further on. */
  lemma ShiftFirst(objs: seq<SceneObject>, h: real, o: SceneObject)
    requires objs != [] && !(IsRigged(objs[0]) && objs[0].height == h)
    requires var tail := objs[1..];
      exists k :: 0 <= k < |tail| && tail[k] == o && IsRigged(tail[k]) && tail[k].height == h
                  && forall j :: 0 <= j < k && IsRigged(tail[j]) ==> tail[j].height != h
    ensures exists k :: 0 <= k < |objs| && objs[k] == o && IsRigged(objs[k]) && objs[k].height == h
                        && forall j :: 0 <= j < k && IsRigged(objs[j]) ==> objs[j].height != h
  {
    var tail := objs[1..];
    var k :| 0 <= k < |tail| && tail[k] == o && IsRigged(tail[k]) && tail[k].height == h
             && forall j :: 0 <= j < k && IsRigged(tail[j]) ==> tail[j].height != h;
    assert objs[k + 1] == tail[k];
    forall j | 0 <= j < k + 1 && IsRigged(objs[j]) ensures objs[j].height != h {
      if j > 0 {
        assert objs[j] == tail[j - 1];
      }
    }
  }

  /** `tallest`: the first rigged mesh, in scene order, whose height is the
      largest among the rigged meshes; `None` when there is no rigged mesh
      (where `max` raises `ValueError`). */
  function Tallest(objs: seq<SceneObject>): (r: Option<SceneObject>)
    ensures r.None? <==> forall o :: o in objs ==> !IsRigged(o)
    ensures r.Some? ==> exists k :: 0 <= k < |objs| && objs[k] == r.value && IsRigged(objs[k])
                          && (forall j :: 0 <= j < |objs| && IsRigged(objs[j]) ==> objs[j].height <= objs[k].height)
                          && (forall j :: 0 <= j < k && IsRigged(objs[j]) ==> objs[j].height < objs[k].height)
  {
    var rs := RiggedObjects(objs);
    if rs == [] then
      assert forall o :: o in objs ==> !IsRigged(o);
      None
    else
      var h := MaxHeight(rs);
      FirstRiggedWithHeight(objs, h);
      assert forall j :: 0 <= j < |objs| && IsRigged(objs[j]) ==> objs[j] in rs;
      var k :| 0 <= k < |rs| && rs[k].height == h;
      assert rs[k] in objs;
      FirstWithHeight(rs, h)
  }

  // ---------------------------------------------------------------------
  // The control tables
  // ---------------------------------------------------------------------

  /** `template.format(arg)` for templates whose only replacement fields are
      `{0}`: every `{0}` becomes `arg`. */
  function Format(t: string, arg: string): string
    decreases |t|
  {
    if |t| >= 3 && t[..3] == "{0}" then arg + Format(t[3..], arg)
    else if t == [] then []
    else [t[0]] + Format(t[1..], arg)
  }

  /** A string without braces is left as it is. */
  lemma {:induction false} FormatPlain(t: string, arg: string)
    requires '{' !in t && '}' !in t
    ensures Format(t, arg) == t
    decreases |t|
  {
    if t != [] {
      assert t[0] in t;
      assert |t| >= 3 ==> t[..3][0] == t[0];
      FormatPlain(t[1..], arg);
    }
  }

  /** One `{0}` between brace-free text is replaced by the argument. */
  lemma {:induction false} FormatSplice(p: string, s: string, arg: string)
    requires '{' !in p && '{' !in s && '}' !in p && '}' !in s
    ensures Format(p + "{0}" + s, arg) == p + arg + s
    decreases |p|
  {
    var t := p + "{0}" + s;
    if p == [] {
      assert t == "{0}" + s && t[..3] == "{0}" && t[3..] == s;
      FormatPlain(s, arg);
    } else {
      assert t[0] == p[0] && p[0] in p;
      assert |t| >= 3 ==> t[..3][0] == t[0];
      assert t[1..] == p[1..] + "{0}" + s;
      FormatSplice(p[1..], s, arg);
    }
  }

  /** `side_controls`, in declaration order: control bone and vertex group,
      each with a `{0}` for the side. */
  const SideControls: seq<(string, string)> := [
    ("toe.{0}", "DEF-toe.{0}"),
    ("foot_ik.{0}", "DEF-foot.{0}"),
    ("thigh_ik.{0}", "DEF-thigh.{0}.001"),
    ("shoulder.{0}", "DEF-shoulder.{0}"),
    ("upper_arm_fk.{0}", "DEF-upper_arm.{0}.001"),
    ("forearm_fk.{0}", "DEF-forearm.{0}.001"),
    ("hand_fk.{0}", "DEF-palm.02.{0}"),
    ("thumb.01_master.{0}", "DEF-thumb.02.{0}"),
    ("f_index.01_master.{0}", "DEF-f_index.02.{0}"),
    ("f_middle.01_master.{0}", "DEF-f_middle.02.{0}"),
    ("f_ring.01_master.{0}", "DEF-f_ring.02.{0}"),
    ("f_pinky.01_master.{0}", "DEF-f_pinky.02.{0}")
  ]

  /** `controls`, in declaration order, used without formatting. */
  const Controls: seq<(string, string)> := [
    ("torso", "DEF-pelvis.{side}"),
    ("hips", "DEF-spine.001"),
    ("chest", "DEF-spine.003"),
    ("neck", "DEF-spine.004"),
    ("head", "DEF-spine.006")
  ]

  const Sides: seq<string> := ["L", "R"]

  // ---------------------------------------------------------------------
  // The requests
  // ---------------------------------------------------------------------

  /** The request `create_picker(store, obj, ctrl_name, vertex_group)`
      queues: BONE/MESH3D at (0, 0) with the three arguments as data. */
  function MeshPicker(obj: SceneObject, ctrlName: string, vertexGroup: string): Stock {
    Stock(widgetType := WidgetType.Bone, shapeType := Mesh3D, position := (0.0, 0.0),
          data := Some(MeshData(ctrlName, obj, vertexGroup)))
  }

  /** The last request: BONE/QUAD at (-0.5, -0.5) for 'root', following
      the bone. */
  function RootRequest(): Stock {
    Stock(widgetType := WidgetType.Bone, shapeType := Quad, position := (-0.5, -0.5),
          data := Some(FollowData("root", true)))
  }

  /** One request per control, both names formatted with `side`. */
  function SideRequests(obj: SceneObject, side: string, ctrls: seq<(string, string)>): (r: seq<Stock>)
    ensures |r| == |ctrls|
    ensures forall k :: 0 <= k < |ctrls| ==> r[k] == MeshPicker(obj, Format(ctrls[k].0, side), Format(ctrls[k].1, side))
  {
    if ctrls == [] then []
    else
      var last := ctrls[|ctrls| - 1];
      var prev := SideRequests(obj, side, ctrls[..|ctrls| - 1]);
      prev + [MeshPicker(obj, Format(last.0, side), Format(last.1, side))]
  }

  /** The side blocks for `sides`, one after the other. */
  function SidesRequests(obj: SceneObject, sides: seq<string>, ctrls: seq<(string, string)>): seq<Stock>
  {
    if sides == [] then []
    else SidesRequests(obj, sides[..|sides| - 1], ctrls) + SideRequests(obj, sides[|sides| - 1], ctrls)
  }

  /** One request per control, names used verbatim. */
  function UnsidedRequests(obj: SceneObject, ctrls: seq<(string, string)>): (r: seq<Stock>)
    ensures |r| == |ctrls|
    ensures forall k :: 0 <= k < |ctrls| ==> r[k] == MeshPicker(obj, ctrls[k].0, ctrls[k].1)
  {
    if ctrls == [] then []
    else UnsidedRequests(obj, ctrls[..|ctrls| - 1]) + [MeshPicker(obj, ctrls[|ctrls| - 1].0, ctrls[|ctrls| - 1].1)]
  }

  /** Everything the main block queues for mesh `obj`, in order. */
  function MainRequests(obj: SceneObject): seq<Stock> {
    SidesRequests(obj, Sides, SideControls) + UnsidedRequests(obj, Controls) + [RootRequest()]
  }

  /** One more side extends the side blocks by that side's block. */
  lemma SidesStep(obj: SceneObject, sides: seq<string>, ctrls: seq<(string, string)>, s: nat)
    requires s < |sides|
    ensures SidesRequests(obj, sides[..s + 1], ctrls)
            == SidesRequests(obj, sides[..s], ctrls) + SideRequests(obj, sides[s], ctrls)
  {
    assert sides[..s + 1][..s] == sides[..s];
  }

  /** One more control extends a side block by that control's request. */
  lemma SideStep(obj: SceneObject, side: string, ctrls: seq<(string, string)>, c: nat)
    requires c < |ctrls|
    ensures SideRequests(obj, side, ctrls[..c + 1])
            == SideRequests(obj, side, ctrls[..c]) + [MeshPicker(obj, Format(ctrls[c].0, side), Format(ctrls[c].1, side))]
  {
    assert ctrls[..c + 1][..c] == ctrls[..c];
  }

  /** One more control extends the unsided block by that control's request. */
  lemma UnsidedStep(obj: SceneObject, ctrls: seq<(string, string)>, c: nat)
    requires c < |ctrls|
    ensures UnsidedRequests(obj, ctrls[..c + 1])
            == UnsidedRequests(obj, ctrls[..c]) + [MeshPicker(obj, ctrls[c].0, ctrls[c].1)]
  {
    assert ctrls[..c + 1][..c] == ctrls[..c];
  }

  /** Two sides give the first side's block followed by the second's. */
  lemma TwoSides(obj: SceneObject, a: string, b: string, ctrls: seq<(string, string)>)
    ensures SidesRequests(obj, [a, b], ctrls) == SideRequests(obj, a, ctrls) + SideRequests(obj, b, ctrls)
  {
    var sides := [a, b];
    assert sides[..1] == [a] && sides[..1][..0] == [];
    assert SidesRequests(obj, sides[..1], ctrls) == SideRequests(obj, a, ctrls);
  }

  /** For any two side blocks and any control tables, the queue starts with
      side `a`'s block, then side `b`'s block. */
  lemma LayoutSides(obj: SceneObject, a: string, b: string,
                    sc: seq<(string, string)>, cs: seq<(string, string)>)
    ensures var m := SideRequests(obj, a, sc) + SideRequests(obj, b, sc) + UnsidedRequests(obj, cs) + [RootRequest()];
      && |m| == 2 * |sc| + |cs| + 1
      && (forall k :: 0 <= k < |sc| ==> m[k] == MeshPicker(obj, Format(sc[k].0, a), Format(sc[k].1, a)))
      && (forall k :: 0 <= k < |sc| ==> m[|sc| + k] == MeshPicker(obj, Format(sc[k].0, b), Format(sc[k].1, b)))
  {
  }

  /** ... and ends with the unsided block, then the root request. */
  lemma LayoutRest(obj: SceneObject, a: string, b: string,
                   sc: seq<(string, string)>, cs: seq<(string, string)>)
    ensures var m := SideRequests(obj, a, sc) + SideRequests(obj, b, sc) + UnsidedRequests(obj, cs) + [RootRequest()];
      && (forall k :: 0 <= k < |cs| ==> m[2 * |sc| + k] == MeshPicker(obj, cs[k].0, cs[k].1))
      && m[2 * |sc| + |cs|] == RootRequest()
  {
  }

  /** The main block queues 30 requests: the 12 left-side controls, the 12
      right-side controls, the 5 unsided controls, then 'root'. */
  lemma MainRequestsLayout(obj: SceneObject)
    ensures |MainRequests(obj)| == 30
    ensures forall k :: 0 <= k < 12 ==>
              MainRequests(obj)[k] == MeshPicker(obj, Format(SideControls[k].0, "L"), Format(SideControls[k].1, "L"))
    ensures forall k :: 0 <= k < 12 ==>
              MainRequests(obj)[12 + k] == MeshPicker(obj, Format(SideControls[k].0, "R"), Format(SideControls[k].1, "R"))
    ensures forall k :: 0 <= k < 5 ==> MainRequests(obj)[24 + k] == MeshPicker(obj, Controls[k].0, Controls[k].1)
    ensures MainRequests(obj)[29] == RootRequest()
  {
    TwoSides(obj, "L", "R", SideControls);
    LayoutSides(obj, "L", "R", SideControls, Controls);
    LayoutRest(obj, "L", "R", SideControls, Controls);
  }

  // ---------------------------------------------------------------------
  // The script
  // ---------------------------------------------------------------------

  /** `create_picker(store, obj, ctrl_name, vertex_group)`: appends one
      mesh-picker request to the store. */
  method CreateMeshPicker(store: Storage, obj: SceneObject, ctrlName: string, vertexGroup: string)
    modifies store.owner
    ensures store.Widgets() == old(store.Widgets()) + [MeshPicker(obj, ctrlName, vertexGroup)]
    ensures store.owner.instance == old(store.owner.instance)
  {
    var wdg := MeshPicker(obj, ctrlName, vertexGroup);
    store.AddWidget(wdg);
  }

  /** The inner loop of the main block: one request per control of `ctrls`,
      both names formatted with `side`, in table order. */
  method QueueSide(store: Storage, obj: SceneObject, side: string, ctrls: seq<(string, string)>)
    modifies store.owner
    ensures store.Widgets() == old(store.Widgets()) + SideRequests(obj, side, ctrls)
    ensures store.owner.instance == old(store.owner.instance)
  {
    for c := 0 to |ctrls|
      invariant store.Widgets() == old(store.Widgets()) + SideRequests(obj, side, ctrls[..c])
      invariant store.owner.instance == old(store.owner.instance)
    {
      SideStep(obj, side, ctrls, c);
      CreateMeshPicker(store, obj, Format(ctrls[c].0, side), Format(ctrls[c].1, side));
    }
    assert ctrls[..|ctrls|] == ctrls;
  }

  /** The outer loop over the sides: each side's block in turn. */
  method QueueSides(store: Storage, obj: SceneObject, sides: seq<string>, ctrls: seq<(string, string)>)
    modifies store.owner
    ensures store.Widgets() == old(store.Widgets()) + SidesRequests(obj, sides, ctrls)
    ensures store.owner.instance == old(store.owner.instance)
  {
    for s := 0 to |sides|
      invariant store.Widgets() == old(store.Widgets()) + SidesRequests(obj, sides[..s], ctrls)
      invariant store.owner.instance == old(store.owner.instance)
    {
      ghost var done := SidesRequests(obj, sides[..s], ctrls);
      QueueSide(store, obj, sides[s], ctrls);
      SidesStep(obj, sides, ctrls, s);
      AppendAssoc(old(store.Widgets()), done, SideRequests(obj, sides[s], ctrls));
    }
    assert sides[..|sides|] == sides;
  }

  /** The loop over the unsided controls: names used verbatim. */
  method QueueUnsided(store: Storage, obj: SceneObject, ctrls: seq<(string, string)>)
    modifies store.owner
    ensures store.Widgets() == old(store.Widgets()) + UnsidedRequests(obj, ctrls)
    ensures store.owner.instance == old(store.owner.instance)
  {
    for c := 0 to |ctrls|
      invariant store.Widgets() == old(store.Widgets()) + UnsidedRequests(obj, ctrls[..c])
      invariant store.owner.instance == old(store.owner.instance)
    {
      UnsidedStep(obj, ctrls, c);
      CreateMeshPicker(store, obj, ctrls[c].0, ctrls[c].1);
    }
    assert ctrls[..|ctrls|] == ctrls;
  }

  /** The main block over the scene's objects. Without a rigged mesh it stops
      at `max` (a `ValueError`) before touching the store and returns false.
      Otherwise it queues `MainRequests` for the tallest rigged mesh. */
  method RunScript(state: StorageState, objects: seq<SceneObject>) returns (ok: bool)
    requires state.Valid()
    modifies state
    ensures state.Valid()
    ensures ok <==> Tallest(objects).Some?
    ensures !ok ==> state.widgets == old(state.widgets) && state.instance == old(state.instance)
    ensures ok ==> state.Exists() && state.widgets == old(state.widgets) + MainRequests(Tallest(objects).value)
    ensures old(state.Exists()) ==> state.instance == old(state.instance)
  {
    var found := Tallest(objects);
    if found.None? {
      return false;
    }
    var tallest := found.value;
    var store := state.New();
    ghost var before := state.widgets;
    ghost var sided := SidesRequests(tallest, Sides, SideControls);
    ghost var unsided := UnsidedRequests(tallest, Controls);
    QueueSides(store, tallest, Sides, SideControls);
    QueueUnsided(store, tallest, Controls);
    var wdg := RootRequest();
    store.AddWidget(wdg);
    AppendAssoc(before, sided, unsided);
    AppendAssoc(before, sided + unsided, [wdg]);
    ok := true;
  }
}
