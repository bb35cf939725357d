/** The gizmo group of wizmo.py, with the host abstracted.

    A gizmo is a record of the fields the addon reads and writes. The group
    holds its gizmos in creation order, together with the host state its
    operations consult: the armature's pose bones (fixed) and the set of
    selected bone names (changed by a bone gizmo's invoke). */
module Wizmo {
  import opened Wrappers
  import opened HostData
  import Shapes
  import opened Seqs

  datatype Rgb = Rgb(r: real, g: real, b: real)

  /** A mouse position in pixels. */
  datatype Mouse = Mouse(x: int, y: int)

  /** AddzMo (the "add" handle) or BonezMo (a handle bound to one bone). */
  datatype GizmoKind = AddGizmo | BoneGizmo

  /** The operator result `{'RUNNING_MODAL'}`, the only one the gizmos return. */
  datatype Status = RunningModal

  /** One gizmo. `translation` is the translation column of `matrix_offset`:
      x is entry [0][3], y entry [1][3], z entry [2][3]. `boneName` is `None`
      while the gizmo has no `bone_name` attribute; `initMouse` is `None`
      before the first invoke; `customShape` is `None` before setup. */
  datatype Gizmo = Gizmo(
    kind: GizmoKind,
    boneName: Option<string>,
    baseColor: Rgb,
    color: Rgb,
    alpha: real,
    colorHighlight: Rgb,
    alphaHighlight: real,
    translation: Vec3,
    scaleBasis: real,
    initMouse: Option<Mouse>,
    customShape: Option<Shapes.Vertices>,
    useDrawModal: bool,
    useDrawScale: bool,
    useDrawOffsetScale: bool)

  // ---------------------------------------------------------------------
  // Constants of wizmo.py
  // ---------------------------------------------------------------------

  /** `BazeMo.base_color`, inherited by bone gizmos. */
  const BazeBaseColor := Rgb(0.3, 0.6, 0.7)
  /** The base color `AddzMo.setup` gives the add gizmo. */
  const AddBaseColor := Rgb(0.25, 0.5, 0.5)
  /** `GrouzMo.sel_color`. */
  const SelColor := Rgb(0.25, 0.25, 0.5)
  /** The highlight color and alpha `GrouzMo.setup` gives the add gizmo. */
  const AddHighlightColor := Rgb(0.75, 0.75, 1.0)
  const AddHighlightAlpha: real := 0.25
  /** The alpha of `reset_color` and of a selected bone's gizmo. */
  const ResetAlpha: real := 0.25
  const SelectedAlpha: real := 0.5
  /** `scale_basis` of the add gizmo and the scale of a bone gizmo's quad. */
  const AddScaleBasis: real := 0.25
  const BoneShapeScale: real := 0.25
  /** Mouse deltas are divided by this many pixels per unit. */
  const MouseDivisor: real := 1000.0

  /** The values a gizmo of the given kind has when the host creates it and
      before its `setup` runs: identity `matrix_offset` (zero translation),
      `scale_basis` 1, no bone name, no shape, drawing options off, and the
      class-level base color. The host's initial color, alpha and highlight
      values are not the addon's; they are written here as black and 1, and
      `setup` overwrites color and alpha before anything reads them. */
  function HostInitial(kind: GizmoKind): Gizmo {
    Gizmo(kind, None, BazeBaseColor, Rgb(0.0, 0.0, 0.0), 1.0, Rgb(0.0, 0.0, 0.0), 1.0,
          Vec3(0.0, 0.0, 0.0), 1.0, None, None, false, false, false)
  }

  /** `BazeMo.reset_color`: color back to the base color, alpha 0.25,
      nothing else changed. */
  function ResetColor(g: Gizmo): (r: Gizmo)
    ensures r.color == g.baseColor && r.alpha == ResetAlpha
    ensures r.(color := g.color, alpha := g.alpha) == g
  {
    g.(color := g.baseColor, alpha := ResetAlpha)
  }

  /** `AddzMo.setup`: the add base color, reset color and alpha, the Cross2D
      template as shape unless one is already set, scale basis 0.25 and the
      modal and offset-scale drawing options; nothing else changes. */
  function AddSetup(g: Gizmo): (r: Gizmo)
    ensures r.baseColor == AddBaseColor && r.color == AddBaseColor && r.alpha == ResetAlpha
    ensures r.customShape == if g.customShape.None? then Some(Shapes.CrossVertices()) else g.customShape
    ensures r.scaleBasis == AddScaleBasis && r.useDrawModal && r.useDrawOffsetScale
    ensures r.(baseColor := g.baseColor, color := g.color, alpha := g.alpha, customShape := g.customShape,
               scaleBasis := g.scaleBasis, useDrawModal := g.useDrawModal,
               useDrawOffsetScale := g.useDrawOffsetScale) == g
  {
    var g1 := ResetColor(g.(baseColor := AddBaseColor));
    var g2 := if g1.customShape.None? then g1.(customShape := Some(Shapes.CrossVertices())) else g1;
    g2.(scaleBasis := AddScaleBasis, useDrawModal := true, useDrawOffsetScale := true)
  }

  /** `BonezMo.setup`: reset color and alpha, the vertices of
      `Quad2D(scale=0.25)` as shape unless one is already set, and the modal,
      scale and offset-scale drawing options; nothing else changes. */
  function BoneSetup(g: Gizmo): (r: Gizmo)
    ensures r.color == g.baseColor && r.alpha == ResetAlpha
    ensures r.customShape == if g.customShape.None? then Some(Shapes.Scaled(Shapes.QuadVertices(), BoneShapeScale))
                             else g.customShape
    ensures r.useDrawModal && r.useDrawScale && r.useDrawOffsetScale
    ensures r.(color := g.color, alpha := g.alpha, customShape := g.customShape, useDrawModal := g.useDrawModal,
               useDrawScale := g.useDrawScale, useDrawOffsetScale := g.useDrawOffsetScale) == g
  {
    var g1 := ResetColor(g);
    var g2 := if g1.customShape.None?
              then g1.(customShape := Some(Shapes.Scaled(Shapes.QuadVertices(), BoneShapeScale)))
              else g1;
    g2.(useDrawModal := true, useDrawScale := true, useDrawOffsetScale := true)
  }

  /** The gizmo `GrouzMo.setup` creates: a new AddzMo, set up, with the
      highlight color and alpha of the group. */
  function NewAddGizmo(): Gizmo {
    AddSetup(HostInitial(AddGizmo)).(colorHighlight := AddHighlightColor,
                                      alphaHighlight := AddHighlightAlpha,
                                      useDrawModal := true)
  }

  /** `gizmos.new(BonezMo.bl_idname)`: a new BonezMo, set up. */
  function NewBoneGizmo(): Gizmo {
    BoneSetup(HostInitial(BoneGizmo))
  }

  /** `BonezMo.set_bone(bone)`: binds the gizmo to the bone by name and puts
      it two units right of the bone's head (entry [0][3]) at the head's
      height (entry [1][3]); entry [2][3] and every other field are kept. */
  function SetBone(g: Gizmo, b: Bone): (r: Gizmo)
    ensures r.boneName == Some(b.name)
    ensures r.translation == Vec3(b.head.x + 2.0, b.head.z, g.translation.z)
    ensures r.(boneName := g.boneName, translation := g.translation) == g
  {
    g.(boneName := Some(b.name), translation := Vec3(b.head.x + 2.0, b.head.z, g.translation.z))
  }

  /** The gizmo the add gizmo's invoke creates for bone `b`. */
  function BoneGizmoFor(b: Bone): Gizmo {
    SetBone(NewBoneGizmo(), b)
  }

  /** A gizmo created for a bone is bound to that bone by name, sits two
      units right of the bone's head at the head's height (z), carries the
      quad scaled by 0.25 in the base color with alpha 0.25, and keeps the
      host's scale basis. */
  lemma BoneGizmoForPlacement(b: Bone)
    ensures var g := BoneGizmoFor(b);
      && g.kind == BoneGizmo && g.boneName == Some(b.name)
      && g.translation == Vec3(b.head.x + 2.0, b.head.z, 0.0)
      && g.color == BazeBaseColor && g.alpha == ResetAlpha
      && g.scaleBasis == 1.0 && g.initMouse == None
      && g.customShape == Some(Shapes.Scaled(Shapes.QuadVertices(), BoneShapeScale))
      && |g.customShape.value| == 6
  {
  }

  /** The add gizmo has no bone, the add base color with alpha 0.25, the
      Cross2D template as its shape and a scale basis of 0.25. */
  lemma NewAddGizmoSetup()
    ensures var g := NewAddGizmo();
      && g.kind == AddGizmo && g.boneName == None
      && g.color == AddBaseColor && g.alpha == ResetAlpha
      && g.colorHighlight == AddHighlightColor && g.alphaHighlight == AddHighlightAlpha
      && g.customShape == Some(Shapes.Template(Shapes.Cross2D))
      && g.scaleBasis == AddScaleBasis && g.translation == Vec3(0.0, 0.0, 0.0)
  {
  }

  /** Add gizmos never have a bone name; bone gizmos always do (the group
      only creates them through `set_bone`). */
  predicate WellFormed(g: Gizmo) {
    (g.kind == AddGizmo) == g.boneName.None?
  }

  // ---------------------------------------------------------------------
  // bone_names
  // ---------------------------------------------------------------------

  /** `GrouzMo.bone_names`: the bone names of the gizmos that have one, in
      gizmo order. */
  function BoneNames(gs: seq<Gizmo>): (r: seq<string>)
    ensures |r| <= |gs|
    ensures forall n :: n in r <==> exists k :: 0 <= k < |gs| && gs[k].boneName == Some(n)
  {
    if gs == [] then []
    else
      var rest := BoneNames(gs[1..]);
      assert forall n :: (exists k :: 0 <= k < |gs[1..]| && gs[1..][k].boneName == Some(n))
                     ==> (exists k :: 0 <= k < |gs| && gs[k].boneName == Some(n));
      assert forall n, k :: 1 <= k < |gs| && gs[k].boneName == Some(n) ==> gs[1..][k - 1].boneName == Some(n);
      match gs[0].boneName
      case None => rest
      case Some(n) => [n] + rest
  }

  /** `bone_names` of a concatenation is the concatenation of the names. */
  lemma {:induction false} BoneNamesAppend(a: seq<Gizmo>, b: seq<Gizmo>)
    ensures BoneNames(a + b) == BoneNames(a) + BoneNames(b)
  {
    if a != [] {
      assert (a + b)[0] == a[0];
      assert (a + b)[1..] == a[1..] + b;
      BoneNamesAppend(a[1..], b);
      assert a + b != [];
      match a[0].boneName
      case None =>
        assert BoneNames(a) == BoneNames(a[1..]);
        assert BoneNames(a + b) == BoneNames((a + b)[1..]);
      case Some(n) =>
        assert BoneNames(a) == [n] + BoneNames(a[1..]);
        assert BoneNames(a + b) == [n] + BoneNames((a + b)[1..]);
    } else {
      assert a + b == b;
    }
  }

  /** The names of a single gizmo. */
  lemma BoneNamesSingle(g: Gizmo)
    ensures BoneNames([g]) == if g.boneName.Some? then [g.boneName.value] else []
  {
    assert [g][1..] == [];
  }

  /** Replacing a gizmo by one with the same bone name keeps `bone_names`. */
  lemma {:induction false} BoneNamesUpdate(gs: seq<Gizmo>, i: nat, g: Gizmo)
    requires i < |gs| && g.boneName == gs[i].boneName
    ensures BoneNames(gs[i := g]) == BoneNames(gs)
  {
    if i > 0 {
      assert gs[i := g][1..] == gs[1..][i - 1 := g];
      BoneNamesUpdate(gs[1..], i - 1, g);
    }
  }

  /** A gizmo-wise map that keeps every bone name keeps `bone_names`. */
  lemma {:induction false} BoneNamesPointwise(gs: seq<Gizmo>, hs: seq<Gizmo>)
    requires |gs| == |hs|
    requires forall k :: 0 <= k < |gs| ==> hs[k].boneName == gs[k].boneName
    ensures BoneNames(hs) == BoneNames(gs)
  {
    if gs != [] {
      BoneNamesPointwise(gs[1..], hs[1..]);
    }
  }

  ghost predicate Distinct(s: seq<string>) {
    forall i, j :: 0 <= i < j < |s| ==> s[i] != s[j]
  }

  // ---------------------------------------------------------------------
  // The selection
  // ---------------------------------------------------------------------

  /** `context.selected_pose_bones`: the bones whose names are selected, in
      armature order. */
  function SelectedPoseBones(bones: seq<Bone>, selected: set<string>): (r: seq<Bone>)
    ensures |r| <= |bones|
    ensures forall b :: b in r <==> b in bones && b.name in selected
  {
    if bones == [] then []
    else
      assert forall b :: b in bones <==> b == bones[0] || b in bones[1..];
      (if bones[0].name in selected then [bones[0]] else []) + SelectedPoseBones(bones[1..], selected)
  }

  /** A name is among the selected pose bones' names exactly when it is
      selected and names a bone of the armature. */
  lemma SelectedNamesMembership(bones: seq<Bone>, selected: set<string>, n: string)
    ensures n in Names(SelectedPoseBones(bones, selected)) <==> n in selected && n in Names(bones)
  {
    var sel := SelectedPoseBones(bones, selected);
    if n in Names(sel) {
      var k :| 0 <= k < |sel| && Names(sel)[k] == n;
      assert sel[k] in bones;
      var j :| 0 <= j < |bones| && bones[j] == sel[k];
      assert Names(bones)[j] == n;
    }
    if n in selected && n in Names(bones) {
      var j :| 0 <= j < |bones| && Names(bones)[j] == n;
      assert bones[j] in sel;
      var k :| 0 <= k < |sel| && sel[k] == bones[j];
      assert Names(sel)[k] == n;
    }
  }

  /** The selection after a bone gizmo's invoke for bone `name`: without
      shift everything is deselected first; then the bone is selected if the
      armature has it. */
  function InvokeSelection(selected: set<string>, bones: seq<Bone>, name: string, additive: bool): set<string> {
    var kept := if additive then selected else {};
    match FindBone(bones, name)
    case None => kept
    case Some(b) => kept + {b.name}
  }

  /** Without shift the bound bone becomes the only selected bone; with shift
      it is added to the selection; a bone missing from the armature changes
      nothing beyond the deselection. */
  lemma InvokeSelectionRule(selected: set<string>, bones: seq<Bone>, name: string, additive: bool)
    ensures var r := InvokeSelection(selected, bones, name, additive);
      && (name in Names(bones) && !additive ==> r == {name})
      && (name in Names(bones) && additive ==> r == selected + {name})
      && (name !in Names(bones) ==> r == if additive then selected else {})
  {
  }

  // ---------------------------------------------------------------------
  // refresh
  // ---------------------------------------------------------------------

  /** The color rule of `GrouzMo.refresh` for one gizmo. */
  function RefreshGizmo(g: Gizmo, selNames: seq<string>): Gizmo {
    match g.boneName
    case None => g
    case Some(n) => if n in selNames then g.(color := SelColor, alpha := SelectedAlpha) else ResetColor(g)
  }

  function Refreshed(gs: seq<Gizmo>, selNames: seq<string>): seq<Gizmo> {
    seq(|gs|, k requires 0 <= k < |gs| => RefreshGizmo(gs[k], selNames))
  }

  /** After refresh, a gizmo of a selected bone has the selection color and
      alpha 0.5, one of an unselected bone its base color and alpha 0.25, and
      a gizmo with no bone is unchanged; only color and alpha ever change. */
  lemma RefreshRule(gs: seq<Gizmo>, selNames: seq<string>, k: nat)
    requires k < |gs|
    ensures |Refreshed(gs, selNames)| == |gs|
    ensures var g, r := gs[k], Refreshed(gs, selNames)[k];
      && (g.boneName.None? ==> r == g)
      && (g.boneName.Some? && g.boneName.value in selNames ==> r.color == SelColor && r.alpha == SelectedAlpha)
      && (g.boneName.Some? && g.boneName.value !in selNames ==> r.color == g.baseColor && r.alpha == ResetAlpha)
      && r.(color := g.color, alpha := g.alpha) == g
  {
  }

  /** Refreshing twice against the same selection is refreshing once. */
  lemma RefreshIdempotent(gs: seq<Gizmo>, selNames: seq<string>)
    ensures Refreshed(Refreshed(gs, selNames), selNames) == Refreshed(gs, selNames)
  {
  }

  // ---------------------------------------------------------------------
  // The add gizmo's invoke
  // ---------------------------------------------------------------------

  /** The gizmos the add gizmo's invoke appends when it walks the bones
      `pending` in order and `names` are the bone names already present: a
      bone gets a gizmo unless its name is already present, counting the
      gizmos added for the bones before it. */
  function AddedFor(pending: seq<Bone>, names: seq<string>): seq<Gizmo>
    decreases |pending|
  {
    if pending == [] then []
    else
      var prev := AddedFor(pending[..|pending| - 1], names);
      var b := pending[|pending| - 1];
      if b.name in names + BoneNames(prev) then prev else prev + [BoneGizmoFor(b)]
  }

  /** Every added gizmo is the gizmo for one of the walked bones. */
  lemma {:induction false} AddedForProvenance(pending: seq<Bone>, names: seq<string>)
    ensures forall g :: g in AddedFor(pending, names) ==> exists b :: b in pending && g == BoneGizmoFor(b)
    decreases |pending|
  {
    if pending != [] {
      var init := pending[..|pending| - 1];
      AddedForProvenance(init, names);
      assert forall c :: c in init ==> c in pending;
    }
  }

  /** Afterwards every walked bone's name is present; no added gizmo repeats
      a name already present or another added gizmo's name. */
  lemma {:induction false} AddedForNames(pending: seq<Bone>, names: seq<string>)
    ensures forall b :: b in pending ==> b.name in names + BoneNames(AddedFor(pending, names))
    ensures forall n :: n in BoneNames(AddedFor(pending, names)) ==> n !in names
    ensures Distinct(BoneNames(AddedFor(pending, names)))
    decreases |pending|
  {
    if pending != [] {
      var init := pending[..|pending| - 1];
      var prev := AddedFor(init, names);
      var b := pending[|pending| - 1];
      AddedForNames(init, names);
      assert forall c :: c in pending <==> c in init || c == b;
      var pn := BoneNames(prev);
      if b.name !in names + pn {
        BoneNamesAppend(prev, [BoneGizmoFor(b)]);
        BoneNamesSingle(BoneGizmoFor(b));
        assert BoneNames(AddedFor(pending, names)) == pn + [b.name];
        assert forall n :: n in names + pn ==> n in names + (pn + [b.name]);
        DistinctConcat(pn, [b.name]);
      } else {
        assert AddedFor(pending, names) == prev;
      }
    }
  }

  /** Every added gizmo is the gizmo for one of the walked bones; afterwards
      every walked bone's name is present; no added gizmo repeats a name
      already present or another added gizmo's name. */
  lemma AddedForProperties(pending: seq<Bone>, names: seq<string>)
    ensures forall g :: g in AddedFor(pending, names) ==> exists b :: b in pending && g == BoneGizmoFor(b)
    ensures forall b :: b in pending ==> b.name in names + BoneNames(AddedFor(pending, names))
    ensures forall n :: n in BoneNames(AddedFor(pending, names)) ==> n !in names
    ensures Distinct(BoneNames(AddedFor(pending, names)))
  {
    AddedForProvenance(pending, names);
    AddedForNames(pending, names);
  }

  lemma DistinctConcat(a: seq<string>, b: seq<string>)
    requires Distinct(a) && Distinct(b)
    requires forall n :: n in b ==> n !in a
    ensures Distinct(a + b)
  {
    forall i, j | 0 <= i < j < |a + b| ensures (a + b)[i] != (a + b)[j] {
      if j < |a| {
        assert (a + b)[j] == a[j] && (a + b)[i] == a[i];
      } else if i < |a| {
        assert (a + b)[j] == b[j - |a|] && (a + b)[i] == a[i];
        assert b[j - |a|] in b;
      } else {
        assert (a + b)[j] == b[j - |a|] && (a + b)[i] == b[i - |a|];
      }
    }
  }

  /** One step of the add gizmo's walk over the selected bones. */
  lemma AddedForStep(pending: seq<Bone>, k: nat, names: seq<string>)
    requires k < |pending|
    ensures var prev := AddedFor(pending[..k], names);
      AddedFor(pending[..k + 1], names)
        == if pending[k].name in names + BoneNames(prev) then prev else prev + [BoneGizmoFor(pending[k])]
  {
    assert pending[..k + 1][..k] == pending[..k];
  }

  /** One step of the walk, stated on the whole gizmo list: the name test
      against the current `bone_names` is the test `AddedFor` makes. */
  lemma AddInvokeStep(base: seq<Gizmo>, pending: seq<Bone>, k: nat, names: seq<string>)
    requires k < |pending| && BoneNames(base) == names
    ensures var cur := base + AddedFor(pending[..k], names);
      base + AddedFor(pending[..k + 1], names)
        == if pending[k].name in BoneNames(cur) then cur else cur + [BoneGizmoFor(pending[k])]
  {
    AddedForStep(pending, k, names);
    BoneNamesAppend(base, AddedFor(pending[..k], names));
    AppendAssoc(base, AddedFor(pending[..k], names), [BoneGizmoFor(pending[k])]);
  }

  /** What the walk leaves behind, stated for gizmos `base` whose names are
      `names`: every added gizmo is a well-formed bone gizmo, every walked
      bone is covered, and distinct names stay distinct. */
  lemma AddInvokeOutcome(base: seq<Gizmo>, pending: seq<Bone>, names: seq<string>)
    requires BoneNames(base) == names
    ensures var gs := base + AddedFor(pending, names);
      && (forall k :: |base| <= k < |gs| ==> WellFormed(gs[k]) && gs[k].kind == BoneGizmo)
      && (forall b :: b in pending ==> b.name in BoneNames(gs))
      && (Distinct(names) ==> Distinct(BoneNames(gs)))
  {
    var added := AddedFor(pending, names);
    AddedForProperties(pending, names);
    BoneNamesAppend(base, added);
    forall k | |base| <= k < |base + added|
      ensures WellFormed((base + added)[k]) && (base + added)[k].kind == BoneGizmo
    {
      assert (base + added)[k] == added[k - |base|];
      assert added[k - |base|] in added;
    }
    if Distinct(names) {
      DistinctConcat(names, BoneNames(added));
    }
  }

  // ---------------------------------------------------------------------
  // The modal handlers
  // ---------------------------------------------------------------------

  /** A mouse delta, in units, from the invoke-time position `init`. */
  function Delta(now: int, init: int): real {
    (now - init) as real / MouseDivisor
  }

  /** The add gizmo's modal step for one gizmo: `delta_x` added to entry
      [0][3] and `delta_y` to entry [2][3]. */
  function Pan(g: Gizmo, dx: real, dy: real): Gizmo {
    g.(translation := Vec3(g.translation.x + dx, g.translation.y, g.translation.z + dy))
  }

  function Panned(gs: seq<Gizmo>, dx: real, dy: real): seq<Gizmo> {
    seq(|gs|, k requires 0 <= k < |gs| => Pan(gs[k], dx, dy))
  }

  /** The deltas are measured from the invoke-time mouse position, so two
      modal steps at one mouse position move the gizmos twice as far as
      one step. */
  lemma PanAccumulates(gs: seq<Gizmo>, dx: real, dy: real)
    ensures Panned(Panned(gs, dx, dy), dx, dy) == Panned(gs, 2.0 * dx, 2.0 * dy)
  {
  }

  /** Moving and recoloring touch different fields, so they commute. */
  lemma PanRefreshCommute(gs: seq<Gizmo>, selNames: seq<string>, dx: real, dy: real)
    ensures Panned(Refreshed(gs, selNames), dx, dy) == Refreshed(Panned(gs, dx, dy), selNames)
  {
  }

  /** Two modal steps with one delta, each followed by a refresh, are one
      step by twice the delta followed by one refresh. */
  lemma ModalTwiceOutcome(gs: seq<Gizmo>, selNames: seq<string>, dx: real, dy: real)
    ensures Refreshed(Panned(Refreshed(Panned(gs, dx, dy), selNames), dx, dy), selNames)
            == Refreshed(Panned(gs, 2.0 * dx, 2.0 * dy), selNames)
  {
    PanRefreshCommute(Panned(gs, dx, dy), selNames, dx, dy);
    RefreshIdempotent(Panned(Panned(gs, dx, dy), dx, dy), selNames);
    PanAccumulates(gs, dx, dy);
  }

  /** Moving the gizmos keeps `bone_names`. */
  lemma PanKeepsBoneNames(gs: seq<Gizmo>, dx: real, dy: real)
    ensures BoneNames(Panned(gs, dx, dy)) == BoneNames(gs)
  {
    BoneNamesPointwise(gs, Panned(gs, dx, dy));
  }

  /** Refreshing keeps `bone_names`. */
  lemma RefreshKeepsBoneNames(gs: seq<Gizmo>, selNames: seq<string>)
    ensures BoneNames(Refreshed(gs, selNames)) == BoneNames(gs)
  {
    BoneNamesPointwise(gs, Refreshed(gs, selNames));
  }

  // ---------------------------------------------------------------------
  // poll
  // ---------------------------------------------------------------------

  /** `GrouzMo.poll`: the group is active when the context's active object
      exists, is an armature, and is in pose mode. */
  function Poll(active: Option<SceneObject>): (r: bool)
    ensures r <==> active.Some? && active.value.objectType == "ARMATURE" && active.value.mode == "POSE"
  {
    match active
    case None => false
    case Some(ob) => if ob.objectType == "ARMATURE" then ob.mode == "POSE" else false
  }

  // ---------------------------------------------------------------------
  // The group
  // ---------------------------------------------------------------------

  /** `GrouzMo` with its host context. */
  class Group {
    /** The armature's pose bones, in armature order. */
    const bones: seq<Bone>
    var gizmos: seq<Gizmo>
    /** The names of the selected bones. */
    var selected: set<string>

    ghost predicate Valid()
      reads this
    {
      forall k :: 0 <= k < |gizmos| ==> WellFormed(gizmos[k])
    }

    /** `[bone.name for bone in context.selected_pose_bones]`. */
    function SelectedNames(): seq<string>
      reads this
    {
      Names(SelectedPoseBones(bones, selected))
    }

    /** A group as the host creates it, before `setup`. */
    constructor (bones: seq<Bone>, selected: set<string>)
      ensures Valid()
      ensures this.bones == bones && this.selected == selected && gizmos == []
    {
      this.bones := bones;
      this.selected := selected;
      gizmos := [];
    }

    /** `GrouzMo.setup`: creates the add gizmo. */
    method Setup()
      requires Valid()
      modifies this
      ensures Valid() && selected == old(selected)
      ensures gizmos == old(gizmos) + [NewAddGizmo()]
    {
      var g := AddSetup(HostInitial(AddGizmo));
      g := g.(colorHighlight := AddHighlightColor);
      g := g.(alphaHighlight := AddHighlightAlpha);
      g := g.(useDrawModal := true);
      gizmos := gizmos + [g];
    }

    /** `GrouzMo.refresh`: recolors every gizmo that has a bone name against
        the current selection. */
    method Refresh()
      requires Valid()
      modifies this
      ensures Valid() && selected == old(selected)
      ensures gizmos == Refreshed(old(gizmos), SelectedNames())
      ensures BoneNames(gizmos) == BoneNames(old(gizmos))
    {
      var selNames := SelectedNames();
      var k := 0;
      while k < |gizmos|
        invariant 0 <= k <= |gizmos| == |old(gizmos)|
        invariant selected == old(selected)
        invariant forall j :: 0 <= j < k ==> gizmos[j] == RefreshGizmo(old(gizmos)[j], selNames)
        invariant forall j :: k <= j < |gizmos| ==> gizmos[j] == old(gizmos)[j]
      {
        var g := gizmos[k];
        match g.boneName {
          case None =>
          case Some(n) =>
            if n in selNames {
              g := g.(color := SelColor);
              g := g.(alpha := SelectedAlpha);
            } else {
              g := ResetColor(g);
            }
        }
        gizmos := gizmos[k := g];
        k := k + 1;
      }
      RefreshKeepsBoneNames(old(gizmos), selNames);
    }

    /** The loop of `AddzMo.invoke`: walks `pending` in order and appends a
        new bone gizmo, placed by `set_bone`, for each bone whose name is not
        yet in `bone_names`. */
    method AddMissing(pending: seq<Bone>)
      modifies this
      ensures selected == old(selected)
      ensures gizmos == old(gizmos) + AddedFor(pending, BoneNames(old(gizmos)))
    {
      ghost var base := gizmos;
      ghost var names := BoneNames(gizmos);
      for k := 0 to |pending|
        invariant gizmos == base + AddedFor(pending[..k], names)
        invariant selected == old(selected)
      {
        AddInvokeStep(base, pending, k, names);
        if pending[k].name !in BoneNames(gizmos) {
          gizmos := gizmos + [BoneGizmoFor(pending[k])];
        }
      }
      assert pending[..|pending|] == pending;
    }

    /** `AddzMo.invoke` on the add gizmo at index `i`: records the mouse
        position, then gives every selected bone not yet covered a new bone
        gizmo, placed by `set_bone`. Afterwards every selected bone has a
        gizmo, existing gizmos are unchanged but for the recorded mouse
        position, and no bone name appears twice that did not before. */
    method AddInvoke(i: nat, ev: Event) returns (status: Status)
      requires Valid() && i < |gizmos| && gizmos[i].kind == AddGizmo
      modifies this
      ensures Valid() && selected == old(selected) && status == RunningModal
      ensures gizmos == old(gizmos)[i := old(gizmos)[i].(initMouse := Some(Mouse(ev.mouseX, ev.mouseY)))]
                        + AddedFor(SelectedPoseBones(bones, selected), BoneNames(old(gizmos)))
      ensures forall b :: b in SelectedPoseBones(bones, selected) ==> b.name in BoneNames(gizmos)
      ensures Distinct(BoneNames(old(gizmos))) ==> Distinct(BoneNames(gizmos))
    {
      gizmos := gizmos[i := gizmos[i].(initMouse := Some(Mouse(ev.mouseX, ev.mouseY)))];
      BoneNamesUpdate(old(gizmos), i, gizmos[i]);
      ghost var base := gizmos;
      var sel := SelectedPoseBones(bones, selected);
      AddMissing(sel);
      AddInvokeOutcome(base, sel, BoneNames(old(gizmos)));
      status := RunningModal;
    }

    /** `AddzMo.modal` on the add gizmo at index `i`: moves every gizmo of the
        group, this one included, by the mouse delta since invoke (x to entry
        [0][3], y to entry [2][3]), then refreshes the colors. */
    method AddModal(i: nat, ev: Event) returns (status: Status)
      requires Valid() && i < |gizmos| && gizmos[i].kind == AddGizmo && gizmos[i].initMouse.Some?
      modifies this
      ensures Valid() && selected == old(selected) && status == RunningModal
      ensures var m := old(gizmos)[i].initMouse.value;
        gizmos == Refreshed(Panned(old(gizmos), Delta(ev.mouseX, m.x), Delta(ev.mouseY, m.y)), SelectedNames())
      ensures BoneNames(gizmos) == BoneNames(old(gizmos))
    {
      var m := gizmos[i].initMouse.value;
      var dx := Delta(ev.mouseX, m.x);
      var dy := Delta(ev.mouseY, m.y);
      for k := 0 to |gizmos|
        invariant |gizmos| == |old(gizmos)| && selected == old(selected)
        invariant forall j :: 0 <= j < k ==> gizmos[j] == Pan(old(gizmos)[j], dx, dy)
        invariant forall j :: k <= j < |gizmos| ==> gizmos[j] == old(gizmos)[j]
      {
        var g := gizmos[k];
        g := g.(translation := g.translation.(x := g.translation.x + dx));
        g := g.(translation := g.translation.(z := g.translation.z + dy));
        gizmos := gizmos[k := g];
      }
      assert gizmos == Panned(old(gizmos), dx, dy);
      PanKeepsBoneNames(old(gizmos), dx, dy);
      Refresh();
      status := RunningModal;
    }

    /** Two `AddzMo.modal` events at one mouse position: since each delta is
        measured from the invoke-time position, the gizmos end up moved by
        twice the delta and refreshed once. */
    method AddModalTwice(i: nat, ev: Event) returns (dx: real, dy: real)
      requires Valid() && i < |gizmos| && gizmos[i].kind == AddGizmo && gizmos[i].initMouse.Some?
      modifies this
      ensures var m := old(gizmos)[i].initMouse.value;
        dx == Delta(ev.mouseX, m.x) && dy == Delta(ev.mouseY, m.y)
      ensures Valid() && selected == old(selected)
      ensures gizmos == Refreshed(Panned(old(gizmos), 2.0 * dx, 2.0 * dy), SelectedNames())
    {
      var m := gizmos[i].initMouse.value;
      dx := Delta(ev.mouseX, m.x);
      dy := Delta(ev.mouseY, m.y);
      ghost var sel := SelectedNames();
      var status := AddModal(i, ev);
      assert gizmos[i] == RefreshGizmo(Pan(old(gizmos)[i], dx, dy), sel);
      status := AddModal(i, ev);
      ModalTwiceOutcome(old(gizmos), sel, dx, dy);
    }

    /** `BonezMo.invoke` on the bone gizmo at index `i`: records the mouse
        position, deselects every bone unless shift is held, then selects
        the gizmo's bone if the armature has it. */
    method BoneInvoke(i: nat, ev: Event) returns (status: Status)
      requires Valid() && i < |gizmos| && gizmos[i].kind == BoneGizmo
      modifies this
      ensures Valid() && status == RunningModal
      ensures gizmos == old(gizmos)[i := old(gizmos)[i].(initMouse := Some(Mouse(ev.mouseX, ev.mouseY)))]
      ensures selected == InvokeSelection(old(selected), bones, old(gizmos)[i].boneName.value, ev.shift)
    {
      assert WellFormed(gizmos[i]);
      gizmos := gizmos[i := gizmos[i].(initMouse := Some(Mouse(ev.mouseX, ev.mouseY)))];
      if !ev.shift {
        selected := {};
      }
      match FindBone(bones, gizmos[i].boneName.value) {
        case None =>
        case Some(b) => selected := selected + {b.name};
      }
      status := RunningModal;
    }

    /** `BonezMo.modal` on the bone gizmo at index `i`: with alt, the mouse
        delta since invoke is added to entries [0][3] and [1][3]; with shift,
        `delta_x` is added to `scale_basis`; nothing else changes. */
    method BoneModal(i: nat, ev: Event) returns (status: Status)
      requires Valid() && i < |gizmos| && gizmos[i].kind == BoneGizmo && gizmos[i].initMouse.Some?
      modifies this
      ensures Valid() && selected == old(selected) && status == RunningModal
      ensures |gizmos| == |old(gizmos)|
      ensures forall k :: 0 <= k < |gizmos| && k != i ==> gizmos[k] == old(gizmos)[k]
      ensures var g, m := old(gizmos)[i], old(gizmos)[i].initMouse.value;
        var dx, dy := Delta(ev.mouseX, m.x), Delta(ev.mouseY, m.y);
        && gizmos[i].translation == (if ev.alt then Vec3(g.translation.x + dx, g.translation.y + dy, g.translation.z)
                                     else g.translation)
        && gizmos[i].scaleBasis == (if ev.shift then g.scaleBasis + dx else g.scaleBasis)
        && gizmos[i].(translation := g.translation, scaleBasis := g.scaleBasis) == g
    {
      var m := gizmos[i].initMouse.value;
      var dy := Delta(ev.mouseY, m.y);
      var dx := Delta(ev.mouseX, m.x);
      var g := gizmos[i];
      if ev.alt {
        g := g.(translation := g.translation.(x := g.translation.x + dx));
        g := g.(translation := g.translation.(y := g.translation.y + dy));
      }
      if ev.shift {
        g := g.(scaleBasis := g.scaleBasis + dx);
      }
      gizmos := gizmos[i := g];
      status := RunningModal;
    }
  }
}
