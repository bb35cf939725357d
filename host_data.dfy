/** The host application's data that the addon reads, reduced to plain
    records: positions, pose bones, scene objects and input events. */
module HostData {
  import opened Wrappers

  /** A 3D position or translation. */
  datatype Vec3 = Vec3(x: real, y: real, z: real)

  /** A pose bone: its name and the position of its head. */
  datatype Bone = Bone(name: string, head: Vec3)

  /** A scene object: its name, its type ("MESH", "ARMATURE", ...), its
      interaction mode ("POSE", "OBJECT", ...), the names of its modifiers
      and its height (`dimensions[2]`). */
  datatype SceneObject = SceneObject(name: string, objectType: string, mode: string,
                                     modifiers: seq<string>, height: real)

  /** A mouse event: the cursor position in pixels and the modifier keys. */
  datatype Event = Event(mouseX: int, mouseY: int, shift: bool, alt: bool)

  /** The names of a sequence of bones, in order. */
  function Names(bones: seq<Bone>): (r: seq<string>)
    ensures |r| == |bones|
    ensures forall k :: 0 <= k < |bones| ==> r[k] == bones[k].name
  {
    seq(|bones|, k requires 0 <= k < |bones| => bones[k].name)
  }

  /** Looks a bone up by name, as `bones[name]` does; `None` is the `KeyError`
      case. */
  function FindBone(bones: seq<Bone>, name: string): (r: Option<Bone>)
    ensures r.None? <==> name !in Names(bones)
    ensures r.Some? ==> r.value in bones && r.value.name == name
  {
    if bones == [] then None
    else if bones[0].name == name then Some(bones[0])
    else
      assert Names(bones) == [bones[0].name] + Names(bones[1..]);
      FindBone(bones[1..], name)
  }
}
