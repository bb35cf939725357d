/** The picker names `main` requests for each sided control, spelled out:
    every `str.format` of a `side_controls` entry is evaluated here for both
    sides, so the layout of `MainRequests` can be read with literal names. */
module RigifyNames {
  import opened HostData
  import opened RigifyGizmos

  /** A template that is `p`, one `{0}` and `s` formats to `p`, the side and
      `s`; stated over the template so that each name below is one call. */
  lemma Spliced(t: string, p: string, s: string, side: string, r: string)
    requires t == p + "{0}" + s && r == p + side + s
    requires '{' !in p && '}' !in p && '{' !in s && '}' !in s
    ensures Format(t, side) == r
  {
    FormatSplice(p, s, side);
  }

  // Each left name on its own, collected by `SideNamesL`.

  lemma ToeBoneL()
    ensures Format(SideControls[0].0, "L") == "toe.L"
  {
    Spliced(SideControls[0].0, "toe.", "", "L", "toe.L");
  }

  lemma ToeGroupL()
    ensures Format(SideControls[0].1, "L") == "DEF-toe.L"
  {
    Spliced(SideControls[0].1, "DEF-toe.", "", "L", "DEF-toe.L");
  }

  lemma FootIkBoneL()
    ensures Format(SideControls[1].0, "L") == "foot_ik.L"
  {
    Spliced(SideControls[1].0, "foot_ik.", "", "L", "foot_ik.L");
  }

  lemma FootIkGroupL()
    ensures Format(SideControls[1].1, "L") == "DEF-foot.L"
  {
    Spliced(SideControls[1].1, "DEF-foot.", "", "L", "DEF-foot.L");
  }

  lemma ThighIkBoneL()
    ensures Format(SideControls[2].0, "L") == "thigh_ik.L"
  {
    Spliced(SideControls[2].0, "thigh_ik.", "", "L", "thigh_ik.L");
  }

  lemma ThighIkGroupL()
    ensures Format(SideControls[2].1, "L") == "DEF-thigh.L.001"
  {
    Spliced(SideControls[2].1, "DEF-thigh.", ".001", "L", "DEF-thigh.L.001");
  }

  lemma ShoulderBoneL()
    ensures Format(SideControls[3].0, "L") == "shoulder.L"
  {
    Spliced(SideControls[3].0, "shoulder.", "", "L", "shoulder.L");
  }

  lemma ShoulderGroupL()
    ensures Format(SideControls[3].1, "L") == "DEF-shoulder.L"
  {
    Spliced(SideControls[3].1, "DEF-shoulder.", "", "L", "DEF-shoulder.L");
  }

  lemma UpperArmFkBoneL()
    ensures Format(SideControls[4].0, "L") == "upper_arm_fk.L"
  {
    Spliced(SideControls[4].0, "upper_arm_fk.", "", "L", "upper_arm_fk.L");
  }

  lemma UpperArmFkGroupL()
    ensures Format(SideControls[4].1, "L") == "DEF-upper_arm.L.001"
  {
    Spliced(SideControls[4].1, "DEF-upper_arm.", ".001", "L", "DEF-upper_arm.L.001");
  }

  lemma ForearmFkBoneL()
    ensures Format(SideControls[5].0, "L") == "forearm_fk.L"
  {
    Spliced(SideControls[5].0, "forearm_fk.", "", "L", "forearm_fk.L");
  }

  lemma ForearmFkGroupL()
    ensures Format(SideControls[5].1, "L") == "DEF-forearm.L.001"
  {
    Spliced(SideControls[5].1, "DEF-forearm.", ".001", "L", "DEF-forearm.L.001");
  }

  lemma HandFkBoneL()
    ensures Format(SideControls[6].0, "L") == "hand_fk.L"
  {
    Spliced(SideControls[6].0, "hand_fk.", "", "L", "hand_fk.L");
  }

  lemma HandFkGroupL()
    ensures Format(SideControls[6].1, "L") == "DEF-palm.02.L"
  {
    Spliced(SideControls[6].1, "DEF-palm.02.", "", "L", "DEF-palm.02.L");
  }

  lemma Thumb01MasterBoneL()
    ensures Format(SideControls[7].0, "L") == "thumb.01_master.L"
  {
    Spliced(SideControls[7].0, "thumb.01_master.", "", "L", "thumb.01_master.L");
  }

  lemma Thumb01MasterGroupL()
    ensures Format(SideControls[7].1, "L") == "DEF-thumb.02.L"
  {
    Spliced(SideControls[7].1, "DEF-thumb.02.", "", "L", "DEF-thumb.02.L");
  }

  lemma FIndex01MasterBoneL()
    ensures Format(SideControls[8].0, "L") == "f_index.01_master.L"
  {
    Spliced(SideControls[8].0, "f_index.01_master.", "", "L", "f_index.01_master.L");
  }

  lemma FIndex01MasterGroupL()
    ensures Format(SideControls[8].1, "L") == "DEF-f_index.02.L"
  {
    Spliced(SideControls[8].1, "DEF-f_index.02.", "", "L", "DEF-f_index.02.L");
  }

  lemma FMiddle01MasterBoneL()
    ensures Format(SideControls[9].0, "L") == "f_middle.01_master.L"
  {
    Spliced(SideControls[9].0, "f_middle.01_master.", "", "L", "f_middle.01_master.L");
  }

  lemma FMiddle01MasterGroupL()
    ensures Format(SideControls[9].1, "L") == "DEF-f_middle.02.L"
  {
    Spliced(SideControls[9].1, "DEF-f_middle.02.", "", "L", "DEF-f_middle.02.L");
  }

  lemma FRing01MasterBoneL()
    ensures Format(SideControls[10].0, "L") == "f_ring.01_master.L"
  {
    Spliced(SideControls[10].0, "f_ring.01_master.", "", "L", "f_ring.01_master.L");
  }

  lemma FRing01MasterGroupL()
    ensures Format(SideControls[10].1, "L") == "DEF-f_ring.02.L"
  {
    Spliced(SideControls[10].1, "DEF-f_ring.02.", "", "L", "DEF-f_ring.02.L");
  }

  lemma FPinky01MasterBoneL()
    ensures Format(SideControls[11].0, "L") == "f_pinky.01_master.L"
  {
    Spliced(SideControls[11].0, "f_pinky.01_master.", "", "L", "f_pinky.01_master.L");
  }

  lemma FPinky01MasterGroupL()
    ensures Format(SideControls[11].1, "L") == "DEF-f_pinky.02.L"
  {
    Spliced(SideControls[11].1, "DEF-f_pinky.02.", "", "L", "DEF-f_pinky.02.L");
  }

  /** The twelve `side_controls` entries formatted with 'L': control bone
      and vertex group, in table order. */
  lemma SideNamesL()
    ensures Format(SideControls[0].0, "L") == "toe.L" && Format(SideControls[0].1, "L") == "DEF-toe.L"
    ensures Format(SideControls[1].0, "L") == "foot_ik.L" && Format(SideControls[1].1, "L") == "DEF-foot.L"
    ensures Format(SideControls[2].0, "L") == "thigh_ik.L" && Format(SideControls[2].1, "L") == "DEF-thigh.L.001"
    ensures Format(SideControls[3].0, "L") == "shoulder.L" && Format(SideControls[3].1, "L") == "DEF-shoulder.L"
    ensures Format(SideControls[4].0, "L") == "upper_arm_fk.L" && Format(SideControls[4].1, "L") == "DEF-upper_arm.L.001"
    ensures Format(SideControls[5].0, "L") == "forearm_fk.L" && Format(SideControls[5].1, "L") == "DEF-forearm.L.001"
    ensures Format(SideControls[6].0, "L") == "hand_fk.L" && Format(SideControls[6].1, "L") == "DEF-palm.02.L"
    ensures Format(SideControls[7].0, "L") == "thumb.01_master.L" && Format(SideControls[7].1, "L") == "DEF-thumb.02.L"
    ensures Format(SideControls[8].0, "L") == "f_index.01_master.L" && Format(SideControls[8].1, "L") == "DEF-f_index.02.L"
    ensures Format(SideControls[9].0, "L") == "f_middle.01_master.L" && Format(SideControls[9].1, "L") == "DEF-f_middle.02.L"
    ensures Format(SideControls[10].0, "L") == "f_ring.01_master.L" && Format(SideControls[10].1, "L") == "DEF-f_ring.02.L"
    ensures Format(SideControls[11].0, "L") == "f_pinky.01_master.L" && Format(SideControls[11].1, "L") == "DEF-f_pinky.02.L"
  {
    ToeBoneL();
    ToeGroupL();
    FootIkBoneL();
    FootIkGroupL();
    ThighIkBoneL();
    ThighIkGroupL();
    ShoulderBoneL();
    ShoulderGroupL();
    UpperArmFkBoneL();
    UpperArmFkGroupL();
    ForearmFkBoneL();
    ForearmFkGroupL();
    HandFkBoneL();
    HandFkGroupL();
    Thumb01MasterBoneL();
    Thumb01MasterGroupL();
    FIndex01MasterBoneL();
    FIndex01MasterGroupL();
    FMiddle01MasterBoneL();
    FMiddle01MasterGroupL();
    FRing01MasterBoneL();
    FRing01MasterGroupL();
    FPinky01MasterBoneL();
    FPinky01MasterGroupL();
  }

  /** Requests 0 to 11 of `main` are the mesh pickers of the 'L' side,
      with the names spelled out. */
  lemma SideRequestsL(obj: SceneObject)
    ensures |MainRequests(obj)| == 30
    ensures MainRequests(obj)[0] == MeshPicker(obj, "toe.L", "DEF-toe.L")
    ensures MainRequests(obj)[1] == MeshPicker(obj, "foot_ik.L", "DEF-foot.L")
    ensures MainRequests(obj)[2] == MeshPicker(obj, "thigh_ik.L", "DEF-thigh.L.001")
    ensures MainRequests(obj)[3] == MeshPicker(obj, "shoulder.L", "DEF-shoulder.L")
    ensures MainRequests(obj)[4] == MeshPicker(obj, "upper_arm_fk.L", "DEF-upper_arm.L.001")
    ensures MainRequests(obj)[5] == MeshPicker(obj, "forearm_fk.L", "DEF-forearm.L.001")
    ensures MainRequests(obj)[6] == MeshPicker(obj, "hand_fk.L", "DEF-palm.02.L")
    ensures MainRequests(obj)[7] == MeshPicker(obj, "thumb.01_master.L", "DEF-thumb.02.L")
    ensures MainRequests(obj)[8] == MeshPicker(obj, "f_index.01_master.L", "DEF-f_index.02.L")
    ensures MainRequests(obj)[9] == MeshPicker(obj, "f_middle.01_master.L", "DEF-f_middle.02.L")
    ensures MainRequests(obj)[10] == MeshPicker(obj, "f_ring.01_master.L", "DEF-f_ring.02.L")
    ensures MainRequests(obj)[11] == MeshPicker(obj, "f_pinky.01_master.L", "DEF-f_pinky.02.L")
  {
    MainRequestsLayout(obj);
    SideNamesL();
  }

  // Each right name on its own, collected by `SideNamesR`.

  lemma ToeBoneR()
    ensures Format(SideControls[0].0, "R") == "toe.R"
  {
    Spliced(SideControls[0].0, "toe.", "", "R", "toe.R");
  }

  lemma ToeGroupR()
    ensures Format(SideControls[0].1, "R") == "DEF-toe.R"
  {
    Spliced(SideControls[0].1, "DEF-toe.", "", "R", "DEF-toe.R");
  }

  lemma FootIkBoneR()
    ensures Format(SideControls[1].0, "R") == "foot_ik.R"
  {
    Spliced(SideControls[1].0, "foot_ik.", "", "R", "foot_ik.R");
  }

  lemma FootIkGroupR()
    ensures Format(SideControls[1].1, "R") == "DEF-foot.R"
  {
    Spliced(SideControls[1].1, "DEF-foot.", "", "R", "DEF-foot.R");
  }

  lemma ThighIkBoneR()
    ensures Format(SideControls[2].0, "R") == "thigh_ik.R"
  {
    Spliced(SideControls[2].0, "thigh_ik.", "", "R", "thigh_ik.R");
  }

  lemma ThighIkGroupR()
    ensures Format(SideControls[2].1, "R") == "DEF-thigh.R.001"
  {
    Spliced(SideControls[2].1, "DEF-thigh.", ".001", "R", "DEF-thigh.R.001");
  }

  lemma ShoulderBoneR()
    ensures Format(SideControls[3].0, "R") == "shoulder.R"
  {
    Spliced(SideControls[3].0, "shoulder.", "", "R", "shoulder.R");
  }

  lemma ShoulderGroupR()
    ensures Format(SideControls[3].1, "R") == "DEF-shoulder.R"
  {
    Spliced(SideControls[3].1, "DEF-shoulder.", "", "R", "DEF-shoulder.R");
  }

  lemma UpperArmFkBoneR()
    ensures Format(SideControls[4].0, "R") == "upper_arm_fk.R"
  {
    Spliced(SideControls[4].0, "upper_arm_fk.", "", "R", "upper_arm_fk.R");
  }

  lemma UpperArmFkGroupR()
    ensures Format(SideControls[4].1, "R") == "DEF-upper_arm.R.001"
  {
    Spliced(SideControls[4].1, "DEF-upper_arm.", ".001", "R", "DEF-upper_arm.R.001");
  }

  lemma ForearmFkBoneR()
    ensures Format(SideControls[5].0, "R") == "forearm_fk.R"
  {
    Spliced(SideControls[5].0, "forearm_fk.", "", "R", "forearm_fk.R");
  }

  lemma ForearmFkGroupR()
    ensures Format(SideControls[5].1, "R") == "DEF-forearm.R.001"
  {
    Spliced(SideControls[5].1, "DEF-forearm.", ".001", "R", "DEF-forearm.R.001");
  }

  lemma HandFkBoneR()
    ensures Format(SideControls[6].0, "R") == "hand_fk.R"
  {
    Spliced(SideControls[6].0, "hand_fk.", "", "R", "hand_fk.R");
  }

  lemma HandFkGroupR()
    ensures Format(SideControls[6].1, "R") == "DEF-palm.02.R"
  {
    Spliced(SideControls[6].1, "DEF-palm.02.", "", "R", "DEF-palm.02.R");
  }

  lemma Thumb01MasterBoneR()
    ensures Format(SideControls[7].0, "R") == "thumb.01_master.R"
  {
    Spliced(SideControls[7].0, "thumb.01_master.", "", "R", "thumb.01_master.R");
  }

  lemma Thumb01MasterGroupR()
    ensures Format(SideControls[7].1, "R") == "DEF-thumb.02.R"
  {
    Spliced(SideControls[7].1, "DEF-thumb.02.", "", "R", "DEF-thumb.02.R");
  }

  lemma FIndex01MasterBoneR()
    ensures Format(SideControls[8].0, "R") == "f_index.01_master.R"
  {
    Spliced(SideControls[8].0, "f_index.01_master.", "", "R", "f_index.01_master.R");
  }

  lemma FIndex01MasterGroupR()
    ensures Format(SideControls[8].1, "R") == "DEF-f_index.02.R"
  {
    Spliced(SideControls[8].1, "DEF-f_index.02.", "", "R", "DEF-f_index.02.R");
  }

  lemma FMiddle01MasterBoneR()
    ensures Format(SideControls[9].0, "R") == "f_middle.01_master.R"
  {
    Spliced(SideControls[9].0, "f_middle.01_master.", "", "R", "f_middle.01_master.R");
  }

  lemma FMiddle01MasterGroupR()
    ensures Format(SideControls[9].1, "R") == "DEF-f_middle.02.R"
  {
    Spliced(SideControls[9].1, "DEF-f_middle.02.", "", "R", "DEF-f_middle.02.R");
  }

  lemma FRing01MasterBoneR()
    ensures Format(SideControls[10].0, "R") == "f_ring.01_master.R"
  {
    Spliced(SideControls[10].0, "f_ring.01_master.", "", "R", "f_ring.01_master.R");
  }

  lemma FRing01MasterGroupR()
    ensures Format(SideControls[10].1, "R") == "DEF-f_ring.02.R"
  {
    Spliced(SideControls[10].1, "DEF-f_ring.02.", "", "R", "DEF-f_ring.02.R");
  }

  lemma FPinky01MasterBoneR()
    ensures Format(SideControls[11].0, "R") == "f_pinky.01_master.R"
  {
    Spliced(SideControls[11].0, "f_pinky.01_master.", "", "R", "f_pinky.01_master.R");
  }

  lemma FPinky01MasterGroupR()
    ensures Format(SideControls[11].1, "R") == "DEF-f_pinky.02.R"
  {
    Spliced(SideControls[11].1, "DEF-f_pinky.02.", "", "R", "DEF-f_pinky.02.R");
  }

  /** The twelve `side_controls` entries formatted with 'R': control bone
      and vertex group, in table order. */
  lemma SideNamesR()
    ensures Format(SideControls[0].0, "R") == "toe.R" && Format(SideControls[0].1, "R") == "DEF-toe.R"
    ensures Format(SideControls[1].0, "R") == "foot_ik.R" && Format(SideControls[1].1, "R") == "DEF-foot.R"
    ensures Format(SideControls[2].0, "R") == "thigh_ik.R" && Format(SideControls[2].1, "R") == "DEF-thigh.R.001"
    ensures Format(SideControls[3].0, "R") == "shoulder.R" && Format(SideControls[3].1, "R") == "DEF-shoulder.R"
    ensures Format(SideControls[4].0, "R") == "upper_arm_fk.R" && Format(SideControls[4].1, "R") == "DEF-upper_arm.R.001"
    ensures Format(SideControls[5].0, "R") == "forearm_fk.R" && Format(SideControls[5].1, "R") == "DEF-forearm.R.001"
    ensures Format(SideControls[6].0, "R") == "hand_fk.R" && Format(SideControls[6].1, "R") == "DEF-palm.02.R"
    ensures Format(SideControls[7].0, "R") == "thumb.01_master.R" && Format(SideControls[7].1, "R") == "DEF-thumb.02.R"
    ensures Format(SideControls[8].0, "R") == "f_index.01_master.R" && Format(SideControls[8].1, "R") == "DEF-f_index.02.R"
    ensures Format(SideControls[9].0, "R") == "f_middle.01_master.R" && Format(SideControls[9].1, "R") == "DEF-f_middle.02.R"
    ensures Format(SideControls[10].0, "R") == "f_ring.01_master.R" && Format(SideControls[10].1, "R") == "DEF-f_ring.02.R"
    ensures Format(SideControls[11].0, "R") == "f_pinky.01_master.R" && Format(SideControls[11].1, "R") == "DEF-f_pinky.02.R"
  {
    ToeBoneR();
    ToeGroupR();
    FootIkBoneR();
    FootIkGroupR();
    ThighIkBoneR();
    ThighIkGroupR();
    ShoulderBoneR();
    ShoulderGroupR();
    UpperArmFkBoneR();
    UpperArmFkGroupR();
    ForearmFkBoneR();
    ForearmFkGroupR();
    HandFkBoneR();
    HandFkGroupR();
    Thumb01MasterBoneR();
    Thumb01MasterGroupR();
    FIndex01MasterBoneR();
    FIndex01MasterGroupR();
    FMiddle01MasterBoneR();
    FMiddle01MasterGroupR();
    FRing01MasterBoneR();
    FRing01MasterGroupR();
    FPinky01MasterBoneR();
    FPinky01MasterGroupR();
  }

  /** Requests 12 to 23 of `main` are the mesh pickers of the 'R' side,
      with the names spelled out. */
  lemma SideRequestsR(obj: SceneObject)
    ensures |MainRequests(obj)| == 30
    ensures MainRequests(obj)[12] == MeshPicker(obj, "toe.R", "DEF-toe.R")
    ensures MainRequests(obj)[13] == MeshPicker(obj, "foot_ik.R", "DEF-foot.R")
    ensures MainRequests(obj)[14] == MeshPicker(obj, "thigh_ik.R", "DEF-thigh.R.001")
    ensures MainRequests(obj)[15] == MeshPicker(obj, "shoulder.R", "DEF-shoulder.R")
    ensures MainRequests(obj)[16] == MeshPicker(obj, "upper_arm_fk.R", "DEF-upper_arm.R.001")
    ensures MainRequests(obj)[17] == MeshPicker(obj, "forearm_fk.R", "DEF-forearm.R.001")
    ensures MainRequests(obj)[18] == MeshPicker(obj, "hand_fk.R", "DEF-palm.02.R")
    ensures MainRequests(obj)[19] == MeshPicker(obj, "thumb.01_master.R", "DEF-thumb.02.R")
    ensures MainRequests(obj)[20] == MeshPicker(obj, "f_index.01_master.R", "DEF-f_index.02.R")
    ensures MainRequests(obj)[21] == MeshPicker(obj, "f_middle.01_master.R", "DEF-f_middle.02.R")
    ensures MainRequests(obj)[22] == MeshPicker(obj, "f_ring.01_master.R", "DEF-f_ring.02.R")
    ensures MainRequests(obj)[23] == MeshPicker(obj, "f_pinky.01_master.R", "DEF-f_pinky.02.R")
  {
    MainRequestsLayout(obj);
    SideNamesR();
  }

}

