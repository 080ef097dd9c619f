/** The fixed scene of the perspective-taking test (seven labelled objects at fixed
    percentage coordinates), its practice and test trials, and the computation of
    a trial's correct angle from the object positions. */
module SotCatalog {
  import opened JsMath
  import opened Geometry

  datatype SceneObject = SceneObject(id: string, name: string, src: string)

  /** Where an object stands in the scene: x from the left, y from the top. */
  datatype ObjectPosition = ObjectPosition(id: string, x: int, y: int)

  /** Test trials are numbered 1..12; practice trials carry labels 'p1'..'p3'. */
  datatype TrialId = Numbered(n: nat) | Named(tag: string)

  /** Stand at one object, face a second, point to a third. */
  datatype TrialSpec = TrialSpec(id: TrialId, standing: string, facing: string, pointing: string)

  const objects: seq<SceneObject> := [
    SceneObject("bell", "bell", "assets/objects/bell.svg"),
    SceneObject("tree", "tree", "assets/objects/tree.svg"),
    SceneObject("drum", "drum", "assets/objects/drum.svg"),
    SceneObject("wheel", "wheel", "assets/objects/wheel.svg"),
    SceneObject("traffic-light", "traffic light", "assets/objects/traffic-light.svg"),
    SceneObject("trash-can", "trash can", "assets/objects/trash-can.svg"),
    SceneObject("barrel", "barrel", "assets/objects/barrel.svg")
  ]

  const testTrials: seq<TrialSpec> := [
    TrialSpec(Numbered(1), "bell", "tree", "drum"),
    TrialSpec(Numbered(2), "tree", "bell", "trash-can"),
    TrialSpec(Numbered(3), "traffic-light", "drum", "trash-can"),
    TrialSpec(Numbered(4), "barrel", "drum", "wheel"),
    TrialSpec(Numbered(5), "barrel", "trash-can", "bell"),
    TrialSpec(Numbered(6), "trash-can", "bell", "traffic-light"),
    TrialSpec(Numbered(7), "wheel", "barrel", "traffic-light"),
    TrialSpec(Numbered(8), "traffic-light", "bell", "wheel"),
    TrialSpec(Numbered(9), "drum", "tree", "wheel"),
    TrialSpec(Numbered(10), "drum", "trash-can", "barrel"),
    TrialSpec(Numbered(11), "trash-can", "drum", "tree"),
    TrialSpec(Numbered(12), "bell", "trash-can", "barrel")
  ]

  const practiceTrials: seq<TrialSpec> := [
    TrialSpec(Named("p1"), "bell", "tree", "drum"),
    TrialSpec(Named("p2"), "tree", "bell", "trash-can"),
    TrialSpec(Named("p3"), "trash-can", "bell", "wheel")
  ]

  const objectPositions: seq<ObjectPosition> := [
    ObjectPosition("wheel", 50, 20),
    ObjectPosition("traffic-light", 25, 35),
    ObjectPosition("barrel", 75, 40),
    ObjectPosition("trash-can", 20, 65),
    ObjectPosition("tree", 80, 80),
    ObjectPosition("drum", 50, 65),
    ObjectPosition("bell", 50, 50)
  ]

  function At(p: ObjectPosition): Vec { Vec(p.x, p.y) }

  /** `objectPositions.find(pos => pos.id === id)`: the first position with that id. */
  function FindPosition(ps: seq<ObjectPosition>, id: string): Option<ObjectPosition>
  {
    if ps == [] then None
    else if ps[0].id == id then Some(ps[0])
    else FindPosition(ps[1..], id)
  }

  /** `objects.find(obj => obj.id === id)`: the first object with that id. */
  function FindObject(os: seq<SceneObject>, id: string): Option<SceneObject>
  {
    if os == [] then None
    else if os[0].id == id then Some(os[0])
    else FindObject(os[1..], id)
  }

  /** A position is found exactly when one carries the id, and it is the first one. */
  lemma {:induction false} FindPositionFirst(ps: seq<ObjectPosition>, id: string)
    ensures FindPosition(ps, id).None? <==> forall i :: 0 <= i < |ps| ==> ps[i].id != id
    ensures FindPosition(ps, id).Some? ==>
              exists i :: 0 <= i < |ps| && ps[i] == FindPosition(ps, id).value && ps[i].id == id
                          && forall j :: 0 <= j < i ==> ps[j].id != id
  {
    if ps != [] && ps[0].id != id {
      FindPositionFirst(ps[1..], id);
      if FindPosition(ps, id).Some? {
        var i :| 0 <= i < |ps[1..]| && ps[1..][i] == FindPosition(ps, id).value && ps[1..][i].id == id
                 && forall j :: 0 <= j < i ==> ps[1..][j].id != id;
        assert ps[i + 1] == ps[1..][i];
        assert forall j :: 0 < j < i + 1 ==> ps[j] == ps[1..][j - 1];
      }
      forall i | 0 <= i < |ps| && FindPosition(ps, id).None? ensures ps[i].id != id {
        if i > 0 { assert ps[i] == ps[1..][i - 1]; }
      }
    }
  }

  /** An object is found exactly when one carries the id, and it is the first one. */
  lemma {:induction false} FindObjectFirst(os: seq<SceneObject>, id: string)
    ensures FindObject(os, id).None? <==> forall i :: 0 <= i < |os| ==> os[i].id != id
    ensures FindObject(os, id).Some? ==>
              exists i :: 0 <= i < |os| && os[i] == FindObject(os, id).value && os[i].id == id
                          && forall j :: 0 <= j < i ==> os[j].id != id
  {
    if os != [] && os[0].id != id {
      FindObjectFirst(os[1..], id);
      if FindObject(os, id).Some? {
        var i :| 0 <= i < |os[1..]| && os[1..][i] == FindObject(os, id).value && os[1..][i].id == id
                 && forall j :: 0 <= j < i ==> os[1..][j].id != id;
        assert os[i + 1] == os[1..][i];
        assert forall j :: 0 < j < i + 1 ==> os[j] == os[1..][j - 1];
      }
      forall i | 0 <= i < |os| && FindObject(os, id).None? ensures os[i].id != id {
        if i > 0 { assert os[i] == os[1..][i - 1]; }
      }
    }
  }

  function PositionOf(id: string): Option<ObjectPosition>
  {
    FindPosition(objectPositions, id)
  }

  /** `getObjectName`: the display name of the object with that id, or the id
      itself when there is none. */
  function GetObjectName(id: string): (name: string)
    ensures forall i :: 0 <= i < |objects| && objects[i].id == id ==> name == objects[i].name
    ensures (forall i :: 0 <= i < |objects| ==> objects[i].id != id) ==> name == id
  {
    FindObjectFirst(objects, id);
    ObjectIdsUnique();
    match FindObject(objects, id)
    case Some(o) => o.name
    case None => id
  }

  lemma ObjectIdsUnique()
    ensures forall i, j :: 0 <= i < j < |objects| ==> objects[i].id != objects[j].id
  {
  }

  /** `calculateCorrectAngle`: 0 when an id has no position; NaN when standing and
      facing coincide (the facing direction is then 0 / 0); otherwise the raw atan2
      of (cross, dot) taken through CorrectAngleFromRaw. */
  function CalculateCorrectAngle(standingId: string, facingId: string, pointingId: string,
                                 atan2: (int, int) -> real): (r: JsNum)
    requires Atan2Range(atan2)
    ensures PositionOf(standingId).None? || PositionOf(facingId).None? || PositionOf(pointingId).None?
            ==> r == Num(0.0)
    ensures r.NaN? <==> PositionOf(standingId).Some? && PositionOf(facingId).Some?
                        && PositionOf(pointingId).Some?
                        && At(PositionOf(standingId).value) == At(PositionOf(facingId).value)
    ensures r.Num? ==> 0.0 <= r.v < 360.0
  {
    var standingPos := PositionOf(standingId);
    var facingPos := PositionOf(facingId);
    var pointingPos := PositionOf(pointingId);
    if standingPos.None? || facingPos.None? || pointingPos.None? then
      Num(0.0)
    else
      var facingDir := Sub(At(facingPos.value), At(standingPos.value));
      var pointingVec := Sub(At(pointingPos.value), At(standingPos.value));
      if facingDir == Vec(0, 0) then
        NaN
      else
        Num(CorrectAngleFromRaw(atan2(Cross(facingDir, pointingVec), Dot(facingDir, pointingVec))))
  }

  /** Pointing at the object one faces gives cross product 0 and a positive dot
      product, so the correct angle is exactly 180. */
  lemma PointingAtFacingIs180(standingId: string, facingId: string, pointingId: string,
                              atan2: (int, int) -> real)
    requires Atan2Range(atan2) && Atan2ZeroAhead(atan2)
    requires PositionOf(standingId).Some? && PositionOf(facingId).Some? && PositionOf(pointingId).Some?
    requires At(PositionOf(pointingId).value) == At(PositionOf(facingId).value)
    requires At(PositionOf(standingId).value) != At(PositionOf(facingId).value)
    ensures CalculateCorrectAngle(standingId, facingId, pointingId, atan2) == Num(180.0)
  {
    var s := At(PositionOf(standingId).value);
    var f := Sub(At(PositionOf(facingId).value), s);
    assert f != Vec(0, 0);
    DotSelfPositive(f);
    assert Cross(f, f) == 0;
    assert atan2(0, Dot(f, f)) == 0.0;
  }

  /** The worked example of the first trial: bell (50,50), tree (80,80), drum (50,65)
      give cross = dot = 450, atan2 45 degrees, and a correct angle of 135. */
  lemma FirstTrialExample(atan2: (int, int) -> real)
    requires Atan2Range(atan2) && atan2(450, 450) == 45.0
    ensures CalculateCorrectAngle("bell", "tree", "drum", atan2) == Num(135.0)
  {
    PositionTable();
    var facingDir := Sub(Vec(80, 80), Vec(50, 50));
    var pointingVec := Sub(Vec(50, 65), Vec(50, 50));
    assert Cross(facingDir, pointingVec) == 450 && Dot(facingDir, pointingVec) == 450;
    assert CorrectAngleFromRaw(45.0) == 135.0;
  }

  /** Where each of the seven objects is found. */
  lemma PositionTable()
    ensures PositionOf("wheel") == Some(ObjectPosition("wheel", 50, 20))
    ensures PositionOf("traffic-light") == Some(ObjectPosition("traffic-light", 25, 35))
    ensures PositionOf("barrel") == Some(ObjectPosition("barrel", 75, 40))
    ensures PositionOf("trash-can") == Some(ObjectPosition("trash-can", 20, 65))
    ensures PositionOf("tree") == Some(ObjectPosition("tree", 80, 80))
    ensures PositionOf("drum") == Some(ObjectPosition("drum", 50, 65))
    ensures PositionOf("bell") == Some(ObjectPosition("bell", 50, 50))
  {
  }

  /** Each of the seven position ids is also an object id. */
  lemma ObjectTable()
    ensures FindObject(objects, "wheel").Some? && FindObject(objects, "traffic-light").Some?
    ensures FindObject(objects, "barrel").Some? && FindObject(objects, "trash-can").Some?
    ensures FindObject(objects, "tree").Some? && FindObject(objects, "drum").Some?
    ensures FindObject(objects, "bell").Some?
  {
  }

  /** The three ids are pairwise distinct, each has a position and an object, and
      the facing object does not stand where the standing object does. */
  ghost predicate TrialWellFormed(t: TrialSpec)
  {
    && t.standing != t.facing && t.standing != t.pointing && t.facing != t.pointing
    && PositionOf(t.standing).Some? && PositionOf(t.facing).Some? && PositionOf(t.pointing).Some?
    && FindObject(objects, t.standing).Some? && FindObject(objects, t.facing).Some?
    && FindObject(objects, t.pointing).Some?
    && At(PositionOf(t.standing).value) != At(PositionOf(t.facing).value)
  }

  /** No two positions share an id or a point of the scene. */
  lemma PositionsDistinct()
    ensures forall p, q :: p in objectPositions && q in objectPositions && p != q
                           ==> p.id != q.id && At(p) != At(q)
  {
  }

  /** Every test trial is well formed, and test trial k carries id k + 1. */
  lemma TestTrialsWellFormed()
    ensures forall k :: 0 <= k < |testTrials| ==> TrialWellFormed(testTrials[k])
    ensures forall k :: 0 <= k < |testTrials| ==> testTrials[k].id == Numbered(k + 1)
  {
    forall k | 0 <= k < |testTrials| ensures TrialWellFormed(testTrials[k]) {
      if k < 6 {
        FirstTestTrialsWellFormed(k);
      } else {
        LastTestTrialsWellFormed(k);
      }
    }
  }

  lemma FirstTestTrialsWellFormed(k: nat)
    requires k < 6
    ensures TrialWellFormed(testTrials[k])
  {
    PositionTable();
    ObjectTable();
  }

  lemma LastTestTrialsWellFormed(k: nat)
    requires 6 <= k < |testTrials|
    ensures TrialWellFormed(testTrials[k])
  {
    PositionTable();
    ObjectTable();
  }

  /** Every practice trial is well formed. */
  lemma PracticeTrialsWellFormed()
    ensures forall k :: 0 <= k < |practiceTrials| ==> TrialWellFormed(practiceTrials[k])
  {
    PositionTable();
    ObjectTable();
  }

  /** For catalog trials the facing length is never 0, so the correct angle is a
      number in [0, 360). */
  lemma CatalogAngleIsNumber(t: TrialSpec, atan2: (int, int) -> real)
    requires Atan2Range(atan2)
    requires t in testTrials || t in practiceTrials
    ensures CalculateCorrectAngle(t.standing, t.facing, t.pointing, atan2).Num?
  {
    TestTrialsWellFormed();
    PracticeTrialsWellFormed();
  }
}
