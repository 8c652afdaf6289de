/** Cone targeting: which actor a fire intent hits. */
module Combat {
  import opened Slots
  import opened Protocol

  /** The square root used by the geometry code, known only to be positive on positive numbers. */
  type Root = f: real -> real | forall x: real :: x > 0.0 ==> f(x) > 0.0
    witness (x: real) => 1.0

  const MAX_RANGE := 4096.0
  const MIN_DOT := 0.35
  const NO_TARGET_SCORE := -1000.0

  datatype Actor = Actor(
    inUse: bool, id: nat, baseForm: nat, state: ActorState, kind: nat, spawnFlags: nat, pendingDespawn: bool)

  const NO_ACTOR := Actor(false, 0, 0, ActorState(0, ORIGIN, NO_TURN, 0, 0, {}, 0), 0, 0, false)

  function LengthSq(v: Vec3): real { Sq(v.x) + Sq(v.y) + Sq(v.z) }

  function Dot(a: Vec3, b: Vec3): real { a.x * b.x + a.y * b.y + a.z * b.z }

  /** `cg_normalize`; a vector that is too short is left alone. */
  function Normalize(root: Root, v: Vec3): Vec3 {
    if LengthSq(v) < 0.0001 then v
    else
      var inv := 1.0 / root(LengthSq(v));
      Vec3(v.x * inv, v.y * inv, v.z * inv)
  }

  function Shrunk(v: Vec3, d: real): Vec3
    requires d != 0.0
  {
    Vec3(v.x / d, v.y / d, v.z / d)
  }

  /** `cg_target_within_cone` with the default configuration: the score of a target in the cone. */
  function ConeScore(root: Root, origin: Vec3, dir: Vec3, target: Vec3): Option<real> {
    var to := Vec3(target.x - origin.x, target.y - origin.y, target.z - origin.z);
    if LengthSq(to) < 0.0001 then None
    else
      var dist := root(LengthSq(to));
      if dist > MAX_RANGE then None
      else
        var dot := Dot(dir, Shrunk(to, dist));
        if dot < MIN_DOT then None else Some(dot - dist / MAX_RANGE)
  }

  /** Only live hostile actors can be shot. */
  predicate Shootable(a: Actor) {
    a.inUse && Dead !in a.state.flags && Hostile in a.state.flags
  }

  function ScoreOf(root: Root, origin: Vec3, dir: Vec3, a: Actor): Option<real> {
    if Shootable(a) then ConeScore(root, origin, dir, a.state.position) else None
  }

  /** The cone score of every slot. */
  function Scores(root: Root, origin: Vec3, dir: Vec3, actors: seq<Actor>): (r: seq<Option<real>>)
    ensures |r| == |actors|
  {
    seq(|actors|, i requires 0 <= i < |actors| => ScoreOf(root, origin, dir, actors[i]))
  }

  /** The slot the scan has settled on after looking at all of `scores`, with its score. */
  function Scan(scores: seq<Option<real>>): (r: Option<(nat, real)>) {
    if scores == [] then None
    else
      var n := |scores| - 1;
      var best := Scan(scores[..n]);
      if scores[n].Some? && (best.None? || scores[n].value > best.value.1) then Some((n, scores[n].value)) else best
  }

  /** The victim of a shot; the guard on the score is the code's. */
  function Target(root: Root, origin: Vec3, dir: Vec3, actors: seq<Actor>): Option<nat> {
    var best := Scan(Scores(root, origin, dir, actors));
    if best.None? || best.value.1 <= NO_TARGET_SCORE then None else Some(best.value.0)
  }

  /** `t` is the first slot whose score no other slot beats. */
  ghost predicate FirstBest(scores: seq<Option<real>>, t: nat) {
    && t < |scores|
    && scores[t].Some?
    && (forall j :: 0 <= j < t && scores[j].Some? ==> scores[j].value < scores[t].value)
    && (forall j :: t <= j < |scores| && scores[j].Some? ==> scores[j].value <= scores[t].value)
  }

  /** Every score in the cone clears the guard by far. */
  lemma ConeScoreBound(root: Root, origin: Vec3, dir: Vec3, target: Vec3)
    requires ConeScore(root, origin, dir, target).Some?
    ensures ConeScore(root, origin, dir, target).value >= MIN_DOT - 1.0 > NO_TARGET_SCORE
  {
    hide LengthSq, Dot, Shrunk;
    var to := Vec3(target.x - origin.x, target.y - origin.y, target.z - origin.z);
    WithinRange(root(LengthSq(to)));
  }

  lemma WithinRange(dist: real)
    requires dist <= MAX_RANGE
    ensures dist / MAX_RANGE <= 1.0
  {
  }

  lemma {:induction false} ScanIsFirstBest(scores: seq<Option<real>>)
    ensures var r := Scan(scores);
            if r.None? then forall j :: 0 <= j < |scores| ==> scores[j].None?
            else FirstBest(scores, r.value.0) && scores[r.value.0] == Some(r.value.1)
  {
    if scores != [] {
      ScanIsFirstBest(scores[..|scores| - 1]);
    }
  }

  /** A shot hits exactly when some live hostile is in the cone, and then it hits the first best one:
      the -1000 guard never suppresses a hit. */
  lemma TargetIsFirstBest(root: Root, origin: Vec3, dir: Vec3, actors: seq<Actor>)
    ensures var t := Target(root, origin, dir, actors);
            if t.Some? then FirstBest(Scores(root, origin, dir, actors), t.value) && Shootable(actors[t.value])
            else forall j :: 0 <= j < |actors| ==> ScoreOf(root, origin, dir, actors[j]).None?
  {
    var scores := Scores(root, origin, dir, actors);
    ScanIsFirstBest(scores);
    var best := Scan(scores);
    if best.Some? {
      var a := actors[best.value.0];
      assert scores[best.value.0] == ScoreOf(root, origin, dir, a);
      ConeScoreBound(root, origin, dir, a.state.position);
    } else {
      forall j | 0 <= j < |actors| ensures ScoreOf(root, origin, dir, actors[j]).None? {
        assert scores[j].None?;
      }
    }
  }

  /** The scan of `ac_handle_fire_intent`. */
  method FindTarget(root: Root, origin: Vec3, dir: Vec3, actors: seq<Actor>) returns (t: Option<nat>)
    ensures t == Target(root, origin, dir, actors)
  {
    ghost var scores := Scores(root, origin, dir, actors);
    var best: Option<(nat, real)> := None;
    var i := 0;
    while i < |actors|
      invariant i <= |actors|
      invariant best == Scan(scores[..i])
    {
      var score := ScoreOf(root, origin, dir, actors[i]);
      assert score == scores[i] && scores[..i + 1][..i] == scores[..i];
      if score.Some? && (best.None? || score.value > best.value.1) {
        best := Some((i, score.value));
      }
      i := i + 1;
    }
    assert scores[..i] == scores;
    t := if best.None? || best.value.1 <= NO_TARGET_SCORE then None else Some(best.value.0);
  }
}
