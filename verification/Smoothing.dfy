/** Geometric smoothing: repeated updates and scene steps close in on their target at an exact rate. */
module Smoothing {
  import opened Protocol
  import opened Stage

  function Pow(b: real, n: nat): real { if n == 0 then 1.0 else b * Pow(b, n - 1) }

  /** One coordinate after `n` interpolations toward `b`. */
  function Chase(a: real, b: real, t: real, n: nat): real {
    if n == 0 then a else Lerp(Chase(a, b, t, n - 1), b, t)
  }

  function ChaseVec(a: Vec3, b: Vec3, t: real, n: nat): Vec3 {
    Vec3(Chase(a.x, b.x, t, n), Chase(a.y, b.y, t, n), Chase(a.z, b.z, t, n))
  }

  function ChaseRot(a: Rot3, b: Rot3, t: real, n: nat): Rot3 {
    Rot3(Chase(a.pitch, b.pitch, t, n), Chase(a.yaw, b.yaw, t, n), Chase(a.roll, b.roll, t, n))
  }

  // ---- one coordinate --------------------------------------------------------------------------------------

  lemma LerpResidual(a: real, b: real, t: real)
    ensures b - Lerp(a, b, t) == (1.0 - t) * (b - a)
  {
    var d := b - a;
    assert (1.0 - t) * d == d - d * t;
  }

  /** Exactly (1 - t)^n of the way is left after `n` interpolations. */
  lemma {:induction false} ChaseResidual(a: real, b: real, t: real, n: nat)
    ensures b - Chase(a, b, t, n) == Pow(1.0 - t, n) * (b - a)
  {
    hide Lerp;
    if n > 0 {
      ChaseResidual(a, b, t, n - 1);
      LerpResidual(Chase(a, b, t, n - 1), b, t);
      Associates(1.0 - t, Pow(1.0 - t, n - 1), b - a);
    }
  }

  lemma Associates(x: real, y: real, z: real)
    ensures x * (y * z) == (x * y) * z
  {
  }

  lemma ShrunkProduct(a: real, b: real)
    requires 0.0 <= a <= 1.0 && 0.0 <= b
    ensures 0.0 <= a * b <= b
  {
    var c := 1.0 - a;
    assert c * b >= 0.0;
    assert c * b == b - a * b;
  }

  lemma {:induction false} PowBounds(b: real, n: nat)
    requires 0.0 <= b <= 1.0
    ensures 0.0 <= Pow(b, n) <= 1.0
  {
    if n > 0 {
      PowBounds(b, n - 1);
      ShrunkProduct(b, Pow(b, n - 1));
    }
  }

  /** A coordinate never moves away from its target. */
  lemma ChaseCloses(a: real, b: real, t: real, n: nat)
    requires 0.0 <= t <= 1.0
    ensures Sq(Chase(a, b, t, n) - b) <= Sq(a - b)
  {
    hide Chase;
    ChaseResidual(a, b, t, n);
    PowBounds(1.0 - t, n);
    ShrunkSquare(Pow(1.0 - t, n), b - a);
    SquareOfNegation(Chase(a, b, t, n) - b);
    SquareOfNegation(a - b);
  }

  lemma ShrunkSquare(f: real, x: real)
    requires 0.0 <= f <= 1.0
    ensures Sq(f * x) <= Sq(x)
  {
    ShrunkProduct(f, f);
    var y := x * x;
    assert y >= 0.0;
    assert Sq(f * x) == (f * f) * y;
    ShrunkProduct(f * f, y);
  }

  lemma ChaseVecCloses(a: Vec3, b: Vec3, t: real, n: nat)
    requires 0.0 <= t <= 1.0
    ensures DistanceSq(ChaseVec(a, b, t, n), b) <= DistanceSq(a, b)
  {
    hide Chase, Sq;
    ChaseCloses(a.x, b.x, t, n);
    ChaseCloses(a.y, b.y, t, n);
    ChaseCloses(a.z, b.z, t, n);
  }

  // ---- poses -----------------------------------------------------------------------------------------------

  /** `left` is `f` times the way from `a` to `b`, in every component. */
  ghost predicate LeavesOf(p: Vec3, a: Vec3, b: Vec3, f: real) {
    b.x - p.x == f * (b.x - a.x) && b.y - p.y == f * (b.y - a.y) && b.z - p.z == f * (b.z - a.z)
  }

  ghost predicate LeavesOfTurn(p: Rot3, a: Rot3, b: Rot3, f: real) {
    b.pitch - p.pitch == f * (b.pitch - a.pitch) && b.yaw - p.yaw == f * (b.yaw - a.yaw)
        && b.roll - p.roll == f * (b.roll - a.roll)
  }

  lemma ChaseLeaves(a: Vec3, b: Vec3, c: Rot3, d: Rot3, t: real, n: nat)
    ensures LeavesOf(ChaseVec(a, b, t, n), a, b, Pow(1.0 - t, n))
    ensures LeavesOfTurn(ChaseRot(c, d, t, n), c, d, Pow(1.0 - t, n))
  {
    hide Chase, Pow;
    ChaseResidual(a.x, b.x, t, n);
    ChaseResidual(a.y, b.y, t, n);
    ChaseResidual(a.z, b.z, t, n);
    ChaseResidual(c.pitch, d.pitch, t, n);
    ChaseResidual(c.yaw, d.yaw, t, n);
    ChaseResidual(c.roll, d.roll, t, n);
  }

  // ---- the update policy -------------------------------------------------------------------------------------

  /** The pose after `n` updates toward the same target. */
  function Pursuit(p: Policy, at: Vec3, turn: Rot3, u: UpdateSpec, n: nat): UpdateSpec {
    if n == 0 then u.(position := at, rotation := turn)
    else
      var before := Pursuit(p, at, turn, u, n - 1);
      Smoothed(p, before.position, before.rotation, u)
  }

  ghost predicate Gentle(p: Policy) {
    p.enabled && 0.0 <= p.positionAlpha <= 1.0 && 0.0 <= p.rotationAlpha <= 1.0
  }

  lemma {:induction false} PursuitIsChase(p: Policy, at: Vec3, turn: Rot3, u: UpdateSpec, n: nat)
    requires Gentle(p) && !Teleports(p, at, u.position)
    ensures Pursuit(p, at, turn, u, n)
            == u.(position := ChaseVec(at, u.position, p.positionAlpha, n),
                rotation := ChaseRot(turn, u.rotation, p.rotationAlpha, n))
    ensures !Teleports(p, Pursuit(p, at, turn, u, n).position, u.position)
  {
    hide Lerp, DistanceSq;
    ChaseVecCloses(at, u.position, p.positionAlpha, n);
    if n > 0 {
      PursuitIsChase(p, at, turn, u, n - 1);
    }
  }

  /** After `n` updates toward a fixed target within teleport range, exactly (1 - alpha)^n of the way is left in every
      component, the factor stays in [0, 1] so nothing overshoots, and no update counts as a teleport. */
  lemma PursuitIsGeometric(p: Policy, at: Vec3, turn: Rot3, u: UpdateSpec, n: nat)
    requires Gentle(p) && !Teleports(p, at, u.position)
    ensures var pose := Pursuit(p, at, turn, u, n);
            var f, g := Pow(1.0 - p.positionAlpha, n), Pow(1.0 - p.rotationAlpha, n);
            && LeavesOf(pose.position, at, u.position, f) && LeavesOfTurn(pose.rotation, turn, u.rotation, g)
            && 0.0 <= f <= 1.0 && 0.0 <= g <= 1.0
            && !Teleports(p, pose.position, u.position)
  {
    hide Pursuit, Teleports, Pow, ChaseVec, ChaseRot, LeavesOf, LeavesOfTurn;
    PursuitIsChase(p, at, turn, u, n);
    ChaseLeaves(at, u.position, turn, u.rotation, p.positionAlpha, n);
    ChaseLeaves(at, u.position, turn, u.rotation, p.rotationAlpha, n);
    PowBounds(1.0 - p.positionAlpha, n);
    PowBounds(1.0 - p.rotationAlpha, n);
  }

  // ---- the scene -----------------------------------------------------------------------------------------------

  /** A scene slot after `n` interpolation steps without a new target. */
  function Stepped(s: Scene, interp: Interpolation, n: nat): Scene {
    if n == 0 then s else Advanced(Stepped(s, interp, n - 1), interp)
  }

  lemma {:induction false} SteppedIsChase(s: Scene, interp: Interpolation, n: nat)
    ensures var t := Stepped(s, interp, n);
            && t.targetAt == s.targetAt && t.targetTurn == s.targetTurn
            && t.presentedAt == ChaseVec(s.presentedAt, s.targetAt, interp.positionAlpha, n)
            && t.presentedTurn == ChaseRot(s.presentedTurn, s.targetTurn, interp.rotationAlpha, n)
  {
    hide Lerp;
    if n > 0 {
      SteppedIsChase(s, interp, n - 1);
    }
  }

  /** The presented pose closes in on the target at the same exact rate; its position is reached only where nothing was
      left or the alpha is one. */
  lemma StepsAreGeometric(s: Scene, interp: Interpolation, n: nat)
    requires 0.0 <= interp.positionAlpha <= 1.0 && 0.0 <= interp.rotationAlpha <= 1.0
    ensures var t := Stepped(s, interp, n);
            var f, g := Pow(1.0 - interp.positionAlpha, n), Pow(1.0 - interp.rotationAlpha, n);
            && t.targetAt == s.targetAt && t.targetTurn == s.targetTurn
            && LeavesOf(t.presentedAt, s.presentedAt, s.targetAt, f)
            && LeavesOfTurn(t.presentedTurn, s.presentedTurn, s.targetTurn, g)
            && 0.0 <= f <= 1.0 && 0.0 <= g <= 1.0
            && (interp.positionAlpha < 1.0 && s.presentedAt != s.targetAt ==> t.presentedAt != s.targetAt)
  {
    hide Stepped, ChaseVec, ChaseRot, Pow;
    SteppedIsChase(s, interp, n);
    ChaseLeaves(s.presentedAt, s.targetAt, s.presentedTurn, s.targetTurn, interp.positionAlpha, n);
    ChaseLeaves(s.presentedAt, s.targetAt, s.presentedTurn, s.targetTurn, interp.rotationAlpha, n);
    PowBounds(1.0 - interp.positionAlpha, n);
    PowBounds(1.0 - interp.rotationAlpha, n);
    if interp.positionAlpha < 1.0 {
      PowPositive(1.0 - interp.positionAlpha, n);
      NotThereYet(Stepped(s, interp, n).presentedAt, s.presentedAt, s.targetAt, Pow(1.0 - interp.positionAlpha, n));
    }
  }

  lemma {:induction false} PowPositive(b: real, n: nat)
    requires 0.0 < b
    ensures 0.0 < Pow(b, n)
  {
    if n > 0 { PowPositive(b, n - 1); }
  }

  lemma NotThereYet(p: Vec3, a: Vec3, b: Vec3, f: real)
    requires LeavesOf(p, a, b, f) && 0.0 < f
    ensures a != b ==> p != b
  {
    NoZeroDivisor(f, b.x - a.x);
    NoZeroDivisor(f, b.y - a.y);
    NoZeroDivisor(f, b.z - a.z);
  }

  lemma NoZeroDivisor(f: real, x: real)
    requires f > 0.0
    ensures f * x == 0.0 ==> x == 0.0
  {
    if x > 0.0 { assert f * x > 0.0; }
    if x < 0.0 { assert f * (-x) > 0.0; }
  }
}
