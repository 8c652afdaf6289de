/** What a shot hits, in the geometry of the scene: range, cone, and the nearer of two targets in line. */
module Ballistics {
  import opened Slots
  import opened Protocol
  import opened Combat
  import opened Session
  import opened Seating

  /** The square root is exact. */
  ghost predicate Exact(root: Root) {
    forall x: real :: x >= 0.0 ==> root(x) >= 0.0 && Sq(root(x)) == x
  }

  function To(origin: Vec3, target: Vec3): Vec3 {
    Vec3(target.x - origin.x, target.y - origin.y, target.z - origin.z)
  }

  function Scaled(v: Vec3, k: real): Vec3 { Vec3(v.x * k, v.y * k, v.z * k) }

  // ---- real arithmetic -------------------------------------------------------------------------------------------

  lemma DividesOut(a: real, x: real, d: real)
    requires d != 0.0
    ensures a * (x / d) == (a * x) / d
  {
  }

  lemma SumOverD(x: real, y: real, z: real, d: real)
    requires d != 0.0
    ensures x / d + y / d + z / d == (x + y + z) / d
  {
  }

  lemma DotShrunk(dir: Vec3, v: Vec3, d: real)
    requires d != 0.0
    ensures Dot(dir, Shrunk(v, d)) == Dot(dir, v) / d
  {
    DividesOut(dir.x, v.x, d);
    DividesOut(dir.y, v.y, d);
    DividesOut(dir.z, v.z, d);
    SumOverD(dir.x * v.x, dir.y * v.y, dir.z * v.z, d);
  }

  lemma DividedBy(x: real, d: real)
    requires d != 0.0
    ensures (x / d) * d == x
  {
  }

  lemma TimesPositive(x: real, y: real, d: real)
    requires d > 0.0
    ensures x <= y <==> x * d <= y * d
    ensures x < y <==> x * d < y * d
  {
    if x < y { Positive(y - x, d); }
    if y < x { Positive(x - y, d); }
  }

  lemma Positive(x: real, y: real)
    requires x > 0.0 && y > 0.0
    ensures x * y > 0.0
  {
  }

  lemma SquaresOrder(x: real, y: real)
    requires x >= 0.0 && y >= 0.0
    ensures Sq(x) <= Sq(y) <==> x <= y
    ensures Sq(x) == Sq(y) ==> x == y
  {
    if x < y { Positive(y - x, y + x); }
    if y < x { Positive(x - y, x + y); }
    assert Sq(y) - Sq(x) == (y - x) * (y + x) && Sq(x) - Sq(y) == (x - y) * (x + y);
  }

  lemma SquareOfProduct(x: real, k: real)
    ensures Sq(x * k) == Sq(x) * Sq(k)
  {
    assert (x * k) * (x * k) == (x * x) * (k * k);
  }

  lemma SumTimes(x: real, y: real, z: real, k: real)
    ensures x * k + y * k + z * k == (x + y + z) * k
  {
  }

  lemma LengthScales(v: Vec3, k: real)
    ensures LengthSq(Scaled(v, k)) == LengthSq(v) * Sq(k)
  {
    SquareOfProduct(v.x, k);
    SquareOfProduct(v.y, k);
    SquareOfProduct(v.z, k);
    SumTimes(Sq(v.x), Sq(v.y), Sq(v.z), Sq(k));
  }

  lemma TimesOut(a: real, x: real, k: real)
    ensures a * (x * k) == (a * x) * k
  {
  }

  lemma DotScales(dir: Vec3, v: Vec3, k: real)
    ensures Dot(dir, Scaled(v, k)) == Dot(dir, v) * k
  {
    TimesOut(dir.x, v.x, k);
    TimesOut(dir.y, v.y, k);
    TimesOut(dir.z, v.z, k);
    SumTimes(dir.x * v.x, dir.y * v.y, dir.z * v.z, k);
  }

  // ---- the cone ----------------------------------------------------------------------------------------------------

  /** A target at distance `d`, with `l` its square and `x` its advance along the direction, is not at the muzzle, not
      beyond 4096 units and not outside the cone. */
  predicate InTheCone(l: real, x: real, d: real) { 0.0001 <= l <= Sq(4096.0) && d > 0.0 && x >= 0.35 * d }

  /** The cosine of the angle, less the distance as a fraction of the range. */
  function Mark(x: real, d: real): real
    requires d > 0.0
  {
    x / d - d / 4096.0
  }

  /** Exactly the targets in the cone have a score, and that is it. */
  lemma ScoreIff(root: Root, origin: Vec3, dir: Vec3, target: Vec3)
    requires Exact(root)
    ensures var v := To(origin, target);
            var d, score := root(LengthSq(v)), ConeScore(root, origin, dir, target);
            && (score.Some? <==> InTheCone(LengthSq(v), Dot(dir, v), d))
            && (score.Some? ==> score.value == Mark(Dot(dir, v), d))
  {
    hide LengthSq, Dot, Shrunk, Sq;
    var v := To(origin, target);
    if LengthSq(v) >= 0.0001 {
      var d := root(LengthSq(v));
      DotShrunk(dir, v, d);
      CosineTest(Dot(dir, v), d);
      SquaresOrder(d, 4096.0);
    }
  }

  lemma CosineTest(x: real, d: real)
    requires d > 0.0
    ensures x / d >= 0.35 <==> x >= 0.35 * d
  {
    DividedBy(x, d);
    TimesPositive(0.35, x / d, d);
  }

  lemma RootOf(root: Root, x: real)
    requires Exact(root) && x > 0.0
    ensures root(x) > 0.0 && Sq(root(x)) == x
  {
  }

  lemma RootScales(root: Root, v: Vec3, k: real)
    requires Exact(root) && k > 0.0 && LengthSq(v) >= 0.0001
    ensures root(LengthSq(Scaled(v, k))) == root(LengthSq(v)) * k && root(LengthSq(v)) > 0.0
  {
    hide LengthSq, Sq, Exact, Scaled;
    LengthScales(v, k);
    ProductPositive(LengthSq(v), k);
    var d := root(LengthSq(v));
    RootOf(root, LengthSq(v));
    RootOf(root, LengthSq(Scaled(v, k)));
    SquareOfProduct(d, k);
    ProductPositive(d, k);
    SquaresOrder(root(LengthSq(Scaled(v, k))), d * k);
  }

  lemma ProductPositive(x: real, k: real)
    requires x > 0.0 && k > 0.0
    ensures x * k > 0.0 && x * Sq(k) > 0.0 && Sq(k) > 0.0
  {
    Positive(x, k);
    SquarePositive(k);
    Positive(x, Sq(k));
  }

  lemma SquarePositive(k: real)
    requires k > 0.0
    ensures Sq(k) > 0.0
  {
    SquaresOrder(0.0, k);
    assert Sq(0.0) == 0.0;
  }

  lemma SameCosine(x: real, d: real, k: real)
    requires d > 0.0 && k > 0.0
    ensures (x * k) / (d * k) == x / d
  {
    var q := x / d;
    Positive(d, k);
    DividedBy(x, d);
    assert q * (d * k) == (q * d) * k == x * k;
    DividedBy(x * k, d * k);
    SameQuotient(q, (x * k) / (d * k), d * k);
  }

  lemma SameQuotient(p: real, q: real, d: real)
    requires d > 0.0 && p * d == q * d
    ensures p == q
  {
    TimesPositive(p, q, d);
    TimesPositive(q, p, d);
  }

  /** Of two targets on one ray, the nearer one is in the cone if the farther one is, and scores better. */
  lemma NearerScoresBetter(root: Root, origin: Vec3, dir: Vec3, near: Vec3, far: Vec3, k: real)
    requires Exact(root) && k > 1.0 && To(origin, far) == Scaled(To(origin, near), k)
    requires LengthSq(To(origin, near)) >= 0.0001 && ConeScore(root, origin, dir, far).Some?
    ensures var a, b := ConeScore(root, origin, dir, near), ConeScore(root, origin, dir, far);
            a.Some? && a.value > b.value
  {
    hide ConeScore, LengthSq, Dot, Sq, Exact, Scaled, InTheCone, Mark;
    var v := To(origin, near);
    ScoreIff(root, origin, dir, near);
    ScoreIff(root, origin, dir, far);
    RootScales(root, v, k);
    DotScales(dir, v, k);
    LengthScales(v, k);
    var w := To(origin, far);
    NearerOnRay(LengthSq(v), Dot(dir, v), root(LengthSq(v)), k, LengthSq(w), Dot(dir, w), root(LengthSq(w)));
  }

  lemma NearerOnRay(l: real, x: real, d: real, k: real, l2: real, x2: real, d2: real)
    requires l >= 0.0001 && d > 0.0 && k > 1.0 && l2 == l * Sq(k) && x2 == x * k && d2 == d * k
    requires InTheCone(l2, x2, d2)
    ensures d2 > 0.0 && InTheCone(l, x, d) && Mark(x, d) > Mark(x2, d2)
  {
    hide Sq, Mark;
    Positive(d, k);
    InRange(l, k);
    InCone(x, d, k);
    BetterMark(x, d, k);
  }

  lemma BetterMark(x: real, d: real, k: real)
    requires d > 0.0 && k > 1.0 && d * k > 0.0
    ensures Mark(x, d) > Mark(x * k, d * k)
  {
    Positive(d, k);
    SameCosine(x, d, k);
    Positive(k - 1.0, d);
    assert d * k == d + (k - 1.0) * d;
  }

  lemma InCone(x: real, d: real, k: real)
    requires k > 0.0 && x * k >= 0.35 * (d * k)
    ensures x >= 0.35 * d
  {
    assert 0.35 * (d * k) == (0.35 * d) * k;
    TimesPositive(0.35 * d, x, k);
  }

  lemma InRange(l: real, k: real)
    requires l >= 0.0 && k > 1.0
    ensures l <= l * Sq(k)
  {
    SquaresOrder(1.0, k);
    var more := Sq(k) - 1.0;
    assert l * more >= 0.0;
    assert l * Sq(k) == l + l * more;
  }

  // ---- the target ----------------------------------------------------------------------------------------------

  /** Whatever is hit is a live hostile within range and cone. */
  lemma HitIsInCone(root: Root, origin: Vec3, dir: Vec3, actors: seq<Actor>)
    requires Exact(root) && Target(root, origin, dir, actors).Some?
    ensures var t := Target(root, origin, dir, actors).value;
            && t < |actors| && actors[t].inUse && Hostile in actors[t].state.flags && Dead !in actors[t].state.flags
            && var v := To(origin, actors[t].state.position);
               InTheCone(LengthSq(v), Dot(dir, v), root(LengthSq(v)))
  {
    hide ConeScore, Scan, LengthSq, Dot, Exact;
    TargetIsFirstBest(root, origin, dir, actors);
    var t := Target(root, origin, dir, actors).value;
    assert Scores(root, origin, dir, actors)[t] == ScoreOf(root, origin, dir, actors[t]);
    ScoreIff(root, origin, dir, actors[t].state.position);
  }

  /** A live hostile within range and cone is not missed: something is hit. */
  lemma ConeIsHit(root: Root, origin: Vec3, dir: Vec3, actors: seq<Actor>, j: nat)
    requires Exact(root) && j < |actors|
    requires actors[j].inUse && Hostile in actors[j].state.flags && Dead !in actors[j].state.flags
    requires var v := To(origin, actors[j].state.position); InTheCone(LengthSq(v), Dot(dir, v), root(LengthSq(v)))
    ensures Target(root, origin, dir, actors).Some?
  {
    hide ConeScore, Scan, LengthSq, Dot, Exact, InTheCone;
    TargetIsFirstBest(root, origin, dir, actors);
    ScoreIff(root, origin, dir, actors[j].state.position);
  }

  /** A target is never hit through a live hostile that stands between it and the muzzle. */
  lemma NearerIsHitFirst(root: Root, origin: Vec3, dir: Vec3, actors: seq<Actor>, near: nat, far: nat, k: real)
    requires Exact(root) && near < |actors| && far < |actors| && Shootable(actors[near]) && Shootable(actors[far])
    requires var v := To(origin, actors[near].state.position);
             k > 1.0 && LengthSq(v) >= 0.0001 && To(origin, actors[far].state.position) == Scaled(v, k)
    ensures Target(root, origin, dir, actors) != Some(far)
  {
    hide ConeScore, Scan, LengthSq, Dot, Exact, Scaled;
    TargetIsFirstBest(root, origin, dir, actors);
    var scores := Scores(root, origin, dir, actors);
    assert scores[near] == ScoreOf(root, origin, dir, actors[near]);
    assert scores[far] == ScoreOf(root, origin, dir, actors[far]);
    if scores[far].Some? {
      NearerScoresBetter(root, origin, dir, actors[near].state.position, actors[far].state.position, k);
    }
  }

  // ---- the intent ----------------------------------------------------------------------------------------------

  /** The direction of a shot is the requested one, brought to length one. */
  lemma NormalizedIsUnit(root: Root, v: Vec3)
    requires Exact(root) && LengthSq(v) >= 0.0001
    ensures var unit, d := Normalize(root, v), root(LengthSq(v));
            d > 0.0 && Scaled(unit, d) == v && LengthSq(unit) == 1.0
  {
    hide LengthSq, Sq, Exact;
    var d, unit := root(LengthSq(v)), Normalize(root, v);
    RootOf(root, LengthSq(v));
    Inverse(v.x, d);
    Inverse(v.y, d);
    Inverse(v.z, d);
    assert Scaled(unit, d) == v;
    LengthScales(unit, d);
    OnlyOne(LengthSq(unit), LengthSq(v));
  }

  lemma Inverse(x: real, d: real)
    requires d > 0.0
    ensures (x * (1.0 / d)) * d == x
  {
    DividedBy(1.0, d);
    assert (x * (1.0 / d)) * d == x * ((1.0 / d) * d);
  }

  lemma OnlyOne(x: real, y: real)
    requires y > 0.0 && x * y == y
    ensures x == 1.0
  {
    SameQuotient(x, 1.0, y);
  }

  /** Where line of sight is asked for: 1024 units along the direction. */
  function Muzzle(origin: Vec3, unit: Vec3): Vec3 {
    Vec3(origin.x + 1024.0 * unit.x, origin.y + 1024.0 * unit.y, origin.z + 1024.0 * unit.z)
  }

  /** The host rules combat, the sender fires in its own name with a weapon, from within the bubble, in a proper
      direction, and the line of sight is free. */
  ghost predicate MayFire(env: Env, s: Session, e: Envelope)
    requires e.request.Fire?
  {
    var req, i := e.request, FindConnection(s.players, e.conn);
    && i < |s.players| && s.players[i].id == req.player && 1 <= req.player <= |s.players|
    && HostAuthCombat in s.rules && req.weapon != 0
    && LengthSq(To(s.bubbleCenter, s.players[req.player - 1].state.position)) <= Sq(s.bubbleRadius)
    && LengthSq(req.direction) >= 0.0001
    && env.los(req.origin, Muzzle(req.origin, Normalize(env.root, req.direction)))
  }

  /** Exactly these fire intents are accepted. */
  lemma FireAcceptedIff(env: Env, s: Session, e: Envelope)
    requires SeatingOk(s) && e.request.Fire?
    ensures Handle(env, s, e).accepted <==> MayFire(env, s, e)
  {
    hide First, Broadcast, Target, RegistryOk, Normalize, Wound;
    var req, i := e.request, FindConnection(s.players, e.conn);
    if i < |s.players| && s.players[i].id == req.player {
      PlayerSlot(s.players, s.tick, req.player);
      HeardSame(s, req.player);
    }
  }

  lemma HeardSame(s: Session, id: nat)
    requires SeatingOk(s) && 1 <= id < MAX_PLAYERS && FindPlayer(s.players, id) == id - 1
    ensures var h := Heard(s, id);
            && h == s.(players := h.players) && |h.players| == |s.players| && FindPlayer(h.players, id) == id - 1
            && h.players[id - 1].state == s.players[id - 1].state
  {
    hide First, RegistryOk;
    HeardKeepsSeats(s, id);
    PlayerSlot(Heard(s, id).players, s.tick, id);
  }
}
