/** The movement emitter: change detection, throttle and forced resend (`movement_sync_bridge.c`). */
module Movement {
  import opened Slots
  import opened Protocol

  datatype Observed = Observed(
    playerId: nat, position: Vec3, rotation: Rot3, velocity: Vec3, stance: nat, animState: nat, equipped: nat)

  /** `throttle` is the minimum send interval and `resend` the forced resend period, both in observed ticks. */
  datatype Config = Config(positionEps: real, rotationEps: real, sendVelocity: bool, resend: nat, throttle: nat)

  datatype Emitter = Emitter(last: Option<Observed>, quiet: nat, sequence: nat, tick: nat, lastEmit: nat)

  const IDLE := Emitter(None, 0, 0, 0, 0)

  function Abs(x: real): real { if x < 0.0 then -x else x }

  /** The two states are within both tolerances and equal in stance, animation and equipment. */
  predicate Close(cfg: Config, a: Observed, b: Observed) {
    && DistanceSq(a.position, b.position) <= cfg.positionEps * cfg.positionEps
    && Abs(a.rotation.yaw - b.rotation.yaw) <= cfg.rotationEps
    && Abs(a.rotation.pitch - b.rotation.pitch) <= cfg.rotationEps
    && Abs(a.rotation.roll - b.rotation.roll) <= cfg.rotationEps
    && a.stance == b.stance && a.animState == b.animState && a.equipped == b.equipped
  }

  /** Ticks since the last emission, counting the one being observed. */
  function Gap(e: Emitter): int { e.tick + 1 - e.lastEmit }

  /** Whether the capture `cur` is sent. */
  predicate Sends(cfg: Config, e: Emitter, cur: Observed) {
    match e.last
    case None => true
    case Some(last) =>
      if Close(cfg, cur, last) then cfg.resend != 0 && e.quiet + 1 >= cfg.resend
      else !(cfg.throttle > 0 && e.lastEmit != 0 && Gap(e) < cfg.throttle)
  }

  function Packed(cfg: Config, cur: Observed, sequence: nat, tick: nat): PlayerState {
    PlayerState(cur.playerId, cur.position, cur.rotation, if cfg.sendVelocity then cur.velocity else ORIGIN,
                cur.stance, cur.animState, cur.equipped, sequence, tick)
  }

  /** The emitter after one successful capture. */
  function Observe(cfg: Config, e: Emitter, cur: Observed): Emitter {
    if Sends(cfg, e, cur) then Emitter(Some(cur), 0, e.sequence + 1, e.tick + 1, e.tick + 1)
    else e.(tick := e.tick + 1,
            quiet := if cfg.resend != 0 && Close(cfg, cur, e.last.value) then e.quiet + 1 else e.quiet)
  }

  function Emission(cfg: Config, e: Emitter, cur: Observed): Option<PlayerState> {
    if Sends(cfg, e, cur) then Some(Packed(cfg, cur, e.sequence + 1, e.tick + 1)) else None
  }

  /** The emitter after a sequence of captures. */
  function Run(cfg: Config, caps: seq<Observed>): Emitter {
    if caps == [] then IDLE else Observe(cfg, Run(cfg, caps[..|caps| - 1]), caps[|caps| - 1])
  }

  /** The messages emitted over a sequence of captures, in order. */
  function Emitted(cfg: Config, caps: seq<Observed>): seq<PlayerState> {
    if caps == [] then []
    else
      var before := caps[..|caps| - 1];
      var m := Emission(cfg, Run(cfg, before), caps[|caps| - 1]);
      Emitted(cfg, before) + (if m.Some? then [m.value] else [])
  }

  /** Consecutive sequence numbers from one, strictly increasing positive ticks. */
  ghost predicate Numbered(msgs: seq<PlayerState>) {
    && (forall k :: 0 <= k < |msgs| ==> msgs[k].stateSequence == k + 1 && msgs[k].observedTick >= 1)
    && (forall j, k :: 0 <= j < k < |msgs| ==> msgs[j].observedTick < msgs[k].observedTick)
  }

  /** The throttle that is in force: a throttle of zero and one behave alike. */
  function Throttle(cfg: Config): nat { if cfg.throttle == 0 then 1 else cfg.throttle }

  function Min(a: int, b: int): int { if a < b then a else b }

  /** What holds after every capture. */
  ghost predicate EmitterOk(cfg: Config, caps: seq<Observed>) {
    var e := Run(cfg, caps);
    var msgs := Emitted(cfg, caps);
    && e.tick == |caps| && e.sequence == |msgs|
    && (caps == [] <==> e.last.None?) && (e.last.None? ==> e == IDLE)
    && (caps != [] ==>
          && msgs != [] && msgs[|msgs| - 1].observedTick == e.lastEmit
          && 1 <= e.lastEmit <= e.tick && e.last == Some(caps[e.lastEmit - 1])
          && e.quiet <= e.tick - e.lastEmit
          && (cfg.resend != 0 ==> e.quiet < cfg.resend)
          && (e.tick - e.lastEmit >= Throttle(cfg) ==> Close(cfg, caps[|caps| - 1], e.last.value))
          && (cfg.resend != 0 ==> e.tick - e.lastEmit <= Throttle(cfg) - 1 + e.quiet))
  }

  lemma {:induction false} RunIsOk(cfg: Config, caps: seq<Observed>)
    ensures EmitterOk(cfg, caps)
  {
    hide Close;
    if caps != [] {
      RunIsOk(cfg, caps[..|caps| - 1]);
    }
  }

  lemma {:induction false} EmittedIsNumbered(cfg: Config, caps: seq<Observed>)
    ensures Numbered(Emitted(cfg, caps))
    ensures forall k :: 0 <= k < |Emitted(cfg, caps)| ==> Emitted(cfg, caps)[k].observedTick <= |caps|
  {
    hide Close;
    if caps != [] {
      var before := caps[..|caps| - 1];
      EmittedIsNumbered(cfg, before);
      RunIsOk(cfg, before);
    }
  }

  /** A message carries the state captured in its tick, field by field; only the velocity may be left out. */
  lemma {:induction false} EmittedIsFaithful(cfg: Config, caps: seq<Observed>, k: nat)
    requires k < |Emitted(cfg, caps)|
    ensures var m := Emitted(cfg, caps)[k];
            && m.stateSequence == k + 1 && 1 <= m.observedTick <= |caps|
            && var seen := caps[m.observedTick - 1];
               && m.playerId == seen.playerId && m.position == seen.position && m.rotation == seen.rotation
               && m.stance == seen.stance && m.animState == seen.animState && m.equipped == seen.equipped
               && (cfg.sendVelocity ==> m.velocity == seen.velocity) && (!cfg.sendVelocity ==> m.velocity == ORIGIN)
  {
    hide Close;
    var before := caps[..|caps| - 1];
    RunIsOk(cfg, before);
    if k < |Emitted(cfg, before)| {
      EmittedIsFaithful(cfg, before, k);
    }
  }

  /** The distance between consecutive emissions lies between the smaller of throttle and resend period
      and one less than their sum. */
  lemma {:induction false} GapsAreBounded(cfg: Config, caps: seq<Observed>, k: nat)
    requires cfg.resend >= 1 && k + 1 < |Emitted(cfg, caps)|
    ensures var gap := Emitted(cfg, caps)[k + 1].observedTick - Emitted(cfg, caps)[k].observedTick;
            Min(Throttle(cfg), cfg.resend) <= gap <= Throttle(cfg) + cfg.resend - 1
  {
    hide Close;
    var before := caps[..|caps| - 1];
    RunIsOk(cfg, before);
    if k + 1 < |Emitted(cfg, before)| {
      GapsAreBounded(cfg, before, k);
    }
  }

  /** While captures continue, silence never outlasts the bound either: an emission is overdue by nobody. */
  lemma SilenceIsBounded(cfg: Config, caps: seq<Observed>)
    requires cfg.resend >= 1 && caps != []
    ensures var e := Run(cfg, caps);
            && 1 <= e.lastEmit <= |caps|
            && |caps| - e.lastEmit <= Throttle(cfg) + cfg.resend - 2
  {
    RunIsOk(cfg, caps);
  }

  /** A message still tells where the player is: no angle is off by more than the tolerance, the position is within its
      tolerance, and stance, animation and equipment are right. */
  predicate Tells(cfg: Config, m: PlayerState, cur: Observed) {
    && Sq(m.position.x - cur.position.x) + Sq(m.position.y - cur.position.y) + Sq(m.position.z - cur.position.z)
         <= Sq(cfg.positionEps)
    && -cfg.rotationEps <= m.rotation.pitch - cur.rotation.pitch <= cfg.rotationEps
    && -cfg.rotationEps <= m.rotation.yaw - cur.rotation.yaw <= cfg.rotationEps
    && -cfg.rotationEps <= m.rotation.roll - cur.rotation.roll <= cfg.rotationEps
    && m.stance == cur.stance && m.animState == cur.animState && m.equipped == cur.equipped
  }

  lemma TellsIffClose(cfg: Config, m: PlayerState, seen: Observed, cur: Observed)
    requires m.position == seen.position && m.rotation == seen.rotation
    requires m.stance == seen.stance && m.animState == seen.animState && m.equipped == seen.equipped
    ensures Tells(cfg, m, cur) <==> Close(cfg, cur, seen)
  {
    SquareOfNegation(m.position.x - cur.position.x);
    SquareOfNegation(m.position.y - cur.position.y);
    SquareOfNegation(m.position.z - cur.position.z);
  }

  /** The last message of a run tells of the capture the emitter remembers. */
  lemma LastMessage(cfg: Config, caps: seq<Observed>, cur: Observed)
    requires caps != []
    ensures var msgs, e := Emitted(cfg, caps), Run(cfg, caps);
            && msgs != [] && e.last.Some? && msgs[|msgs| - 1].observedTick == e.lastEmit
            && (Tells(cfg, msgs[|msgs| - 1], cur) <==> Close(cfg, cur, e.last.value))
  {
    hide Close, Tells, Run, Emitted;
    RunIsOk(cfg, caps);
    var msgs := Emitted(cfg, caps);
    EmittedIsFaithful(cfg, caps, |msgs| - 1);
    TellsIffClose(cfg, msgs[|msgs| - 1], caps[msgs[|msgs| - 1].observedTick - 1], cur);
  }

  /** Once a throttle period has passed without emission, the last message sent still tells of the current capture:
      an observer of the messages is never further off than the tolerances for longer than the throttle. */
  lemma LastSentIsClose(cfg: Config, caps: seq<Observed>)
    requires caps != []
    ensures var msgs := Emitted(cfg, caps);
            && msgs != []
            && var m := msgs[|msgs| - 1];
               && 1 <= m.observedTick <= |caps|
               && (|caps| - m.observedTick >= Throttle(cfg) ==> Tells(cfg, m, caps[|caps| - 1]))
  {
    hide Close, Tells, Run, Emitted;
    RunIsOk(cfg, caps);
    LastMessage(cfg, caps, caps[|caps| - 1]);
  }

  /** How many of the captures told of by `m`, the last message sent, came since it was sent. */
  function Repeats(cfg: Config, m: PlayerState, caps: seq<Observed>): nat {
    if |caps| <= m.observedTick then 0
    else Repeats(cfg, m, caps[..|caps| - 1]) + (if Tells(cfg, m, caps[|caps| - 1]) then 1 else 0)
  }

  lemma {:induction false} QuietCounts(cfg: Config, caps: seq<Observed>)
    requires caps != [] && cfg.resend != 0
    ensures var msgs := Emitted(cfg, caps);
            msgs != [] && Run(cfg, caps).quiet == Repeats(cfg, msgs[|msgs| - 1], caps)
  {
    hide Close, Tells;
    var before := caps[..|caps| - 1];
    RunIsOk(cfg, caps);
    RunIsOk(cfg, before);
    if before != [] {
      QuietCounts(cfg, before);
      LastMessage(cfg, before, caps[|caps| - 1]);
    }
  }

  /** What is sent, said of captures and messages alone. The first capture is. A capture that the last message does not
      tell of is, once the throttle has passed since that message. One that it does tell of is sent as the `resend`-th
      of its kind, and never without a resend period. */
  lemma SentIff(cfg: Config, caps: seq<Observed>, cur: Observed)
    ensures var before, after := Emitted(cfg, caps), Emitted(cfg, caps + [cur]);
            && |before| <= |after| <= |before| + 1 && after[..|before|] == before
            && (|after| > |before| <==>
                  || caps == []
                  || (before != [] &&
                      var m := before[|before| - 1];
                      if Tells(cfg, m, cur) then cfg.resend != 0 && Repeats(cfg, m, caps) + 1 >= cfg.resend
                      else |caps| + 1 - m.observedTick >= Throttle(cfg)))
  {
    hide Close, Tells, Run, Emitted, Repeats;
    EmittedOneMore(cfg, caps, cur);
    RunIsOk(cfg, caps);
    if caps != [] {
      LastMessage(cfg, caps, cur);
      if cfg.resend != 0 { QuietCounts(cfg, caps); }
    }
  }

  lemma EmittedOneMore(cfg: Config, caps: seq<Observed>, cur: Observed)
    ensures var m := Emission(cfg, Run(cfg, caps), cur);
            Emitted(cfg, caps + [cur]) == Emitted(cfg, caps) + (if m.Some? then [m.value] else [])
  {
    hide Emission;
    assert (caps + [cur])[..|caps|] == caps;
  }

  /** The bridge's globals and the function the plugin calls once per tick. */
  class Bridge {
    const cfg: Config
    var haveLast: bool
    var last: Observed
    var quiet: nat
    var sequence: nat
    var tick: nat
    var lastEmit: nat

    ghost function View(): Emitter
      reads this
    {
      Emitter(if haveLast then Some(last) else None, quiet, sequence, tick, lastEmit)
    }

    constructor (cfg: Config)
      ensures this.cfg == cfg && View() == IDLE
    {
      this.cfg := cfg;
      haveLast, last := false, Observed(0, ORIGIN, NO_TURN, ORIGIN, 0, 0, 0);
      quiet, sequence, tick, lastEmit := 0, 0, 0, 0;
    }

    /** `msb_build_player_state_if_changed`; `cur` is the capture, if it succeeded. */
    method BuildIfChanged(cur: Option<Observed>) returns (msg: Option<PlayerState>)
      modifies this
      ensures cur.None? ==> msg.None? && View() == old(View())
      ensures cur.Some? ==> msg == Emission(cfg, old(View()), cur.value)
      ensures cur.Some? ==> View() == Observe(cfg, old(View()), cur.value)
    {
      if cur.None? { return None; }
      var c := cur.value;
      tick := tick + 1;
      if haveLast {
        var changed := !Close(cfg, c, last);
        if changed && cfg.throttle > 0 && lastEmit != 0 && tick - lastEmit < cfg.throttle { return None; }
        if !changed {
          if cfg.resend == 0 { return None; }
          quiet := quiet + 1;
          if quiet < cfg.resend { return None; }
        }
      }
      sequence := sequence + 1;
      msg := Some(Packed(cfg, c, sequence, tick));
      haveLast, last, quiet, lastEmit := true, c, 0, tick;
    }
  }
}
