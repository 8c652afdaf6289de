/** Bounds on the service's 32-bit counters over every run from boot. */
module Counters {
  import opened Slots
  import opened Protocol
  import opened Relay
  import opened Session
  import opened Seating
  import opened Lifecycle
  import opened Workshop
  import opened QueueBound
  import opened JoinReplay
  import opened MirrorTurns
  import opened Service
  import opened SessionRelay
  import opened Coverage

  // ---- one turn ------------------------------------------------------------------------------------------------

  lemma TurnCounts(env: Env, s: Session, e: Envelope)
    ensures var t := Turn(env, s, e); t.tick <= s.tick + 1 && t.nextObjectId <= s.nextObjectId + 1
  {
    hide HandleFire, HandleHello, TickActors, TickPlayers, BuildValid;
    HandleFrame(env, s, e);
  }

  /** A replay at its longest: 13 messages before the actors, two for each actor, one for each object, 28 a tick. */
  const HELLO_BOUND: nat := 13 + 2 * MAX_ACTORS + MAX_OBJECTS + 28

  lemma TurnDemand(env: Env, s: Session, e: Envelope)
    requires HeadOk(env, s)
    ensures |Demand(env, s, e)| <= if e.request.Hello? then HELLO_BOUND else TURN_BOUND
  {
    hide Handle, Tick, HeadOk, Demand, Triangle;
    if !e.request.Hello? {
      RequestDemand(env, s, e);
    } else if Handle(env, s, e).accepted {
      HelloDemandBound(env, s, e);
    } else {
      RejectionSendsNothing(env, s, e);
      RefusedDemand(env, s, e);
    }
  }

  lemma RefusedDemand(env: Env, s: Session, e: Envelope)
    ensures !Handle(env, s, e).accepted ==> Demand(env, s, e) == Handle(env, s, e).sends
  {
    hide Handle, Tick;
  }

  lemma RequestDemand(env: Env, s: Session, e: Envelope)
    requires HeadOk(env, s) && !e.request.Hello?
    ensures |Demand(env, s, e)| <= TURN_BOUND
  {
    hide Demand;
    TurnFitsQueue(env, s, e);
  }

  lemma HelloDemandBound(env: Env, s: Session, e: Envelope)
    requires HeadOk(env, s) && e.request.Hello? && Handle(env, s, e).accepted
    ensures |Demand(env, s, e)| <= HELLO_BOUND
  {
    hide Handle, Tick, Demand, SpawnsFit, JoinCenter, ActorReplay, ObjectReplay, ReplaysActor, ReplaysObject, Count,
         First, SeatingOk, HeadOk;
    var head, tail := JoinParts(env, s, e);
    var center, radius := JoinCenter(s, e), ReplayRadius(s);
    ActorReplaySize(s.actors, e.conn, center, radius);
    ObjectReplaySize(s.objects, e.conn, center, radius);
    TableSizes(env, s);
    HelloTick(env, s, e);
  }

  lemma TableSizes(env: Env, s: Session)
    requires HeadOk(env, s)
    ensures |s.actors| == MAX_ACTORS && |s.objects| == MAX_OBJECTS
  {
  }

  lemma HelloTick(env: Env, s: Session, e: Envelope)
    requires HeadOk(env, s)
    ensures |Tick(Handle(env, s, e).session).1| <= 28
  {
    hide Handle, Tick, ActorsOk, AllAlive, WorkshopOk, RegistryOk, Triangle;
    var o := Handle(env, s, e);
    HandleKeepsSeating(env, s, e);
    ConnectionsBound(o.session.players, o.session.tick);
    DespawnCosts(env, s, e, TickPlayers(o.session).0);
    TickCosts(o.session);
    TriangleMonotone(Connections(o.session.players), MAX_CONNECTED);
    SevenTriangle();
  }

  lemma SevenTriangle()
    ensures Triangle(MAX_CONNECTED) == 28
  {
  }

  // ---- whole runs ----------------------------------------------------------------------------------------------

  /** What the transmit sequence has grown by over a run: every message asked for, sent or not. */
  function Asked(env: Env, s: Session, es: seq<Envelope>): nat {
    if es == [] then 0
    else
      var before := es[..|es| - 1];
      Asked(env, s, before) + |Demand(env, Run(env, s, before), es[|es| - 1])|
  }

  function Hellos(es: seq<Envelope>): nat { Count(es, (e: Envelope) => e.request.Hello?) }

  /** What the relay of a slot has counted. */
  function Judged(k: Kept): nat { k.stats.accepted + k.stats.rejectedStale + k.stats.rejectedRegressive }

  lemma JudgedGrows(k: Kept, effect: Effect)
    ensures Judged(Applied(k, effect)) <= Judged(k) + 1
  {
    hide Stale, Regressive;
  }

  /** After n turns from boot, h of them HELLOs, the tick is at most n, the object id counter at most 1000 + n, the
      transmit sequence at most 49 for each request and 16425 for each HELLO, and no slot's relay has counted more
      than n messages. */
  lemma {:induction false} CountersDoNotWrap(env: Env, c: Config, es: seq<Envelope>, id: nat)
    requires DistinctPlots(c) && 1 <= id < MAX_PLAYERS
    ensures var s := Run(env, Boot(c), es);
            && s.tick <= |es| && s.nextObjectId <= FIRST_OBJECT_ID + |es|
            && Asked(env, Boot(c), es) <= TURN_BOUND * (|es| - Hellos(es)) + HELLO_BOUND * Hellos(es)
            && |s.players| == MAX_PLAYERS && Judged(KeptOf(s, id)) <= |es|
  {
    hide Turn, Demand, HeadOk, Judged, SeatingOk, EffectOn, Applied;
    if es == [] {
      BootIsFresh(c, id);
    } else {
      var before, e := es[..|es| - 1], es[|es| - 1];
      var s := Run(env, Boot(c), before);
      CountersDoNotWrap(env, c, before, id);
      ReachableIsOk(env, c, before);
      TurnCounts(env, s, e);
      TurnDemand(env, s, e);
      ReachableSeats(env, c, before);
      TurnOnSlot(env, s, e, id);
      JudgedGrows(KeptOf(s, id), EffectOn(s, e, id));
    }
  }

  lemma ReachableSeats(env: Env, c: Config, es: seq<Envelope>)
    requires DistinctPlots(c)
    ensures SeatingOk(Run(env, Boot(c), es))
  {
    ReachableIsOk(env, c, es);
  }

  lemma BootIsFresh(c: Config, id: nat)
    requires 1 <= id < MAX_PLAYERS
    ensures |Boot(c).players| == MAX_PLAYERS && Judged(KeptOf(Boot(c), id)) == 0
  {
  }
}
