/** The service from boot on: every reachable state, and what holds in all of them. */
module Service {
  import opened Slots
  import opened Protocol
  import opened Combat
  import opened Session
  import opened Seating
  import opened Lifecycle
  import opened Workshop
  import opened QueueBound
  import opened Mirror
  import opened Proxy
  import opened MirrorTurns
  import opened MirrorJoin
  import Dialogue

  datatype Plot = Plot(id: nat, center: Vec3, radius: real, budget: nat)
  datatype Spawn = Spawn(baseForm: nat, position: Vec3)

  /** What `main` sets up before the loop: settlements, hostiles and the player timeout. */
  datatype Config = Config(
    sessionId: nat, rules: set<Rule>, tickRate: nat, bubbleCenter: Vec3, bubbleRadius: real,
    timeout: nat, plots: seq<Plot>, spawns: seq<Spawn>)

  /** The configuration of `service_main.c`. */
  function DefaultConfig(timeout: nat): Config {
    Config(1, {BubbleOnly, HostAuthCombat, HostAuthWorkshop, GuestProfileEnabled}, 20, ORIGIN, 0.0, timeout,
           [Plot(1001, ORIGIN, 2048.0, 512)], [Spawn(0x90000001, Vec3(128.0, 0.0, 0.0))])
  }

  const CREATURE: nat := 1

  /** `ac_spawn_hostile_actor`: ids count up from 2000 and slots fill from the front. */
  function FreshHostile(id: nat, spawn: Spawn): Actor {
    Actor(true, id, spawn.baseForm, ActorState(id, spawn.position, NO_TURN, FULL_HEALTH, 0, {Hostile}, 0), CREATURE,
        0, false)
  }

  function Boot(c: Config): Session {
    Session(c.sessionId, c.rules, c.tickRate, c.bubbleCenter, c.bubbleRadius,
            seq(MAX_PLAYERS, _ => NO_PLAYER),
            seq(MAX_REGISTRY, _ => NO_BINDING),
            seq(MAX_ACTORS, i requires 0 <= i => if i < |c.spawns| then FreshHostile(FIRST_ACTOR_ID + i, c.spawns[i])
                else NO_ACTOR),
            seq(MAX_OBJECTS, _ => NO_OBJECT),
            seq(MAX_SETTLEMENTS, i requires 0 <= i =>
              if i < |c.plots| then Settlement(true, c.plots[i].id, c.plots[i].center, c.plots[i].radius, 0,
                  c.plots[i].budget)
              else NO_SETTLEMENT),
            FIRST_OBJECT_ID, Dialogue.NO_DIALOGUE, 0, c.timeout)
  }

  ghost predicate DistinctPlots(c: Config) {
    forall i, j :: 0 <= i < j < |c.plots| ==> c.plots[i].id != c.plots[j].id
  }

  lemma BootIsOk(env: Env, c: Config)
    requires DistinctPlots(c)
    ensures HeadOk(env, Boot(c))
  {
    var s := Boot(c);
    assert SeatingOk(s);
    assert ActorsOk(s.actors) && AllAlive(s.actors);
    forall t | 0 <= t < |s.settlements| && s.settlements[t].inUse
        ensures ObjectsIn(s.objects, s.settlements[t].id) == 0 {
      var id := s.settlements[t].id;
      CountZero(s.objects, (o: Object) => o.inUse && o.settlementId == id);
    }
  }

  /** The world `main` sets up: one hostile creature at (128, 0, 0), one settlement of radius 2048 with room for 512
      objects, and nothing and nobody else. */
  lemma DefaultWorld(timeout: nat)
    ensures var s := Boot(DefaultConfig(timeout));
            && (forall i :: 0 <= i < |s.actors| ==> (s.actors[i].inUse <==> i == 0))
            && (forall i :: 0 <= i < |s.settlements| ==> (s.settlements[i].inUse <==> i == 0))
            && (forall i :: 0 <= i < |s.objects| ==> !s.objects[i].inUse)
            && (forall i :: 0 <= i < |s.players| ==> !s.players[i].connected)
            && (forall i :: 0 <= i < |s.registry| ==> !s.registry[i].inUse)
            && |s.actors| == 4096 && |s.settlements| == 64 && |s.objects| == 8192 && |s.players| == 8
            && |s.registry| == 32 && s.tick == 0 && s.timeout == timeout && s.nextObjectId == 1000
            && !s.dialogue.active && s.sessionId == 1 && s.tickRate == 20
            && s.rules == {BubbleOnly, HostAuthCombat, HostAuthWorkshop, GuestProfileEnabled}
            && var a, t := s.actors[0], s.settlements[0];
               && a.id == a.state.actorId == 2000 && a.baseForm == 0x90000001 && a.kind == 1 && a.spawnFlags == 0
               && a.state.position == Vec3(128.0, 0.0, 0.0) && a.state.health == 4 && a.state.flags == {Hostile}
               && t.id == 1001 && t.center == Vec3(0.0, 0.0, 0.0) && t.radius == 2048.0
               && t.count == 0 && t.budget == 512
  {
  }

  /** Every reachable state satisfies all the invariants of the loop head: slots and ids, the registry,
      live actors, and workshop conservation. */
  lemma {:induction false} ReachableIsOk(env: Env, c: Config, es: seq<Envelope>)
    requires DistinctPlots(c)
    ensures HeadOk(env, Run(env, Boot(c), es))
  {
    hide HeadOk, Boot, Turn;
    if es == [] {
      BootIsOk(env, c);
    } else {
      ReachableIsOk(env, c, es[..|es| - 1]);
      TurnKeepsHead(env, Run(env, Boot(c), es[..|es| - 1]), es[|es| - 1]);
    }
  }

  /** In every reachable state connected players have distinct ids and there are at most seven of them. */
  lemma ConnectedIdsAreDistinct(env: Env, c: Config, es: seq<Envelope>, i: nat, j: nat)
    requires DistinctPlots(c) && i < j < MAX_PLAYERS
    ensures var players := Run(env, Boot(c), es).players;
            && |players| == MAX_PLAYERS && Connections(players) <= MAX_CONNECTED
            && (players[i].connected && players[j].connected ==> players[i].id != players[j].id)
  {
    ReachableIsOk(env, c, es);
    var s := Run(env, Boot(c), es);
    assert SeatingOk(s);
    ConnectionsBound(s.players, s.tick);
  }

  /** From boot, no turn whose envelope is not a HELLO ever drops an output. */
  lemma QueueNeverOverflows(env: Env, c: Config, es: seq<Envelope>, e: Envelope)
    requires DistinctPlots(c) && !e.request.Hello?
    ensures |Demand(env, Run(env, Boot(c), es), e)| <= TURN_BOUND
  {
    hide Demand, Boot;
    ReachableIsOk(env, c, es);
    TurnFitsQueue(env, Run(env, Boot(c), es), e);
  }

  /** From boot, every hostile's health and reported damage balance over every run. */
  lemma HostileLifecycle(env: Env, c: Config, es: seq<Envelope>, k: nat)
    requires DistinctPlots(c) && k < |c.spawns| && k < MAX_ACTORS
    ensures var id := FIRST_ACTOR_ID + k;
            Accounts(Run(env, Boot(c), es).actors, id, DamageDealt(env, Boot(c), es, id), Deaths(env, Boot(c), es, id))
  {
    BootIsOk(env, c);
    var s := Boot(c);
    Lifecycle.ActorSlot(s.actors, k);
    CombatLifecycle(env, s, es, FIRST_ACTOR_ID + k);
  }

  /** From boot, the mirror of every client that stays attached from some turn on. */
  lemma ClientsMirror(env: Env, c: Config, before: seq<Envelope>, es: seq<Envelope>, client: nat)
    requires DistinctPlots(c) && Attached(env, Run(env, Boot(c), before), es, client)
    ensures var s := Run(env, Boot(c), before);
            Agree(ClientRun(env, s, es, client, EmptyTables()), Run(env, s, es))
  {
    hide Boot, HeadOk, Attached, Agree;
    ReachableIsOk(env, c, before);
    MirrorSimulation(env, Run(env, Boot(c), before), es, client);
  }

  // ---- a split replay can be reached --------------------------------------------------------------------------

  /** That many hostiles at the origin and nothing else. */
  function CrowdedConfig(n: nat): Config {
    Config(1, {HostAuthCombat}, 20, ORIGIN, 0.0, 0, [], seq(n, _ => Spawn(1, ORIGIN)))
  }

  /** A count over a table whose first `n` slots satisfy `p` and no others. */
  lemma {:induction false} CountFront<T>(s: seq<T>, p: T -> bool, n: nat)
    requires n <= |s| && forall i :: 0 <= i < |s| ==> (p(s[i]) <==> i < n)
    ensures Count(s, p) == n
  {
    if |s| > n {
      CountFront(s[..|s| - 1], p, n);
    } else if n > 0 {
      CountFront(s[..n - 1], p, n - 1);
    }
  }

  lemma FirstSeat(c: Config, conn: nat, guid: string)
    ensures var seat := Seat(Boot(c), conn, guid);
            && seat.Some? && seat.value.0 == 1
            && seat.value.1.players == Boot(c).players[0 := NO_PLAYER.(connected := true, id := 1, conn := conn)]
  {
    hide First;
    var s := Boot(c);
    assert !s.players[0].connected && FindBinding(s.registry, guid) == |s.registry|;
    assert FindPlayer(s.players, 1) == |s.players| && FreeSlot(s.players) == 0;
    FreeIdStep(s.players, 1);
  }

  /** The first HELLO to such a service is accepted, nobody else is there, and every hostile is in range. */
  lemma CrowdedReplay(env: Env, conn: nat, guid: string, profile: Profile, n: nat)
    requires n <= MAX_ACTORS
    ensures var s, e := Boot(CrowdedConfig(n)), Envelope(conn, Hello(guid, profile));
            && HeadOk(env, s) && Handle(env, s, e).accepted
            && Seat(s, conn, guid).Some?
            && var (id, seated) := Seat(s, conn, guid).value;
               && Count(seated.players, (p: Player) => p.connected && p.id != id) == 0
               && ReplayCenter(seated.players, id, s.bubbleCenter) == ORIGIN
               && Count(s.actors, (a: Actor) => ReplaysActor(a, ORIGIN, ReplayRadius(s))) == n
  {
    hide Seat, ExistingState, First, HeadOk;
    var c := CrowdedConfig(n);
    var s := Boot(c);
    BootIsOk(env, c);
    FirstSeat(c, conn, guid);
    BootSeats(c);
    HelloKeepsSeating(s, conn, guid, profile);
    var players := Seat(s, conn, guid).value.1.players;
    CountZero(players, (p: Player) => p.connected && p.id != 1);
    FirstCenter(players, s.bubbleCenter);
    CountFront(s.actors, (a: Actor) => ReplaysActor(a, ORIGIN, ReplayRadius(s)), n);
  }

  lemma BootSeats(c: Config)
    ensures SeatingOk(Boot(c))
  {
  }

  /** With thirty hostiles the first replay is split: 5 + 60 messages meet 64 entries. */
  lemma SplitIsReachable(env: Env, conn: nat, guid: string, profile: Profile)
    ensures var s, e := Boot(CrowdedConfig(30)), Envelope(conn, Hello(guid, profile));
            && Handle(env, s, e).accepted && Splits(env, s, e)
            && !Agree(ClientAfter(env, s, e, conn, EmptyTables()), Turn(env, s, e))
  {
    hide Seat, Handle, Agree, Turn, ClientAfter, HeadOk, Boot, ReplaysActor, ReplayCenter;
    CrowdedReplay(env, conn, guid, profile, 30);
    SplitSpoilsMirror(env, Boot(CrowdedConfig(30)), Envelope(conn, Hello(guid, profile)));
  }

  lemma {:induction false} FirstCenter(players: seq<Player>, fallback: Vec3)
    requires fallback == ORIGIN && forall i :: 0 <= i < |players| ==> players[i].state.position == ORIGIN
    ensures ReplayCenter(players, 1, fallback) == ORIGIN
  {
    if players != [] { FirstCenter(players[..|players| - 1], fallback); }
  }
}
