/** Runs from boot after which the service forgets a player: a GUID too long to store, and a registry that 32 visitors
    have filled. */
module Forgetting {
  import opened Slots
  import opened Protocol
  import opened Session
  import opened Seating
  import opened Service

  /** A GUID of `n` bytes. */
  function GuidOf(n: nat): (r: string)
    ensures |r| == n
  {
    seq(n, _ => 'x')
  }

  /** The first HELLO with a GUID of 64 bytes is welcomed as player 1; its second HELLO is not. */
  lemma LongGuidIsForgotten(env: Env, conn: nat, profile: Profile, again: nat)
    ensures var s, guid := Boot(DefaultConfig(0)), GuidOf(64);
            && WelcomedId(s, conn, guid) == Some(1)
            && WelcomedId(HandleHello(s, conn, guid, profile).session, again, guid) != Some(1)
  {
    hide First, Seat, HandleHello, Boot;
    var s, guid := Boot(DefaultConfig(0)), GuidOf(64);
    BootIsOk(env, DefaultConfig(0));
    FirstSeat(DefaultConfig(0), conn, guid);
    HelloKeepsSeating(s, conn, guid, profile);
    BootBindsNothing(guid);
    UnboundGuidLosesPlayer(s, conn, guid, profile, again);
  }

  lemma BootBindsNothing(guid: string)
    ensures var s := Boot(DefaultConfig(0)); FindBinding(s.registry, guid) == |s.registry|
  {
    hide First;
  }

  // ---- a full registry ---------------------------------------------------------------------------------------

  /** `n` visitors with different GUIDs, one after the other: each joins and leaves. */
  function Visits(conn: nat, profile: Profile, n: nat): seq<Envelope> {
    if n == 0 then []
    else Visits(conn, profile, n - 1) + [Envelope(conn, Hello(GuidOf(n), profile)), Envelope(conn, Disconnect)]
  }

  /** Nobody is connected, and the first `n` entries hold the GUIDs of `n` visitors. */
  ghost predicate Visited(s: Session, n: nat) {
    && SeatingOk(s) && s.timeout == 0 && n <= |s.registry| == MAX_REGISTRY && |s.players| == MAX_PLAYERS
    && (forall i :: 0 <= i < |s.players| ==> !s.players[i].connected)
    && (forall i :: 0 <= i < |s.registry| ==> (s.registry[i].inUse <==> i < n))
    && (forall i :: 0 <= i < n ==> |s.registry[i].guid| <= n)
  }

  /** The visitor of player 1, who is the only one there. */
  ghost predicate Visiting(s: Session, conn: nat, n: nat) {
    && SeatingOk(s) && s.timeout == 0 && n <= |s.registry| == MAX_REGISTRY && |s.players| == MAX_PLAYERS
    && s.players[0].connected && s.players[0].id == 1 && s.players[0].conn == conn
    && (forall i :: 1 <= i < |s.players| ==> !s.players[i].connected)
    && (forall i :: 0 <= i < |s.registry| ==> (s.registry[i].inUse <==> i < n))
    && (forall i :: 0 <= i < n ==> |s.registry[i].guid| <= n)
  }

  lemma VisitorSeat(s: Session, conn: nat, n: nat, guid: string)
    requires Visited(s, n) && |guid| > n
    ensures FindBinding(s.registry, guid) == |s.registry|
    ensures var seat := Seat(s, conn, guid);
            && seat.Some? && seat.value.0 == 1
            && seat.value.1.players == s.players[0 := NO_PLAYER.(connected := true, id := 1, conn := conn)]
            && seat.value.1.registry == Bind(s.registry, guid, 1)
  {
    hide First, Bind, SeatingOk;
    assert !s.players[0].connected;
    assert FindPlayer(s.players, 1) == |s.players| && FreeSlot(s.players) == 0;
    FreeIdStep(s.players, 1);
  }

  lemma Arrives(env: Env, s: Session, conn: nat, profile: Profile, n: nat)
    requires Visited(s, n) && n < MAX_REGISTRY
    ensures Visiting(Turn(env, s, Envelope(conn, Hello(GuidOf(n + 1), profile))), conn, n + 1)
  {
    hide First, Seat, ExistingState, TickActors, SeatingOk, KeepsIds, Extends;
    var e := Envelope(conn, Hello(GuidOf(n + 1), profile));
    VisitorSeat(s, conn, n, e.request.guid);
    SeatFindsSlot(s, conn, e.request.guid);
    TurnKeepsSeating(env, s, e);
    assert !s.registry[n].inUse && FreeBinding(s.registry) == n;
  }

  lemma Leaves(env: Env, s: Session, conn: nat, n: nat)
    requires Visiting(s, conn, n)
    ensures Visited(Turn(env, s, Envelope(conn, Disconnect)), n)
  {
    hide First, TickActors, SeatingOk, KeepsIds, Extends, Broadcast;
    assert FindConnection(s.players, conn) == 0 && FindPlayer(s.players, 1) == 0 && FindSlot(s.players, 1) == 0;
    var h := Heard(s, 1);
    assert h.players[0].id == 1 && FindSlot(h.players, 1) == 0;
    TurnKeepsSeating(env, s, Envelope(conn, Disconnect));
  }

  lemma {:induction false} VisitsFill(env: Env, conn: nat, profile: Profile, n: nat)
    requires n <= MAX_REGISTRY
    ensures Visited(Run(env, Boot(DefaultConfig(0)), Visits(conn, profile, n)), n)
  {
    hide Turn, Visited, Visiting;
    var s := Boot(DefaultConfig(0));
    if n == 0 {
      BootIsUnvisited(env);
    } else {
      VisitsFill(env, conn, profile, n - 1);
      var before := Visits(conn, profile, n - 1);
      var m := Run(env, s, before);
      var both := Visits(conn, profile, n);
      assert both[..|both| - 1] == before + [Envelope(conn, Hello(GuidOf(n), profile))];
      assert (before + [Envelope(conn, Hello(GuidOf(n), profile))])[..|before|] == before;
      Arrives(env, m, conn, profile, n - 1);
      Leaves(env, Turn(env, m, Envelope(conn, Hello(GuidOf(n), profile))), conn, n);
    }
  }

  lemma BootIsUnvisited(env: Env)
    ensures Visited(Boot(DefaultConfig(0)), 0)
  {
    BootIsOk(env, DefaultConfig(0));
  }

  /** After 32 visitors an ordinary GUID is welcomed but not bound, and its second HELLO is not given its player. */
  lemma FullRegistryForgets(env: Env, conn: nat, profile: Profile, again: nat)
    ensures var s := Run(env, Boot(DefaultConfig(0)), Visits(conn, profile, MAX_REGISTRY));
            var guid := GuidOf(MAX_REGISTRY + 1);
            && WelcomedId(s, conn, guid) == Some(1)
            && WelcomedId(HandleHello(s, conn, guid, profile).session, again, guid) != Some(1)
  {
    hide First, Seat, HandleHello, Run, SeatingOk;
    var s, guid := Run(env, Boot(DefaultConfig(0)), Visits(conn, profile, MAX_REGISTRY)), GuidOf(MAX_REGISTRY + 1);
    VisitsFill(env, conn, profile, MAX_REGISTRY);
    VisitorSeat(s, conn, MAX_REGISTRY, guid);
    HelloKeepsSeating(s, conn, guid, profile);
    UnboundGuidLosesPlayer(s, conn, guid, profile, again);
  }
}
