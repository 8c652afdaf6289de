/** A player whose requests are all taken is dropped for silence: moving an object is no sign of life. */
module Unheard {
  import opened Slots
  import opened Protocol
  import opened Session
  import opened Seating
  import opened Lifecycle
  import opened Workshop
  import opened Service
  import opened Construction
  import opened Answers
  import opened Timeouts
  import MirrorTurns
  import Replication

  const PLOT: nat := 1001
  const PIECE: nat := 1000

  /** Player 1 sits in the first slot at `conn`, and the piece with the first id stands within reach in the plot. */
  ghost predicate Working(env: Env, s: Session, conn: nat) {
    && SeatingOk(s) && WorkshopOk(env, s) && |s.players| == MAX_PLAYERS && HostAuthWorkshop in s.rules
    && s.players[0].connected && s.players[0].id == 1 && s.players[0].conn == conn
    && WithinReach(s, PLOT, ORIGIN)
    && PIECE in Pieces(s.objects) && Pieces(s.objects)[PIECE].settlement == PLOT
  }

  function MoveHere(conn: nat): Envelope { Envelope(conn, Move(1, PIECE, ORIGIN, NO_TURN)) }

  lemma MoveKeepsPlots(env: Env, s: Session, e: Envelope)
    requires e.request.Move?
    ensures Turn(env, s, e).settlements == s.settlements && Turn(env, s, e).rules == s.rules
  {
    hide First, Broadcast, MoveValid, TickActors, TickPlayers;
  }

  /** The move is taken, does not count as a sign of life, and leaves everything in place but perhaps the player. */
  lemma MoveIsUnheard(env: Env, s: Session, conn: nat)
    requires Working(env, s, conn)
    ensures var e := MoveHere(conn);
            var t := Turn(env, s, e);
            && Handle(env, s, e).accepted && |t.players| == MAX_PLAYERS
            && t.timeout == s.timeout && t.tick == s.tick + 1
            && t.players[0].lastHeard == s.players[0].lastHeard
            && (t.players[0].connected <==> s.timeout == 0 || t.tick - t.players[0].lastHeard <= s.timeout)
            && (t.players[0].connected ==> Working(env, t, conn))
  {
    hide First, Handle, Turn, Pieces, SeatingOk, WorkshopOk;
    var e := MoveHere(conn);
    assert FindConnection(s.players, conn) == 0;
    assert WorkOf(env, s, e) == Moves(PIECE, ORIGIN, NO_TURN);
    AcceptedIff(env, s, e);
    TurnOnSeat(env, s, e, 1);
    TurnOnPieces(env, s, e);
    TurnKeepsSeating(env, s, e);
    TurnKeepsWorkshop(env, s, e);
    MoveKeepsPlots(env, s, e);
    SameReach(s, Turn(env, s, e));
    IdStays(env, s, e);
  }

  lemma IdStays(env: Env, s: Session, e: Envelope)
    requires SeatingOk(s) && |s.players| == MAX_PLAYERS && s.players[0].id == 1
    ensures var t := Turn(env, s, e); |t.players| == MAX_PLAYERS && t.players[0].id == 1
  {
    hide Turn, SeatingOk;
    TurnKeepsSeating(env, s, e);
  }

  lemma SameReach(s: Session, t: Session)
    requires s.settlements == t.settlements && WithinReach(s, PLOT, ORIGIN)
    ensures WithinReach(t, PLOT, ORIGIN)
  {
  }

  function Shifts(conn: nat, n: nat): seq<Envelope> { seq(n, _ => MoveHere(conn)) }

  /** As many moves as the timeout has ticks, less what has passed, and the mover is gone. */
  lemma {:induction false} MoverIsDropped(env: Env, s: Session, conn: nat, n: nat)
    requires Working(env, s, conn) && s.timeout > 0 && s.tick - s.players[0].lastHeard + n == s.timeout + 1 && n > 0
    ensures |Run(env, s, Shifts(conn, n)).players| == MAX_PLAYERS
    ensures !Run(env, s, Shifts(conn, n)).players[0].connected
    decreases n
  {
    hide Turn, Handle, Working, Run;
    var t := Turn(env, s, MoveHere(conn));
    MoveIsUnheard(env, s, conn);
    assert Shifts(conn, n) == [MoveHere(conn)] + Shifts(conn, n - 1);
    RunFront(env, s, MoveHere(conn), Shifts(conn, n - 1));
    Facts(env, s, conn);
    if n == 1 {
      assert Shifts(conn, 0) == [];
      Replication.RunNothing(env, t);
    } else {
      MoverIsDropped(env, t, conn, n - 1);
    }
  }

  lemma Facts(env: Env, s: Session, conn: nat)
    requires Working(env, s, conn)
    ensures SeatingOk(s) && s.players[0].connected
  {
  }

  // ---- from boot ---------------------------------------------------------------------------------------------------

  function BuildHere(conn: nat, form: nat): Envelope {
    Envelope(conn, Build(0, 1, PLOT, form, ORIGIN, NO_TURN, 0))
  }

  /** Join, build an object, and move it `n` times. */
  function WorkDay(conn: nat, guid: string, profile: Profile, form: nat, n: nat): seq<Envelope> {
    [Envelope(conn, Hello(guid, profile))] + ([BuildHere(conn, form)] + Shifts(conn, n))
  }

  lemma BootReaches(timeout: nat)
    ensures WithinReach(Boot(DefaultConfig(timeout)), PLOT, ORIGIN)
    ensures WithinBudget(Boot(DefaultConfig(timeout)), PLOT) && HasRoom(Boot(DefaultConfig(timeout)))
  {
    var s := Boot(DefaultConfig(timeout));
    assert Reaches(s.settlements[0], PLOT, ORIGIN);
    CountZero(s.objects, (o: Object) => o.inUse && o.settlementId == PLOT);
    assert ObjectsIn(s.objects, PLOT) == 0 < s.settlements[0].budget;
    assert !s.objects[0].inUse;
  }

  lemma HelloSits(env: Env, conn: nat, guid: string, profile: Profile, timeout: nat)
    requires timeout > 0
    ensures var s, e := Boot(DefaultConfig(timeout)), Envelope(conn, Hello(guid, profile));
            var t := Turn(env, s, e);
            && MirrorTurns.HeadOk(env, t) && |t.players| == MAX_PLAYERS && t.timeout == timeout && t.tick == 1
            && t.players[0].connected && t.players[0].id == 1 && t.players[0].conn == conn
            && t.players[0].lastHeard == 0
            && t.objects == s.objects && t.settlements == s.settlements && t.nextObjectId == PIECE
            && t.rules == s.rules
  {
    hide Turn, Handle, Boot, SeatingOk, First, Seat, MirrorTurns.HeadOk;
    var c := DefaultConfig(timeout);
    var s, e := Boot(c), Envelope(conn, Hello(guid, profile));
    BootIsOk(env, c);
    DefaultWorld(timeout);
    FirstSeat(c, conn, guid);
    HeadSeats(env, s);
    HandleOnSeat(env, s, e, 1);
    TurnOnSeat(env, s, e, 1);
    MirrorTurns.TurnKeepsHead(env, s, e);
    HelloLeavesWorld(env, s, e);
    SeatedIds(env, Turn(env, s, e));
  }

  lemma HeadSeats(env: Env, s: Session)
    requires MirrorTurns.HeadOk(env, s)
    ensures SeatingOk(s) && WorkshopOk(env, s)
  {
  }

  lemma SeatedIds(env: Env, s: Session)
    requires MirrorTurns.HeadOk(env, s)
    ensures |s.players| == MAX_PLAYERS && (s.players[0].connected ==> s.players[0].id == 1)
  {
  }

  lemma HelloLeavesWorld(env: Env, s: Session, e: Envelope)
    requires e.request.Hello?
    ensures var t := Turn(env, s, e);
            && t.objects == s.objects && t.settlements == s.settlements
            && t.nextObjectId == s.nextObjectId && t.rules == s.rules
  {
    hide Handle, TickActors, TickPlayers;
    HandleFrame(env, s, e);
  }

  lemma BuildKeepsPlots(env: Env, s: Session, e: Envelope)
    requires e.request.Build? && WithinReach(s, PLOT, ORIGIN)
    ensures WithinReach(Turn(env, s, e), PLOT, ORIGIN) && Turn(env, s, e).rules == s.rules
  {
    hide First, Broadcast, BuildValid, TickActors, TickPlayers, Reaches, Handle;
    HandleFrame(env, s, e);
    BuildAdjusts(env, s, e);
    var t := Turn(env, s, e);
    var k :| 0 <= k < |s.settlements| && Reaches(s.settlements[k], PLOT, ORIGIN);
    StillReaches(s.settlements[k], t.settlements[k].count);
  }

  lemma StillReaches(t: Settlement, count: nat)
    ensures Reaches(t, PLOT, ORIGIN) ==> Reaches(t.(count := count), PLOT, ORIGIN)
  {
  }

  lemma BuildAdjusts(env: Env, s: Session, e: Envelope)
    requires e.request.Build?
    ensures var t := Turn(env, s, e);
            && |t.settlements| == |s.settlements|
            && forall k :: 0 <= k < |t.settlements| ==>
                 t.settlements[k] == s.settlements[k].(count := t.settlements[k].count)
  {
    hide First, Broadcast, BuildValid, TickActors, TickPlayers, FindObject;
  }

  /** From boot with a timeout: a player joins, builds and then moves its object with every tick, each time with
      success. When the timeout has passed since it built, it is dropped. */
  lemma BusyPlayerIsDropped(env: Env, conn: nat, guid: string, profile: Profile, form: nat, timeout: nat)
    requires timeout > 0 && form in env.whitelist
    ensures var s := Boot(DefaultConfig(timeout));
            var before, after := Run(env, s, WorkDay(conn, guid, profile, form, 0)),
                Run(env, s, WorkDay(conn, guid, profile, form, timeout));
            && Working(env, before, conn) && |after.players| == MAX_PLAYERS && !after.players[0].connected
  {
    hide Turn, Handle, Boot, Run, SeatingOk, WorkshopOk, MirrorTurns.HeadOk, First, Pieces, MayBuild;
    var s, hello, build := Boot(DefaultConfig(timeout)), Envelope(conn, Hello(guid, profile)), BuildHere(conn, form);
    HelloSits(env, conn, guid, profile, timeout);
    DefaultWorld(timeout);
    BootReaches(timeout);
    var t := Turn(env, s, hello);
    HeadSeats(env, t);
    assert FindConnection(t.players, conn) == 0;
    CanBuild(env, s, t, build);
    assert WorkOf(env, t, build).Places?;
    AcceptedIff(env, t, build);
    TurnOnSeat(env, t, build, 1);
    TurnOnPieces(env, t, build);
    TurnKeepsSeating(env, t, build);
    TurnKeepsWorkshop(env, t, build);
    BuildKeepsPlots(env, t, build);
    IdStays(env, t, build);
    var u := Turn(env, t, build);
    assert Working(env, u, conn);
    MoverIsDropped(env, u, conn, timeout);
    RunFront(env, s, hello, [build] + Shifts(conn, timeout));
    RunFront(env, t, build, Shifts(conn, timeout));
    RunFront(env, s, hello, [build] + Shifts(conn, 0));
    RunFront(env, t, build, Shifts(conn, 0));
    assert Shifts(conn, 0) == [];
    Replication.RunNothing(env, u);
  }

  lemma CanBuild(env: Env, s: Session, t: Session, e: Envelope)
    requires e.request.Build? && e.request.settlementId == PLOT && e.request.position == ORIGIN
    requires e.request.snapTarget == 0 && e.request.formId in env.whitelist && HostAuthWorkshop in t.rules
    requires t.objects == s.objects && t.settlements == s.settlements
    requires WithinReach(s, PLOT, ORIGIN) && WithinBudget(s, PLOT) && HasRoom(s)
    ensures MayBuild(env, t, e.request) && HasRoom(t) && WithinReach(t, PLOT, ORIGIN)
  {
  }
}
