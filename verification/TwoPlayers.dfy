/** Runs from boot with two players: what the first one does and what the second one's client makes of it. */
module TwoPlayers {
  import opened Slots
  import opened Protocol
  import opened Relay
  import opened Session
  import opened Seating
  import opened QueueBound
  import opened Delivery
  import opened MirrorTurns
  import opened Service
  import opened SessionRelay
  import opened StateNews
  import opened Forgetting
  import opened Replication
  import opened Equipment
  import Convergence
  import Stage
  import StageAgreement
  import StageRelay
  import StageRoom

  /** Player 1 is connected at `a` and player 2 at `b`, and nobody ever times out. */
  ghost predicate Pair(env: Env, s: Session, a: nat, b: nat) {
    && HeadOk(env, s) && SeatingOk(s) && Named(s.players) && |s.players| == MAX_PLAYERS && s.timeout == 0 && a != b
    && s.players[0].connected && s.players[0].id == 1 && s.players[0].conn == a
    && s.players[1].connected && s.players[1].id == 2 && s.players[1].conn == b
  }

  // ---- joining -------------------------------------------------------------------------------------------------

  lemma SecondSeat(s: Session, a: nat, b: nat)
    requires Visiting(s, a, 1)
    ensures var seat := Seat(s, b, GuidOf(2));
            && seat.Some? && seat.value.0 == 2
            && seat.value.1.players == s.players[1 := NO_PLAYER.(connected := true, id := 2, conn := b)]
  {
    hide First, Bind, SeatingOk;
    assert FindBinding(s.registry, GuidOf(2)) == |s.registry|;
    assert FindPlayer(s.players, 1) == 0;
    assert !s.players[1].connected;
    assert FindPlayer(s.players, 2) == |s.players| && FreeSlot(s.players) == 1;
    FreeIdStep(s.players, 1);
    FreeIdStep(s.players, 2);
  }

  lemma SecondArrives(env: Env, s: Session, a: nat, b: nat, profile: Profile)
    requires HeadOk(env, s) && Named(s.players) && Visiting(s, a, 1) && a != b
    ensures var e := Envelope(b, Hello(GuidOf(2), profile));
            Pair(env, Turn(env, s, e), a, b) && EffectOn(s, e, 1) == Nothing
  {
    hide First, Seat, ExistingState, TickActors, SeatingOk, KeepsIds, Extends, HeadOk, Named;
    var e := Envelope(b, Hello(GuidOf(2), profile));
    SecondSeat(s, a, b);
    SeatFindsSlot(s, b, e.request.guid);
    TurnKeepsSeating(env, s, e);
    TurnKeepsHead(env, s, e);
    TurnKeepsNames(env, s, e);
  }

  /** Both players join. */
  function Joins(a: nat, b: nat, profile: Profile): seq<Envelope> {
    [Envelope(a, Hello(GuidOf(1), profile)), Envelope(b, Hello(GuidOf(2), profile))]
  }

  const START := Boot(DefaultConfig(0))

  lemma PairJoins(env: Env, a: nat, b: nat, profile: Profile)
    requires a != b
    ensures var s := Run(env, START, Joins(a, b, profile)); Pair(env, s, a, b) && KeptOf(s, 1) == Convergence.FRESH
    ensures ToldOver(env, START, Joins(a, b, profile), b, 1) == []
  {
    hide Turn, SeatingOk, HeadOk, Named, EffectOn, Visiting, Boot, Told;
    var es := Joins(a, b, profile);
    BootIsPair(env);
    BootIsUnvisited(env);
    Arrives(env, START, a, profile, 0);
    var s1 := Turn(env, START, es[0]);
    TurnKeepsHead(env, START, es[0]);
    TurnKeepsNames(env, START, es[0]);
    TurnKeepsSeating(env, START, es[0]);
    TurnOnSlot(env, START, es[0], 1);
    HelloOnFresh(es[0]);
    SecondArrives(env, s1, a, b, profile);
    TurnOnSlot(env, s1, es[1], 1);
    assert es[..1][..0] == [] && es[..1][0] == es[0];
    assert Run(env, START, es[..1]) == s1;
    BlankIsUntold(env, START, es[0], b);
    BlankIsUntold(env, s1, es[1], b);
    assert ToldOver(env, START, es[..1], b, 1) == [];
  }

  lemma BootIsPair(env: Env)
    ensures HeadOk(env, START) && SeatingOk(START) && Named(START.players) && KeptOf(START, 1) == Convergence.FRESH
  {
    BootIsOk(env, DefaultConfig(0));
  }

  lemma HelloOnFresh(e: Envelope)
    requires e.request.Hello?
    ensures Applied(Convergence.FRESH, EffectOn(START, e, 1)) == Convergence.FRESH
  {
    hide Seat, First;
  }

  /** While the slot of player 1 holds nothing, nobody is told anything about it. */
  lemma BlankIsUntold(env: Env, s: Session, e: Envelope, client: nat)
    requires SeatingOk(s) && Named(s.players) && |Turn(env, s, e).players| == MAX_PLAYERS
    requires KeptOf(Turn(env, s, e), 1).stored.playerId == 0
    ensures Told(env, s, e, client, 1) == []
  {
    hide Turn, SeatingOk, Named, Transmitted, Received;
    ToldIsStored(env, s, e, client, 1);
    AboutNames(Received(Transmitted(env, s, e), client), 1);
    var told := Told(env, s, e, client, 1);
    assert told == [] || told[0].playerId == 1;
  }

  // ---- what player 1 does ----------------------------------------------------------------------------------------

  lemma StateTurn(env: Env, s: Session, a: nat, b: nat, msg: PlayerState)
    requires Pair(env, s, a, b) && msg.playerId == 1
    ensures var e := Envelope(a, PlayerUpdate(msg));
            Pair(env, Turn(env, s, e), a, b) && EffectOn(s, e, 1) == Update(msg)
  {
    hide First, SeatingOk, TickActors, Evaluate, Accepts, KeepsIds, Extends, HeadOk, Named, Broadcast;
    var e := Envelope(a, PlayerUpdate(msg));
    assert FindConnection(s.players, a) == 0 && FindPlayer(s.players, 1) == 0;
    TurnKeepsSeating(env, s, e);
    TurnKeepsHead(env, s, e);
    TurnKeepsNames(env, s, e);
  }

  lemma InputTurn(env: Env, s: Session, a: nat, b: nat, tick: nat, form: nat)
    requires Pair(env, s, a, b)
    ensures var e := Envelope(a, InputState(tick, form));
            Pair(env, Turn(env, s, e), a, b) && EffectOn(s, e, 1) == Equip(form)
  {
    hide First, SeatingOk, TickActors, KeepsIds, Extends, HeadOk, Named, Broadcast;
    var e := Envelope(a, InputState(tick, form));
    assert FindConnection(s.players, a) == 0 && FindPlayer(s.players, 1) == 0;
    TurnKeepsSeating(env, s, e);
    TurnKeepsHead(env, s, e);
    TurnKeepsNames(env, s, e);
  }

  lemma PairHasBoth(env: Env, s: Session, a: nat, b: nat)
    requires Pair(env, s, a, b)
    ensures HasConn(s.players, a) && HasConn(s.players, b)
  {
    hide HeadOk, SeatingOk, Named, HasConn;
    SlotHasConn(s.players, 0);
    SlotHasConn(s.players, 1);
  }

  lemma LeaveTurn(env: Env, s: Session, a: nat, b: nat)
    requires Pair(env, s, a, b)
    ensures var e := Envelope(a, Disconnect);
            && EffectOn(s, e, 1) == Nothing
            && PlayerLeft(1) in Received(Transmitted(env, s, e), b)
  {
    hide First, SeatingOk, Tick, Named, Broadcast, Received, HasConn, Lifecycle.ActorsOk, Lifecycle.AllAlive,
         Workshop.WorkshopOk;
    var e := Envelope(a, Disconnect);
    assert FindConnection(s.players, a) == 0 && FindPlayer(s.players, 1) == 0;
    var o, h := Handle(env, s, e), Heard(s, 1);
    SlotHasConn(h.players, 1);
    TurnFitsQueue(env, s, e);
    ReceivedBroadcast(h.players, PlayerLeft(1), b);
    ReceivedAppend(o.sends, Tick(o.session).1, b);
    assert Received(o.sends, b)[0] == PlayerLeft(1);
  }

  /** A state the filter takes is what the second client is told, and what the service then stores. */
  lemma StateIsTold(env: Env, s: Session, a: nat, b: nat, msg: PlayerState)
    requires Pair(env, s, a, b) && msg.playerId == 1 && Accepts(KeptOf(s, 1).stats, msg)
    ensures var e := Envelope(a, PlayerUpdate(msg));
            var t, told := Turn(env, s, e), Told(env, s, e, b, 1);
            && Pair(env, t, a, b) && KeptOf(t, 1) == Convergence.Relayed(KeptOf(s, 1), msg)
            && told != [] && forall k :: 0 <= k < |told| ==> told[k] == msg
  {
    hide Turn, SeatingOk, HeadOk, Named, Told, EffectOn, Accepts, Evaluate;
    var e := Envelope(a, PlayerUpdate(msg));
    StateTurn(env, s, a, b, msg);
    TurnOnSlot(env, s, e, 1);
    PairHasBoth(env, Turn(env, s, e), a, b);
    AcceptedIsTold(env, s, e, b, 1);
    ToldIsStored(env, s, e, b, 1);
  }

  lemma FreshTakes(msg: PlayerState)
    ensures Accepts(Convergence.FRESH.stats, msg)
  {
  }

  lemma OneMore(env: Env, s: Session, es: seq<Envelope>, e: Envelope, client: nat, id: nat)
    ensures Run(env, s, es + [e]) == Turn(env, Run(env, s, es), e)
    ensures ToldOver(env, s, es + [e], client, id)
         == ToldOver(env, s, es, client, id) + Told(env, Run(env, s, es), e, client, id)
  {
    hide Turn, Told;
    assert (es + [e])[..|es|] == es;
  }

  // ---- an input state before the first state -------------------------------------------------------------------

  /** Equipment chosen before the first state is stored, and nobody is told. */
  lemma EarlyEquipmentIsUntold(env: Env, a: nat, b: nat, profile: Profile, tick: nat, form: nat)
    requires a != b
    ensures var es := Joins(a, b, profile) + [Envelope(a, InputState(tick, form))];
            var t := Run(env, START, es);
            && Pair(env, t, a, b) && KeptOf(t, 1).stored.equipped == form
            && ToldOver(env, START, es, b, 1) == []
  {
    hide Turn, SeatingOk, HeadOk, Named, EffectOn, Boot, Told, Run, ToldOver;
    var e := Envelope(a, InputState(tick, form));
    var m := Run(env, START, Joins(a, b, profile));
    PairJoins(env, a, b, profile);
    OneMore(env, START, Joins(a, b, profile), e, b, 1);
    InputTurn(env, m, a, b, tick, form);
    TurnOnSlot(env, m, e, 1);
    BlankIsUntold(env, m, e, b);
  }

  // ---- an input state behind a state that arrived ----------------------------------------------------------------

  lemma TakenIsNotTakenAgain(st: Stage.Stage, msg: PlayerState)
    requires StageAgreement.StageOk(st) && StageAgreement.ContractFits(st.contract, st.localId)
    requires !Stage.Ignored(st, msg.playerId) && Takes(st, msg) && msg.observedTick >= 1
    ensures !Takes(Stage.ApplyState(st, msg).1, msg)
  {
    hide First, StageAgreement.StageOk, Stage.ApplyState, StageAgreement.ContractFits;
    if StageAgreement.Live(st, msg.playerId) {
      StageRelay.StateOnRecord(st, msg, msg.playerId);
    } else {
      StageRelay.FirstMessage(st, msg);
    }
  }

  /** After copies of a state that it took, the stage shows the state's equipment and takes no further copy. */
  lemma {:induction false} CopiesSettle(st: Stage.Stage, copies: seq<PlayerState>, msg: PlayerState)
    requires StageAgreement.StageOk(st) && StageAgreement.ContractFits(st.contract, st.localId)
    requires !Stage.Ignored(st, msg.playerId) && Takes(st, msg) && msg.observedTick >= 1
    requires copies != [] && forall k :: 0 <= k < |copies| ==> copies[k] == msg
    ensures var after := Stage.ApplyStates(st, copies);
            && StageAgreement.StageOk(after) && after.contract == st.contract && after.localId == st.localId
            && Shows(after, msg.playerId, msg.equipped) && !Takes(after, msg)
  {
    hide StageAgreement.StageOk, StageAgreement.ContractFits, Shows, Takes, Stage.ApplyState;
    CopiesShowIff(st, copies, msg);
    var front := copies[..|copies| - 1];
    if front == [] {
      assert Stage.ApplyStates(st, front) == st;
      TakenIsNotTakenAgain(st, msg);
    } else {
      CopiesSettle(st, front, msg);
      StateShowsIff(Stage.ApplyStates(st, front), msg);
    }
  }

  lemma {:induction false} ApplyStatesAppend(st: Stage.Stage, a: seq<PlayerState>, b: seq<PlayerState>)
    ensures Stage.ApplyStates(st, a + b) == Stage.ApplyStates(Stage.ApplyStates(st, a), b)
  {
    hide Stage.Next;
    if b == [] {
      assert a + b == a;
    } else {
      ApplyStatesAppend(st, a, b[..|b| - 1]);
      assert (a + b)[..|a + b| - 1] == a + b[..|b| - 1];
    }
  }

  lemma ClearedTakes(c: Stage.Contract, localId: nat, msg: PlayerState)
    requires StageAgreement.ContractFits(c, localId)
    ensures var st := Stage.Cleared(c, localId);
            StageAgreement.StageOk(st) && st.contract == c && st.localId == localId && Takes(st, msg)
  {
    hide First, StageAgreement.StageOk, Stage.Cleared, StageRelay.HasRoom;
    StageAgreement.ClearedIsOk(c, localId);
    StageAgreement.ClearedConfig(c, localId);
    StageRoom.ClearedIsEmpty(c, localId, msg.playerId);
    ClearedHasRoom(c, localId, msg.playerId);
  }

  lemma ClearedHasRoom(c: Stage.Contract, localId: nat, id: nat)
    ensures StageRelay.HasRoom(Stage.Cleared(c, localId), id)
  {
    assert !Stage.Cleared(c, localId).scene[0].inUse;
  }

  /** From boot, two players join, the first sends a state and then changes its equipment: the service stores the new
      equipment, and the client that handled everything it was told, in order, shows the old. */
  lemma ChangedEquipmentIsLost(
      env: Env, a: nat, b: nat, profile: Profile, msg: PlayerState, tick: nat, form: nat, c: Stage.Contract)
    requires a != b && msg.playerId == 1 && msg.observedTick >= 1 && msg.equipped != form
    requires StageAgreement.ContractFits(c, 2)
    ensures var es := Joins(a, b, profile) + [Envelope(a, PlayerUpdate(msg))] + [Envelope(a, InputState(tick, form))];
            var t, st := Run(env, START, es), Stage.ApplyStates(Stage.Cleared(c, 2), ToldOver(env, START, es, b, 1));
            && Pair(env, t, a, b) && KeptOf(t, 1).stored.equipped == form
            && Shows(st, 1, msg.equipped) && !Shows(st, 1, form)
  {
    hide Turn, SeatingOk, HeadOk, Named, EffectOn, Boot, Told, Run, ToldOver, StageAgreement.StageOk, Stage.Cleared,
         StageAgreement.ContractFits, Shows, Takes, Stage.ApplyStates, Evaluate, Accepts, HasConn;
    var es0 := Joins(a, b, profile);
    var e1, e2 := Envelope(a, PlayerUpdate(msg)), Envelope(a, InputState(tick, form));
    PairJoins(env, a, b, profile);
    var m0 := Run(env, START, es0);
    FreshTakes(msg);
    OneMore(env, START, es0, e1, b, 1);
    StateIsTold(env, m0, a, b, msg);
    var m1 := Turn(env, m0, e1);
    OneMore(env, START, es0 + [e1], e2, b, 1);
    InputTurn(env, m1, a, b, tick, form);
    PairHasBoth(env, Turn(env, m1, e2), a, b);
    var told := Told(env, m0, e1, b, 1);
    assert ToldOver(env, START, es0 + [e1], b, 1) == told;
    ClearedTakes(c, 2, msg);
    var st := Stage.ApplyStates(Stage.Cleared(c, 2), told);
    CopiesSettle(Stage.Cleared(c, 2), told, msg);
    ApplyStatesAppend(Stage.Cleared(c, 2), told, Told(env, m1, e2, b, 1));
    EquipmentReachesIff(env, m1, e2, 1, b, st);
    ShowsOne(st, 1, msg.equipped, form);
  }

  lemma ShowsOne(st: Stage.Stage, id: nat, shown: nat, other: nat)
    ensures Shows(st, id, shown) && shown != other ==> !Shows(st, id, other)
  {
  }

  // ---- a departure -------------------------------------------------------------------------------------------------

  /** From boot, two players join, the first sends two states and leaves. The service keeps the newer state; the second
      client is told of both and of the departure, and if a copy of the older one comes last, it ends with the first
      player back on stage, at the older state. */
  lemma DepartedReturns(env: Env, a: nat, b: nat, profile: Profile, older: PlayerState, newer: PlayerState,
      c: Stage.Contract)
    requires a != b && older.playerId == newer.playerId == 1 && StageAgreement.ContractFits(c, 2)
    requires 1 <= older.stateSequence < newer.stateSequence && 1 <= older.observedTick < newer.observedTick
    ensures var before := Joins(a, b, profile)
                + [Envelope(a, PlayerUpdate(older))] + [Envelope(a, PlayerUpdate(newer))];
            var leave := Envelope(a, Disconnect);
            var es, events := before + [leave], StageRoom.LateCopy(older, newer);
            var t, st := Run(env, START, es), Stage.Run(Stage.Cleared(c, 2), events);
            && PlayerLeft(1) in Received(Transmitted(env, Run(env, START, before), leave), b)
            && Hears(events, 1, ToldOver(env, START, es, b, 1))
            && |t.players| == MAX_PLAYERS && KeptOf(t, 1).stored == newer
            && StageAgreement.Live(st, 1)
            && StageRelay.RecordOf(st, 1) == Convergence.Record(older.stateSequence, older.observedTick)
  {
    hide Turn, SeatingOk, HeadOk, Named, EffectOn, Boot, Told, Run, ToldOver, Stage.Run, Stage.Cleared, Transmitted,
         StageAgreement.ContractFits, StageAgreement.Live, StageRelay.RecordOf, Received, StageRelay.Inbox;
    var es0 := Joins(a, b, profile);
    var e1, e2, e3 := Envelope(a, PlayerUpdate(older)), Envelope(a, PlayerUpdate(newer)), Envelope(a, Disconnect);
    PairJoins(env, a, b, profile);
    var m0 := Run(env, START, es0);
    FreshTakes(older);
    OneMore(env, START, es0, e1, b, 1);
    StateIsTold(env, m0, a, b, older);
    var m1 := Turn(env, m0, e1);
    OneMore(env, START, es0 + [e1], e2, b, 1);
    StateIsTold(env, m1, a, b, newer);
    var m2 := Turn(env, m1, e2);
    OneMore(env, START, es0 + [e1] + [e2], e3, b, 1);
    LeaveTurn(env, m2, a, b);
    TurnOnSlot(env, m2, e3, 1);
    assert Told(env, m0, e1, b, 1)[0] == older && Told(env, m1, e2, b, 1)[0] == newer;
    LateCopyInbox(older, newer);
    StageRoom.OldStateReturns(c, 2, older, newer);
  }

  lemma LateCopyInbox(older: PlayerState, newer: PlayerState)
    requires older.playerId == newer.playerId
    ensures StageRelay.Inbox(StageRoom.LateCopy(older, newer), older.playerId) == [older, newer, older]
  {
    var es, id := StageRoom.LateCopy(older, newer), older.playerId;
    assert es[..3][..2] == es[..2] && es[..2][..1] == es[..1] && es[..1][..0] == [];
    assert StageRelay.Inbox(es[..1], id) == [older];
    assert StageRelay.Inbox(es[..2], id) == [older, newer];
    assert StageRelay.Inbox(es[..3], id) == [older, newer];
  }
}
