/** Movement replication from end to end: the emitter of one player, any run of the server loop, and the stage of
    another player's client, joined by two networks that lose, repeat and reorder. */
module Replication {
  import opened Slots
  import opened Protocol
  import opened Relay
  import opened Session
  import opened Seating
  import opened Delivery
  import opened MirrorTurns
  import opened SessionRelay
  import opened StateNews
  import Convergence
  import Movement
  import Service
  import Stage
  import StageAgreement
  import StageRelay
  import StageRoom

  /** What a client is told about a player over a run. */
  function ToldOver(env: Env, s: Session, es: seq<Envelope>, client: nat, id: nat): seq<PlayerState> {
    if es == [] then []
    else
      var before := es[..|es| - 1];
      ToldOver(env, s, before, client, id) + Told(env, Run(env, s, before), es[|es| - 1], client, id)
  }

  /** The slot of `id` was fresh when the run began, nobody took it over, and what reached it is the delivery `d`. */
  ghost predicate Follows(env: Env, s: Session, es: seq<Envelope>, id: nat, msgs: seq<PlayerState>, d: seq<nat>) {
    && HeadOk(env, s) && Named(s.players) && 1 <= id < MAX_PLAYERS && KeptOf(s, id) == Convergence.FRESH
    && Occupied(env, s, es, id) && Movement.Numbered(msgs) && Convergence.Delivery(msgs, d)
    && Updates(env, s, es, id) == Convergence.Picked(msgs, d)
  }

  /** The delivery without what the last turn of the run handled. */
  function Earlier(env: Env, s: Session, es: seq<Envelope>, id: nat, d: seq<nat>): seq<nat> {
    if es != [] && d != [] && EffectOn(Run(env, s, es[..|es| - 1]), es[|es| - 1], id).Update? then d[..|d| - 1] else d
  }

  lemma FollowsBefore(env: Env, s: Session, es: seq<Envelope>, id: nat, msgs: seq<PlayerState>, d: seq<nat>)
    requires Follows(env, s, es, id, msgs, d) && es != []
    ensures Follows(env, s, es[..|es| - 1], id, msgs, Earlier(env, s, es, id, d))
    ensures var effect := EffectOn(Run(env, s, es[..|es| - 1]), es[|es| - 1], id);
            !effect.Restart? && (effect.Update? ==> d != [] && effect.msg == msgs[d[|d| - 1]])
  {
    hide HeadOk, Named, KeptOf, EffectOn, Occupied, Movement.Numbered, Run;
    OccupiedBefore(env, s, es, id);
    var before := es[..|es| - 1];
    var effect := EffectOn(Run(env, s, before), es[|es| - 1], id);
    if effect.Update? {
      assert |Updates(env, s, es, id)| == |d|;
      var newest := msgs[d[|d| - 1]];
      assert Convergence.Picked(msgs, d) == Convergence.Picked(msgs, d[..|d| - 1]) + [newest];
      SameEnds(Updates(env, s, before, id), effect.msg, Convergence.Picked(msgs, d[..|d| - 1]), newest);
    } else {
      assert Updates(env, s, es, id) == Updates(env, s, before, id);
    }
  }

  /** What the slot holds at the end: the newest message delivered, but for its equipment. */
  lemma SlotHoldsNewest(env: Env, s: Session, es: seq<Envelope>, id: nat, msgs: seq<PlayerState>, d: seq<nat>)
    requires Follows(env, s, es, id, msgs, d)
    ensures 1 <= id < MAX_PLAYERS
    ensures var t := Run(env, s, es);
            && HeadOk(env, t) && SeatingOk(t) && Named(t.players) && |t.players| == MAX_PLAYERS
            && var kept := KeptOf(t, id);
               if d == [] then kept.stored.playerId == 0 && kept.stats == NO_STATS
               else
                 && kept.stats.lastSequence == Convergence.Newest(d) + 1
                 && kept.stats.lastTick == msgs[Convergence.Newest(d)].observedTick
                 && kept.stored.stateSequence == kept.stats.lastSequence
                 && kept.stored.observedTick == kept.stats.lastTick >= 1
                 && Convergence.Dated(kept.stored, msgs)
  {
    hide Run, Occupied, NoInputs, SeatingOk, Updates, Lifecycle.ActorsOk, Lifecycle.AllAlive, Workshop.WorkshopOk,
         Convergence.Maxima, Convergence.Newest, Named;
    RunKeepsHead(env, s, es);
    RunKeepsNames(env, s, es);
    OccupancyFoldsUpdates(env, s, es, id, msgs, d);
    if d != [] { Convergence.ServiceConverges(msgs, d); }
  }

  lemma {:induction false} AboutNames(msgs: seq<Message>, id: nat)
    ensures forall k :: 0 <= k < |About(msgs, id)| ==> About(msgs, id)[k].playerId == id
  {
    if msgs != [] { AboutNames(msgs[..|msgs| - 1], id); }
  }

  /** Over any run, among any other traffic, what a client is told about a player is dated by the player's emission and
      never ahead of the slot; and a client that stays connected has last been told what the slot now holds. */
  lemma {:induction false} ToldFollowsSlot(
      env: Env, s: Session, es: seq<Envelope>, id: nat, msgs: seq<PlayerState>, d: seq<nat>, client: nat)
    requires Follows(env, s, es, id, msgs, d)
    ensures |Run(env, s, es).players| == MAX_PLAYERS
    ensures var told, kept := ToldOver(env, s, es, client, id), KeptOf(Run(env, s, es), id);
            && Convergence.AllDated(told, msgs) && (d == [] ==> told == [])
            && (forall k :: 0 <= k < |told| ==> told[k].stateSequence <= kept.stats.lastSequence)
            && (d != [] && Stays(env, s, es, client) ==>
                  told != [] && told[|told| - 1].stateSequence == kept.stats.lastSequence)
    decreases |es|
  {
    hide Follows, Run, Turn, Told, KeptOf, Stays, Earlier, SeatingOk, Named, HeadOk, EffectOn, Convergence.Dated,
         HasConn;
    SlotHoldsNewest(env, s, es, id, msgs, d);
    if es == [] {
      NoTurnsNoUpdates(env, s, id, msgs, d);
    } else {
      var before, e := es[..|es| - 1], es[|es| - 1];
      var m, earlier := Run(env, s, before), Earlier(env, s, es, id, d);
      FollowsBefore(env, s, es, id, msgs, d);
      ToldFollowsSlot(env, s, before, id, msgs, earlier, client);
      SlotHoldsNewest(env, s, before, id, msgs, earlier);
      OneTurn(env, m, e, id, client);
      assert Run(env, s, es) == Turn(env, m, e) by { RunSnoc(env, s, es); }
      NewestGrows(env, s, es, id, msgs, d);
      var earlierTold, last := ToldOver(env, s, before, client, id), Told(env, m, e, client, id);
      assert last != [] ==> last[0].playerId == id;
      assert forall k :: 0 <= k < |earlierTold + last| ==>
          (earlierTold + last)[k] in earlierTold || (earlierTold + last)[k] in last;
      if d != [] && Stays(env, s, es, client) {
        StaysBefore(env, s, es, client);
        EarlierEmpty(env, s, es, id, d);
      }
    }
  }

  lemma RunSnoc(env: Env, s: Session, es: seq<Envelope>)
    requires es != []
    ensures Run(env, s, es) == Turn(env, Run(env, s, es[..|es| - 1]), es[|es| - 1])
  {
    hide Turn;
  }

  lemma EarlierEmpty(env: Env, s: Session, es: seq<Envelope>, id: nat, d: seq<nat>)
    requires es != [] && d != []
    ensures Earlier(env, s, es, id, d) == [] ==> EffectOn(Run(env, s, es[..|es| - 1]), es[|es| - 1], id).Update?
  {
    hide EffectOn, Run;
  }

  /** What the newest delivery is can only grow. */
  lemma NewestGrows(env: Env, s: Session, es: seq<Envelope>, id: nat, msgs: seq<PlayerState>, d: seq<nat>)
    requires Follows(env, s, es, id, msgs, d)
    ensures var earlier := Earlier(env, s, es, id, d);
            earlier != [] ==> d != [] && Convergence.Newest(earlier) <= Convergence.Newest(d)
  {
    hide EffectOn, Run, Follows;
    var earlier := Earlier(env, s, es, id, d);
    if earlier != [] {
      var k :| 0 <= k < |earlier| && earlier[k] == Convergence.Newest(earlier);
      assert d[k] == earlier[k];
    }
  }

  /** One turn: what is told is what is then stored, and a connected client that is told nothing has missed nothing. */
  lemma OneTurn(env: Env, m: Session, e: Envelope, id: nat, client: nat)
    requires HeadOk(env, m) && SeatingOk(m) && Named(m.players) && |m.players| == MAX_PLAYERS && 1 <= id < MAX_PLAYERS
    requires !EffectOn(m, e, id).Restart?
    ensures var t := Turn(env, m, e);
            && |t.players| == MAX_PLAYERS
            && var told := Told(env, m, e, client, id);
               && (forall k :: 0 <= k < |told| ==> told[k] == KeptOf(t, id).stored && told[k].playerId == id)
               && (told == [] && HasConn(t.players, client) ==>
                     && KeptOf(t, id).stats.lastSequence == KeptOf(m, id).stats.lastSequence
                     && (EffectOn(m, e, id).Update? ==> KeptOf(m, id).stats != NO_STATS))
  {
    hide HeadOk, SeatingOk, Named, Turn, EffectOn, Transmitted, Received, HasConn;
    ToldIsStored(env, m, e, client, id);
    AboutNames(Received(Transmitted(env, m, e), client), id);
    TurnOnSlot(env, m, e, id);
    if HasConn(Turn(env, m, e).players, client) && EffectOn(m, e, id).Update?
       && Accepts(KeptOf(m, id).stats, EffectOn(m, e, id).msg) {
      AcceptedIsTold(env, m, e, client, id);
    }
  }

  lemma NoTurnsNoUpdates(env: Env, s: Session, id: nat, msgs: seq<PlayerState>, d: seq<nat>)
    requires Follows(env, s, [], id, msgs, d)
    ensures d == []
  {
  }

  // ---- from emitter to stage -----------------------------------------------------------------------------------

  /** The stage's events say about the player nothing but what the client was told, in any order, with any loss and
      repetition, and about other players nothing the service would not say. */
  ghost predicate Hears(events: seq<Stage.Event>, id: nat, told: seq<PlayerState>) {
    StageRoom.FromService(events) && forall m :: m in StageRelay.Inbox(events, id) ==> m in told
  }

  /** The whole way. A player's emission reaches the server loop in any order, with loss and repetition, among whatever
      else the loop handles. What the loop tells a client that stays connected reaches the client's stage in any order,
      with loss and repetition, among whatever else the stage does, departures included. The player is on stage if and
      only if something of it arrived since it last left; the stage never gets ahead of the service; and its record is
      the service's if and only if a message with the service's sequence arrived since then. The last thing the client
      was told is one. */
  lemma EndToEnd(
      env: Env, s: Session, es: seq<Envelope>, id: nat, cfg: Movement.Config, caps: seq<Movement.Observed>, d: seq<nat>,
      client: nat, c: Stage.Contract, localId: nat, events: seq<Stage.Event>)
    requires Follows(env, s, es, id, Movement.Emitted(cfg, caps), d) && d != [] && Stays(env, s, es, client)
    requires StageAgreement.ContractFits(c, localId) && id != localId
    requires Hears(events, id, ToldOver(env, s, es, client, id))
    ensures |Run(env, s, es).players| == MAX_PLAYERS && 1 <= id < MAX_PLAYERS
    ensures var after, kept := Stage.Run(Stage.Cleared(c, localId), events), KeptOf(Run(env, s, es), id);
            var told, since := ToldOver(env, s, es, client, id), StageRelay.Since(events, id);
            && kept.stored.stateSequence == Convergence.Newest(d) + 1
            && told != [] && told[|told| - 1].stateSequence == kept.stored.stateSequence
            && (StageAgreement.Live(after, id) <==> since != [])
            && (StageAgreement.Live(after, id) ==>
                  var record := StageRelay.RecordOf(after, id);
                  && 1 <= record.sequence <= kept.stored.stateSequence
                  && (record == Convergence.Record(kept.stored.stateSequence, kept.stored.observedTick) <==>
                        exists k :: 0 <= k < |since| && since[k].stateSequence == kept.stored.stateSequence))
  {
    hide Follows, Run, KeptOf, Stays, StageAgreement.ContractFits, StageRelay.Roomy, Stage.Run, Stage.Cleared,
         StageRelay.Since, StageRelay.Inbox, StageRelay.RecordOf, StageAgreement.Live, Movement.Emitted, ToldOver,
         Convergence.Latest, Convergence.Newest, StageAgreement.StageOk, Convergence.Dated;
    var msgs, told := Movement.Emitted(cfg, caps), ToldOver(env, s, es, client, id);
    ToldFollowsSlot(env, s, es, id, msgs, d, client);
    SlotHoldsNewest(env, s, es, id, msgs, d);
    var st, since := Stage.Cleared(c, localId), StageRelay.Since(events, id);
    StageRelay.SinceIsDelivered(events, id);
    forall k | 0 <= k < |since|
      ensures Convergence.Dated(since[k], msgs)
      ensures since[k].stateSequence <= KeptOf(Run(env, s, es), id).stats.lastSequence
    {
      assert since[k] in since;
      var j :| 0 <= j < |told| && told[j] == since[k];
    }
    StageAgreement.ClearedIsOk(c, localId);
    StageAgreement.ClearedConfig(c, localId);
    StageRoom.ClearedIsEmpty(c, localId, id);
    StageRoom.ServiceFindsRoom(c, localId, events, id);
    StageRelay.StageConverges(st, events, id, cfg, caps);
  }

  // ---- from boot ------------------------------------------------------------------------------------------

  /** In every reachable state the slots are as `Follows` wants them at the start of a run. */
  lemma ReachableIsNamed(env: Env, c: Service.Config, es: seq<Envelope>)
    requires Service.DistinctPlots(c)
    ensures HeadOk(env, Run(env, Service.Boot(c), es)) && Named(Run(env, Service.Boot(c), es).players)
  {
    hide HeadOk, Run;
    Service.BootIsOk(env, c);
    Service.ReachableIsOk(env, c, es);
    RunKeepsNames(env, Service.Boot(c), es);
  }

  /** Player 1 sits in the first slot at `conn`, and nobody ever times out. */
  ghost predicate SeatedFirst(s: Session, conn: nat) {
    && SeatingOk(s) && |s.players| == MAX_PLAYERS && s.timeout == 0
    && s.players[0].connected && s.players[0].id == 1 && s.players[0].conn == conn
  }

  lemma HelloSeatsFirst(env: Env, s: Session, conn: nat, guid: string, profile: Profile)
    requires SeatingOk(s) && |s.players| == MAX_PLAYERS && s.timeout == 0
    requires Seat(s, conn, guid).Some? && Seat(s, conn, guid).value.0 == 1
    ensures SeatedFirst(Turn(env, s, Envelope(conn, Hello(guid, profile))), conn)
  {
    hide First, ExistingState, Seat, SeatingOk, TickActors, KeepsIds, Extends;
    var e := Envelope(conn, Hello(guid, profile));
    SeatFindsSlot(s, conn, guid);
    TurnKeepsSeating(env, s, e);
  }

  lemma UpdateKeepsFirst(env: Env, s: Session, conn: nat, msg: PlayerState)
    requires SeatedFirst(s, conn) && msg.playerId == 1
    ensures var e := Envelope(conn, PlayerUpdate(msg));
            SeatedFirst(Turn(env, s, e), conn) && EffectOn(s, e, 1) == Update(msg)
                && Turn(env, s, e).registry == s.registry
  {
    hide First, SeatingOk, TickActors, Evaluate, Accepts, KeepsIds, Extends;
    var e := Envelope(conn, PlayerUpdate(msg));
    assert FindConnection(s.players, conn) == 0 && FindPlayer(s.players, 1) == 0;
    TurnKeepsSeating(env, s, e);
  }

  /** Join, send a state, reconnect after a restart, send the first states of a new emission. */
  function RestartRun(conn: nat, guid: string, profile: Profile, before: PlayerState,
      after: PlayerState): seq<Envelope> {
    [Envelope(conn, Hello(guid, profile)), Envelope(conn, PlayerUpdate(before)),
     Envelope(conn, Hello(guid, profile)), Envelope(conn, PlayerUpdate(after))]
  }

  /** The restart happens: from boot, four turns lead to a slot that ignores a connected player's only state since it
      came back, for every state that has not caught up with the one sent before. */
  lemma RestartIsReachable(env: Env, conn: nat, guid: string, profile: Profile, before: PlayerState, after: PlayerState)
    requires 1 <= |guid| <= MAX_STORED_GUID && before.playerId == after.playerId == 1
    requires before.stateSequence >= 1 && before.observedTick >= 1 && 1 <= after.stateSequence
               && 1 <= after.observedTick
    requires !Convergence.CaughtUp(RelayStats(1, 0, 0, before.stateSequence, before.observedTick), after)
    ensures var t := Run(env, Service.Boot(Service.DefaultConfig(0)), RestartRun(conn, guid, profile, before, after));
            SeatedFirst(t, conn) && KeptOf(t, 1).stored == before && KeptOf(t, 1).stats.accepted == 1
  {
    hide Turn, SeatingOk, Seat, HandleHello, EffectOn, Service.Boot;
    var es := RestartRun(conn, guid, profile, before, after);
    var c := Service.DefaultConfig(0);
    var s0 := Service.Boot(c);
    RunOfFour(env, s0, es);
    BootFacts(env, 0);
    Service.FirstSeat(c, conn, guid);
    HelloSeatsFirst(env, s0, conn, guid, profile);
    var s1 := Turn(env, s0, es[0]);
    FirstHello(env, c, conn, guid, profile);
    UpdateKeepsFirst(env, s1, conn, before);
    TurnOnSlot(env, s1, es[1], 1);
    var s2 := Turn(env, s1, es[1]);
    Rejoins(s2, conn, guid, profile);
    HelloSeatsFirst(env, s2, conn, guid, profile);
    TurnOnSlot(env, s2, es[2], 1);
    var s3 := Turn(env, s2, es[2]);
    UpdateKeepsFirst(env, s3, conn, after);
    TurnOnSlot(env, s3, es[3], 1);
  }

  lemma RunOfFour(env: Env, s: Session, es: seq<Envelope>)
    requires |es| == 4
    ensures Run(env, s, es) == Turn(env, Turn(env, Turn(env, Turn(env, s, es[0]), es[1]), es[2]), es[3])
  {
    hide Turn, Run;
    RunSnoc(env, s, es);
    RunSnoc(env, s, es[..3]);
    RunSnoc(env, s, es[..2]);
    RunSnoc(env, s, es[..1]);
    assert es[..3][..2] == es[..2] && es[..2][..1] == es[..1] && es[..1][..0] == [];
    RunNothing(env, s);
  }

  lemma RunNothing(env: Env, s: Session)
    ensures Run(env, s, []) == s
  {
  }

  lemma BootFacts(env: Env, timeout: nat)
    ensures var s := Service.Boot(Service.DefaultConfig(timeout));
            SeatingOk(s) && |s.players| == MAX_PLAYERS && s.timeout == timeout && FreeBinding(s.registry) < |s.registry|
  {
    Service.BootIsOk(env, Service.DefaultConfig(timeout));
  }

  /** The first HELLO starts slot 1 afresh and binds its GUID. */
  lemma FirstHello(env: Env, c: Service.Config, conn: nat, guid: string, profile: Profile)
    requires c == Service.DefaultConfig(0) && 1 <= |guid| <= MAX_STORED_GUID
    ensures var s, e := Service.Boot(c), Envelope(conn, Hello(guid, profile));
            var t := Turn(env, s, e);
            && |t.players| == MAX_PLAYERS && KeptOf(t, 1) == Convergence.FRESH
            && FindBinding(t.registry, guid) < |t.registry| && t.registry[FindBinding(t.registry, guid)].player == 1
  {
  }

  lemma Rejoins(s: Session, conn: nat, guid: string, profile: Profile)
    requires SeatingOk(s) && FindBinding(s.registry, guid) < |s.registry|
    requires s.registry[FindBinding(s.registry, guid)].player == 1
    ensures Seat(s, conn, guid).Some? && Seat(s, conn, guid).value.0 == 1
    ensures EffectOn(s, Envelope(conn, Hello(guid, profile)), 1) == Nothing
  {
    hide First, Seat, SeatingOk;
    RejoinFindsSlot(s, conn, guid);
  }
}
