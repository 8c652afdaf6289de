/** A change of equipment by input state: what the service stores, what it sends, and when a client shows it. */
module Equipment {
  import opened Slots
  import opened Protocol
  import opened Session
  import opened Seating
  import opened QueueBound
  import opened Delivery
  import opened MirrorTurns
  import opened SessionRelay
  import opened StateNews
  import opened Replication
  import Convergence
  import Movement
  import Stage
  import StageAgreement
  import StageRelay

  // ---- on the stage ------------------------------------------------------------------------------------------

  /** The client shows the player with this equipment. */
  predicate Shows(st: Stage.Stage, id: nat, form: nat) {
    StageAgreement.Live(st, id) && st.runtime[Stage.HeldRuntime(st.runtime, id)].equipped == form
  }

  /** The stage takes the state: it is not stale for a player on stage, and there is room for one who is not. */
  predicate Takes(st: Stage.Stage, msg: PlayerState) {
    if StageAgreement.Live(st, msg.playerId)
    then !Stage.StaleFor(st.runtime[Stage.HeldRuntime(st.runtime, msg.playerId)], msg)
    else StageRelay.HasRoom(st, msg.playerId)
  }

  lemma UpdateShows(st: Stage.Stage, msg: PlayerState)
    requires StageAgreement.StageOk(st) && StageAgreement.Live(st, msg.playerId) && Takes(st, msg)
    ensures var after := Stage.UpdateHeld(st, Stage.HeldRuntime(st.runtime, msg.playerId), msg).1;
            StageAgreement.StageOk(after) && Shows(after, msg.playerId, msg.equipped)
  {
    hide First, StageAgreement.StageOk, Stage.UpdateHeld, StageAgreement.DistinctRuntime;
    var k := Stage.HeldRuntime(st.runtime, msg.playerId);
    var after := Stage.UpdateHeld(st, k, msg).1;
    StageAgreement.UpdateKeepsStage(st, k, msg);
    StageRelay.Distinctness(after);
    StageRelay.OwnSlotFound(st.runtime, k, after.runtime[k]);
  }

  /** After a state the client shows its equipment if and only if the stage took the state or showed that equipment
      before; a state that is not taken changes nothing. */
  lemma StateShowsIff(st: Stage.Stage, msg: PlayerState)
    requires StageAgreement.StageOk(st) && StageAgreement.ContractFits(st.contract, st.localId)
    requires !Stage.Ignored(st, msg.playerId)
    ensures var after := Stage.ApplyState(st, msg).1;
            && StageAgreement.StageOk(after) && after.contract == st.contract && after.localId == st.localId
            && (Shows(after, msg.playerId, msg.equipped) <==> Takes(st, msg) || Shows(st, msg.playerId, msg.equipped))
            && (!Takes(st, msg) ==> after == st)
  {
    hide First, StageAgreement.StageOk, Stage.UpdateHeld, Stage.SceneSpawn, Stage.SceneUpdate;
    var id := msg.playerId;
    StageAgreement.AcceptedStateKeepsStage(st, msg);
    if StageAgreement.Live(st, id) {
      StageAgreement.UpdateKeepsStage(st, Stage.HeldRuntime(st.runtime, id), msg);
      if Takes(st, msg) { UpdateShows(st, msg); }
    } else {
      StageAgreement.SpawnKeepsStage(st, id, msg.position, msg.rotation, msg.equipped);
      if Takes(st, msg) {
        var st1 := Stage.SceneSpawn(st, id, msg.position, msg.rotation, msg.equipped).1;
        Stage.SpawnedIsBlank(st, id, msg.position, msg.rotation, msg.equipped);
        UpdateShows(st1, msg);
      }
    }
  }

  /** The same for any number of copies of one state. */
  lemma {:induction false} CopiesShowIff(st: Stage.Stage, copies: seq<PlayerState>, msg: PlayerState)
    requires StageAgreement.StageOk(st) && StageAgreement.ContractFits(st.contract, st.localId)
    requires !Stage.Ignored(st, msg.playerId) && forall k :: 0 <= k < |copies| ==> copies[k] == msg
    ensures var after := Stage.ApplyStates(st, copies);
            && StageAgreement.StageOk(after) && after.contract == st.contract && after.localId == st.localId
            && (Shows(after, msg.playerId, msg.equipped) <==>
                  Shows(st, msg.playerId, msg.equipped) || (copies != [] && Takes(st, msg)))
            && (!Takes(st, msg) ==> after == st)
  {
    hide StageAgreement.StageOk, StageAgreement.ContractFits, Shows, Takes, Stage.ApplyState;
    if copies != [] {
      var front := copies[..|copies| - 1];
      CopiesShowIff(st, front, msg);
      var mid := Stage.ApplyStates(st, front);
      StateShowsIff(mid, msg);
      if front == [] { assert mid == st; }
    }
  }

  // ---- what an input state sends -------------------------------------------------------------------------------

  lemma InputSends(env: Env, s: Session, e: Envelope, id: nat)
    requires SeatingOk(s) && 1 <= id < MAX_PLAYERS && |s.players| == MAX_PLAYERS && EffectOn(s, e, id).Equip?
    ensures var o := Handle(env, s, e);
            && o.accepted && !e.request.Hello? && |o.session.players| == MAX_PLAYERS
            && o.session.players[id - 1].state == s.players[id - 1].state.(equipped := EffectOn(s, e, id).form)
            && o.sends == Broadcast(o.session.players, PlayerStateMsg(o.session.players[id - 1].state))
  {
    hide First, Broadcast;
    PlayerSlot(s.players, s.tick, id);
  }

  /** The service notes the client's tick, and the equipment in the state and in the profile, and nothing else but that
      it heard of the player. */
  lemma InputNotes(env: Env, s: Session, e: Envelope, id: nat)
    requires SeatingOk(s) && 1 <= id < MAX_PLAYERS && |s.players| == MAX_PLAYERS && EffectOn(s, e, id).Equip?
    ensures e.request.InputState? && |Handle(env, s, e).session.players| == MAX_PLAYERS
    ensures var p, q, form := s.players[id - 1], Handle(env, s, e).session.players[id - 1], e.request.equipped;
            && q.lastInput == e.request.clientTick && q.state == p.state.(equipped := form)
            && q.profile == p.profile.(stats := p.profile.stats.(equipped := form)) && q.relay == p.relay
            && q.connected == p.connected && q.conn == p.conn && q.id == p.id && q.lastHeard == s.tick
  {
    hide First, Broadcast;
    PlayerSlot(s.players, s.tick, id);
  }

  /** An input state is sent to every client that stays connected, if and only if the player has sent a state before:
      until then the stored state names nobody. */
  lemma InputIsToldIffNamed(env: Env, s: Session, e: Envelope, client: nat, id: nat)
    requires HeadOk(env, s) && Named(s.players) && 1 <= id < MAX_PLAYERS && |s.players| == MAX_PLAYERS
    requires EffectOn(s, e, id).Equip? && HasConn(Turn(env, s, e).players, client)
    ensures Told(env, s, e, client, id) != [] <==> s.players[id - 1].state.playerId == id
  {
    hide SeatingOk, Lifecycle.ActorsOk, Lifecycle.AllAlive, Workshop.WorkshopOk, Tick, First, Broadcast, About,
         Received, HasConn, Turn, EffectOn, Handle, Named;
    var o := Handle(env, s, e);
    InputSends(env, s, e, id);
    ToldIsStored(env, s, e, client, id);
    TurnOnSlot(env, s, e, id);
    AboutNames(Received(Transmitted(env, s, e), client), id);
    var told := Told(env, s, e, client, id);
    assert told == [] || told[0].playerId == id;
    if s.players[id - 1].state.playerId == id {
      var state := o.session.players[id - 1].state;
      TickConn(env, s, e, client);
      TurnFitsQueue(env, s, e);
      ReceivedBroadcast(o.session.players, PlayerStateMsg(state), client);
      AboutSame(Received(o.sends, client), state);
      ReceivedAppend(o.sends, Tick(o.session).1, client);
      AboutAppend(Received(o.sends, client), Received(Tick(o.session).1, client), id);
    }
  }

  // ---- when it arrives -------------------------------------------------------------------------------------------

  lemma TakesIgnoresEquipment(st: Stage.Stage, msg: PlayerState, form: nat)
    ensures Takes(st, msg.(equipped := form)) <==> Takes(st, msg)
  {
    hide First;
  }

  /** An input state changes the equipment the service stores. A connected client that handles all it is told of it
      shows the new equipment if and only if it showed it already, or the player has sent a state before and the stage
      takes that state once more. A client that is up to date does not. */
  lemma EquipmentReachesIff(env: Env, m: Session, e: Envelope, id: nat, client: nat, st: Stage.Stage)
    requires HeadOk(env, m) && Named(m.players) && |m.players| == MAX_PLAYERS && 1 <= id < MAX_PLAYERS
    requires EffectOn(m, e, id).Equip? && HasConn(Turn(env, m, e).players, client)
    requires StageAgreement.StageOk(st) && StageAgreement.ContractFits(st.contract, st.localId)
    requires !Stage.Ignored(st, id)
    ensures var t, form := Turn(env, m, e), EffectOn(m, e, id).form;
            var after, stored := Stage.ApplyStates(st, Told(env, m, e, client, id)), KeptOf(m, id).stored;
            && |t.players| == MAX_PLAYERS && KeptOf(t, id).stored == stored.(equipped := form)
            && (Shows(after, id, form) <==> Shows(st, id, form) || (stored.playerId == id && Takes(st, stored)))
            && (!(stored.playerId == id && Takes(st, stored)) ==> after == st)
  {
    hide SeatingOk, Named, Turn, EffectOn, Told, StageAgreement.StageOk, StageAgreement.ContractFits, Shows, Takes,
         Stage.ApplyStates, HasConn, Lifecycle.ActorsOk, Lifecycle.AllAlive, Workshop.WorkshopOk;
    var form, stored, told := EffectOn(m, e, id).form, KeptOf(m, id).stored, Told(env, m, e, client, id);
    TurnOnSlot(env, m, e, id);
    ToldIsStored(env, m, e, client, id);
    InputIsToldIffNamed(env, m, e, client, id);
    if stored.playerId == id {
      TakesIgnoresEquipment(st, stored, form);
      CopiesShowIff(st, told, stored.(equipped := form));
    } else {
      NoCopies(st);
    }
  }

  lemma NoCopies(st: Stage.Stage)
    ensures Stage.ApplyStates(st, []) == st
  {
  }

  /** So a change of equipment is lost on every client that keeps up: whatever the loop and the stage did before, once a
      message with the service's sequence has arrived since the player last left, an input state changes what the
      service stores, and nothing the client is told of it changes the stage. */
  lemma EquipmentIsLost(
      env: Env, s: Session, es: seq<Envelope>, id: nat, cfg: Movement.Config, caps: seq<Movement.Observed>, d: seq<nat>,
      client: nat, c: Stage.Contract, localId: nat, events: seq<Stage.Event>, e: Envelope)
    requires Follows(env, s, es, id, Movement.Emitted(cfg, caps), d) && d != []
    requires Stays(env, s, es + [e], client)
    requires StageAgreement.ContractFits(c, localId) && id != localId
    requires Hears(events, id, ToldOver(env, s, es, client, id)) && EffectOn(Run(env, s, es), e, id).Equip?
    requires var since := StageRelay.Since(events, id);
             exists k :: 0 <= k < |since| && since[k].stateSequence == Convergence.Newest(d) + 1
    ensures var m, t, st := Run(env, s, es), Run(env, s, es + [e]), Stage.Run(Stage.Cleared(c, localId), events);
            && |t.players| == MAX_PLAYERS && 1 <= id < MAX_PLAYERS
            && KeptOf(t, id).stored.equipped == EffectOn(m, e, id).form
            && StageAgreement.Live(st, id) && Stage.ApplyStates(st, Told(env, m, e, client, id)) == st
  {
    hide Follows, Run, Stays, StageAgreement.StageOk, StageAgreement.ContractFits, Stage.Run, Stage.Cleared, Hears,
         StageRelay.Since, StageRelay.RecordOf, StageAgreement.Live, Movement.Emitted, ToldOver, EffectOn, Told, HeadOk,
         SeatingOk, Named, Turn, Convergence.Newest, Takes, Stage.ApplyStates, HasConn, Convergence.Dated;
    var msgs, m, st := Movement.Emitted(cfg, caps), Run(env, s, es), Stage.Run(Stage.Cleared(c, localId), events);
    assert (es + [e])[..|es|] == es && (es + [e])[|es|] == e;
    StaysBefore(env, s, es + [e], client);
    RunSnoc(env, s, es + [e]);
    EndToEnd(env, s, es, id, cfg, caps, d, client, c, localId, events);
    SlotHoldsNewest(env, s, es, id, msgs, d);
    StageAgreement.RunKeepsStage(c, localId, events);
    var stored := KeptOf(m, id).stored;
    UpToDateTakesNothing(st, stored, id);
    EquipmentReachesIff(env, m, e, id, client, st);
  }

  lemma UpToDateTakesNothing(st: Stage.Stage, stored: PlayerState, id: nat)
    requires StageAgreement.Live(st, id) && stored.observedTick >= 1
    requires StageRelay.RecordOf(st, id) == Convergence.Record(stored.stateSequence, stored.observedTick)
    ensures stored.playerId == id ==> !Takes(st, stored)
  {
    hide First;
  }
}
