/** Convergence inside the server loop: over every run, a slot's relay is driven by its own player's updates only. */
module SessionRelay {
  import opened Slots
  import opened Protocol
  import opened Relay
  import opened Session
  import opened Seating
  import Convergence
  import Movement

  type Kept = Convergence.Slot

  /** What the service keeps of player `id`. */
  function KeptOf(s: Session, id: nat): Kept
    requires 1 <= id <= |s.players|
  {
    Convergence.Slot(s.players[id - 1].relay, s.players[id - 1].state)
  }

  /** What an envelope means to the slot of one player. */
  datatype Effect = Nothing | Update(msg: PlayerState) | Equip(form: nat) | Restart

  function EffectOn(s: Session, e: Envelope, id: nat): Effect {
    if e.request.Hello? then
      var seat := Seat(s, e.conn, e.request.guid);
      if seat.Some? && seat.value.0 == id && FindBinding(s.registry, e.request.guid) == |s.registry| then Restart
          else Nothing
    else
      var i := FindConnection(s.players, e.conn);
      if i == |s.players| || s.players[i].id != id then Nothing
      else
        match e.request
        case PlayerUpdate(msg) => if msg.playerId == id then Update(msg) else Nothing
        case InputState(_, form) => Equip(form)
        case _ => Nothing
  }

  function Applied(k: Kept, effect: Effect): Kept {
    match effect
    case Nothing => k
    case Update(msg) => Convergence.Relayed(k, msg)
    case Equip(form) => k.(stored := k.stored.(equipped := form))
    case Restart => Convergence.FRESH
  }

  // ---- one turn ------------------------------------------------------------------------------------------

  ghost predicate SameRelays(a: seq<Player>, b: seq<Player>) {
    |a| == |b| && forall i :: 0 <= i < |a| ==> a[i].relay == b[i].relay && a[i].state == b[i].state
  }

  lemma {:induction false} DropAllKeepsRelays(players: seq<Player>, ids: seq<nat>)
    ensures SameRelays(players, DropAll(players, ids).0)
  {
    hide Broadcast, First;
    if ids != [] { DropAllKeepsRelays(players, ids[..|ids| - 1]); }
  }

  lemma TickKeepsRelays(s: Session)
    ensures SameRelays(s.players, Tick(s).0.players)
  {
    hide TickActors, DropAll, TimedOutIds;
    DropAllKeepsRelays(s.players, TimedOutIds(s.players, s.tick + 1, s.timeout));
  }

  lemma HelloOnSlot(s: Session, e: Envelope, id: nat)
    requires SeatingOk(s) && e.request.Hello? && 1 <= id < MAX_PLAYERS
    ensures var t := HandleHello(s, e.conn, e.request.guid, e.request.profile).session;
            |t.players| == |s.players| && KeptOf(t, id) == Applied(KeptOf(s, id), EffectOn(s, e, id))
  {
    hide Seat, ExistingState, ProfileSends, First, SeatingOk, RegistryOk, PlayersOk;
    assert |s.players| == MAX_PLAYERS by { SeatCount(s); }
    SeatFindsSlot(s, e.conn, e.request.guid);
    if Seat(s, e.conn, e.request.guid).Some? {
      Convergence.SeatKeepsRelay(s, e.conn, e.request.guid);
    }
  }

  lemma SeatCount(s: Session)
    requires SeatingOk(s)
    ensures |s.players| == MAX_PLAYERS
  {
  }

  lemma UpdateOnSlot(s: Session, from: nat, msg: PlayerState, id: nat)
    requires SeatingOk(s) && 1 <= id < MAX_PLAYERS
    requires FindPlayer(s.players, from) == from - 1 < |s.players|
    ensures var t := HandlePlayerUpdate(s, from, msg).session;
            && |t.players| == |s.players|
            && KeptOf(t, id) == if from == id && msg.playerId == id then Convergence.Relayed(KeptOf(s, id), msg)
                  else KeptOf(s, id)
  {
    hide First, Evaluate, Accepts, Broadcast;
  }

  lemma InputOnSlot(s: Session, from: nat, tick: nat, form: nat, id: nat)
    requires SeatingOk(s) && 1 <= id < MAX_PLAYERS
    requires FindPlayer(s.players, from) == from - 1 < |s.players|
    ensures var t := HandleInput(s, from, tick, form).session;
            && |t.players| == |s.players|
            && KeptOf(t, id) == if from == id then Applied(KeptOf(s, id), Equip(form)) else KeptOf(s, id)
  {
    hide First, Broadcast;
  }

  lemma OthersKeepRelays(env: Env, s: Session, e: Envelope)
    requires !e.request.Hello? && !e.request.PlayerUpdate? && !e.request.InputState?
    ensures SameRelays(s.players, Handle(env, s, e).session.players)
  {
    hide First, Broadcast, FireValid, BuildValid, MoveValid, ScrapValid, Adjusted;
    var i := FindConnection(s.players, e.conn);
    if i < |s.players| { HeardKeepsRelays(s, s.players[i].id); }
  }

  lemma HeardKeepsRelays(s: Session, id: nat)
    ensures SameRelays(s.players, Heard(s, id).players)
    ensures SameRelays(s.players, Drop(Heard(s, id).players, id))
  {
    hide First;
  }

  lemma HandleOnSlot(env: Env, s: Session, e: Envelope, id: nat)
    requires SeatingOk(s) && 1 <= id < MAX_PLAYERS
    ensures var t := Handle(env, s, e).session;
            |t.players| == |s.players| && KeptOf(t, id) == Applied(KeptOf(s, id), EffectOn(s, e, id))
  {
    hide HandleHello, HandleDisconnect, HandlePlayerUpdate, HandleInput, HandleFire, HandleBuild, HandleMove,
         HandleScrap, HandleSelect, Heard, First, Seat;
    var i := FindConnection(s.players, e.conn);
    if e.request.Hello? {
      HelloOnSlot(s, e, id);
    } else if i < |s.players| && e.request.PlayerUpdate? {
      PlayerSlot(s.players, s.tick, s.players[i].id);
      UpdateOnSlot(s, s.players[i].id, e.request.state, id);
    } else if i < |s.players| && e.request.InputState? {
      PlayerSlot(s.players, s.tick, s.players[i].id);
      InputOnSlot(s, s.players[i].id, e.request.clientTick, e.request.equipped, id);
    } else if i < |s.players| {
      OthersKeepRelays(env, s, e);
    }
  }

  /** One turn of the server loop, whatever its envelope, does to a slot's relay exactly what the envelope means. */
  lemma TurnOnSlot(env: Env, s: Session, e: Envelope, id: nat)
    requires SeatingOk(s) && 1 <= id < MAX_PLAYERS
    ensures var t := Turn(env, s, e);
            |t.players| == |s.players| && KeptOf(t, id) == Applied(KeptOf(s, id), EffectOn(s, e, id))
  {
    hide Handle, Tick, EffectOn, Applied, SeatingOk;
    SeatCount(s);
    HandleOnSlot(env, s, e, id);
    TickKeepsRelays(Handle(env, s, e).session);
  }

  // ---- a whole occupancy -----------------------------------------------------------------------------------

  /** The updates of player `id` that the run handles, in order. */
  function Updates(env: Env, s: Session, es: seq<Envelope>, id: nat): seq<PlayerState> {
    if es == [] then []
    else
      var before := es[..|es| - 1];
      var effect := EffectOn(Run(env, s, before), es[|es| - 1], id);
      Updates(env, s, before, id) + (if effect.Update? then [effect.msg] else [])
  }

  /** No other player takes the slot over. */
  ghost predicate Occupied(env: Env, s: Session, es: seq<Envelope>, id: nat) {
    forall k :: 0 <= k < |es| ==> !EffectOn(Run(env, s, es[..k]), es[k], id).Restart?
  }

  /** The player sends no input states, which overwrite the equipment of the stored state. */
  ghost predicate NoInputs(env: Env, s: Session, es: seq<Envelope>, id: nat) {
    forall k :: 0 <= k < |es| ==> !EffectOn(Run(env, s, es[..k]), es[k], id).Equip?
  }

  function Unequipped(k: Kept): Kept { k.(stored := k.stored.(equipped := 0)) }

  lemma RelayIgnoresEquipment(k: Kept, msg: PlayerState, form: nat)
    ensures Unequipped(Convergence.Relayed(k, msg)) == Unequipped(Convergence.Relayed(Unequipped(k), msg))
    ensures Unequipped(Applied(k, Equip(form))) == Unequipped(k)
  {
    hide Evaluate, Accepts;
  }

  lemma OccupiedBefore(env: Env, s: Session, es: seq<Envelope>, id: nat)
    requires es != []
    ensures var before := es[..|es| - 1];
            && (Occupied(env, s, es, id) ==>
                  Occupied(env, s, before, id) && !EffectOn(Run(env, s, before), es[|es| - 1], id).Restart?)
            && (NoInputs(env, s, es, id) ==>
                  NoInputs(env, s, before, id) && !EffectOn(Run(env, s, before), es[|es| - 1], id).Equip?)
  {
    hide EffectOn, Run;
    var before := es[..|es| - 1];
    forall k | 0 <= k < |before| ensures before[..k] == es[..k] && before[k] == es[k] {}
  }

  /** Over a whole occupancy of a slot, among arbitrary envelopes from everyone else, disconnects, timeouts and
      reconnects: what the service keeps is what the delivered updates alone leave behind. */
  lemma {:induction false} OccupancyFoldsUpdates(env: Env, s: Session, es: seq<Envelope>, id: nat,
      msgs: seq<PlayerState>, d: seq<nat>)
    requires SeatingOk(s) && 1 <= id < MAX_PLAYERS && Occupied(env, s, es, id)
    requires Convergence.Delivery(msgs, d) && Updates(env, s, es, id) == Convergence.Picked(msgs, d)
    ensures var t := Run(env, s, es);
            && |t.players| == MAX_PLAYERS
            && Unequipped(KeptOf(t, id)) == Unequipped(Convergence.ServiceFrom(KeptOf(s, id), msgs, d))
            && (NoInputs(env, s, es, id) ==> KeptOf(t, id) == Convergence.ServiceFrom(KeptOf(s, id), msgs, d))
    decreases |es|
  {
    hide EffectOn, Turn, SeatingOk, Occupied, NoInputs, Evaluate, Accepts, Unequipped;
    SeatCount(s);
    if es == [] {
      assert d == [];
    } else {
      var before, e := es[..|es| - 1], es[|es| - 1];
      var m := Run(env, s, before);
      var effect := EffectOn(m, e, id);
      OccupiedBefore(env, s, es, id);
      RunKeepsSeating(env, s, before);
      SeatCount(m);
      TurnOnSlot(env, m, e, id);
      if effect.Update? {
        var front := d[..|d| - 1];
        var newest := msgs[d[|d| - 1]];
        assert Convergence.Picked(msgs, d) == Convergence.Picked(msgs, front) + [newest];
        SameEnds(Updates(env, s, before, id), effect.msg, Convergence.Picked(msgs, front), newest);
        OccupancyFoldsUpdates(env, s, before, id, msgs, front);
        RelayIgnoresEquipment(KeptOf(m, id), effect.msg, 0);
        RelayIgnoresEquipment(Convergence.ServiceFrom(KeptOf(s, id), msgs, front), effect.msg, 0);
      } else {
        OccupancyFoldsUpdates(env, s, before, id, msgs, d);
        if effect.Equip? { RelayIgnoresEquipment(KeptOf(m, id), BLANK_PLAYER_STATE, effect.form); }
      }
    }
  }

  /** End to end in the server loop: the emitter's messages reach it in any order, with any loss and repetition, among
      anything else that happens. The slot then holds the newest message delivered, but for the equipment an input state
      may have overwritten, and has accepted exactly the strict new maxima. */
  lemma SessionConverges(env: Env, s: Session, es: seq<Envelope>, id: nat, cfg: Movement.Config,
      caps: seq<Movement.Observed>, d: seq<nat>)
    requires SeatingOk(s) && 1 <= id < MAX_PLAYERS && KeptOf(s, id) == Convergence.FRESH
    requires Occupied(env, s, es, id) && d != []
    requires var msgs := Movement.Emitted(cfg, caps);
             Convergence.Delivery(msgs, d) && Updates(env, s, es, id) == Convergence.Picked(msgs, d)
    ensures var t := Run(env, s, es);
            && |t.players| == MAX_PLAYERS
            && var msgs, newest := Movement.Emitted(cfg, caps), Convergence.Newest(d);
               var kept := KeptOf(t, id);
               && kept.stored.(equipped := 0) == msgs[newest].(equipped := 0)
               && (NoInputs(env, s, es, id) ==> kept.stored == msgs[newest])
               && kept.stats.accepted == |Convergence.Maxima(d)|
               && kept.stats.lastSequence == newest + 1 && kept.stats.lastTick == msgs[newest].observedTick
  {
    hide Run, Occupied, NoInputs, SeatingOk, Updates, Movement.Emitted, Convergence.ServiceFrom, Convergence.Maxima,
         Convergence.Newest;
    var msgs := Movement.Emitted(cfg, caps);
    Movement.EmittedIsNumbered(cfg, caps);
    OccupancyFoldsUpdates(env, s, es, id, msgs, d);
    Convergence.ServiceConverges(msgs, d);
  }

  // ---- a restarted player ------------------------------------------------------------------------------------

  /** A player reconnects to a slot that has relayed states before, and its emitter starts anew. Over the whole
      occupancy that follows, the service takes up its state if and only if the newest of its messages that were
      delivered has caught up with the counters of the old emission; until then it keeps the old state. */
  lemma ReconnectStarves(
      env: Env, s: Session, hello: Envelope, es: seq<Envelope>, id: nat,
      cfg: Movement.Config, caps: seq<Movement.Observed>, d: seq<nat>)
    requires SeatingOk(s) && hello.request.Hello? && d != []
    requires var b := FindBinding(s.registry, hello.request.guid); b < |s.registry| && s.registry[b].player == id
    requires 1 <= id < MAX_PLAYERS && KeptOf(s, id).stats.lastSequence >= 1 && KeptOf(s, id).stats.lastTick >= 1
    requires Occupied(env, Turn(env, s, hello), es, id)
    requires var msgs := Movement.Emitted(cfg, caps);
             Convergence.Delivery(msgs, d) && Updates(env, Turn(env, s, hello), es, id) == Convergence.Picked(msgs, d)
    ensures var t := Run(env, s, [hello] + es);
            && |t.players| == MAX_PLAYERS
            && var newest, before, after := Movement.Emitted(cfg, caps)[Convergence.Newest(d)], KeptOf(s, id),
                  KeptOf(t, id);
               if Convergence.CaughtUp(before.stats, newest)
               then after.stored.(equipped := 0) == newest.(equipped := 0)
               else
                 && after.stored.(equipped := 0) == before.stored.(equipped := 0)
                 && after.stats.accepted == before.stats.accepted
  {
    hide Run, Turn, Occupied, SeatingOk, Updates, Movement.Emitted, Convergence.ServiceFrom, Convergence.Newest,
         Convergence.CaughtUp;
    var u := Turn(env, s, hello);
    TurnKeepsSeating(env, s, hello);
    TurnOnSlot(env, s, hello, id);
    RunFront(env, s, hello, es);
    var msgs := Movement.Emitted(cfg, caps);
    Movement.EmittedIsNumbered(cfg, caps);
    SeatCount(u);
    OccupancyFoldsUpdates(env, u, es, id, msgs, d);
    Convergence.RestartIsStarved(KeptOf(u, id), msgs, d);
  }
}
