/** What the service tells its clients about players: every state message shows what a slot holds, and every state the
    relay filter takes is sent to everyone. */
module StateNews {
  import opened Slots
  import opened Protocol
  import opened Combat
  import opened Relay
  import opened Session
  import opened Seating
  import opened QueueBound
  import opened Delivery
  import opened MirrorTurns
  import opened SessionRelay

  // ---- names -------------------------------------------------------------------------------------------------

  /** The state stored in a slot names the slot's player, or nobody yet. */
  ghost predicate Named(players: seq<Player>) {
    && |players| == MAX_PLAYERS
    && forall id :: 1 <= id < MAX_PLAYERS ==> NamedSlot(players, id)
  }

  predicate NamedSlot(players: seq<Player>, id: nat)
    requires 1 <= id <= |players|
  {
    players[id - 1].state.playerId == 0 || players[id - 1].state.playerId == id
  }

  lemma TurnKeepsNames(env: Env, s: Session, e: Envelope)
    requires SeatingOk(s) && Named(s.players)
    ensures Named(Turn(env, s, e).players)
  {
    hide Turn, SeatingOk;
    var players := Turn(env, s, e).players;
    TurnOnSlot(env, s, e, 1);
    forall id | 1 <= id < MAX_PLAYERS ensures NamedSlot(players, id) {
      assert NamedSlot(s.players, id);
      TurnOnSlot(env, s, e, id);
      EffectNames(s, e, id);
    }
  }

  lemma EffectNames(s: Session, e: Envelope, id: nat)
    ensures EffectOn(s, e, id).Update? ==> EffectOn(s, e, id).msg.playerId == id
  {
  }

  lemma {:induction false} RunKeepsNames(env: Env, s: Session, es: seq<Envelope>)
    requires SeatingOk(s) && Named(s.players)
    ensures Named(Run(env, s, es).players)
  {
    hide Turn, SeatingOk, Named;
    if es != [] {
      RunKeepsNames(env, s, es[..|es| - 1]);
      RunKeepsSeating(env, s, es[..|es| - 1]);
      TurnKeepsNames(env, Run(env, s, es[..|es| - 1]), es[|es| - 1]);
    }
  }

  // ---- truthful messages ---------------------------------------------------------------------------------------

  /** A state message that names a player shows what the player's slot holds. */
  ghost predicate Truthful(msg: Message, players: seq<Player>) {
    msg.PlayerStateMsg? && msg.player.playerId != 0 ==>
      msg.player.playerId <= |players| && players[msg.player.playerId - 1].state == msg.player
  }

  ghost predicate AllTruthful(sends: seq<Send>, players: seq<Player>) {
    forall k :: 0 <= k < |sends| ==> Truthful(sends[k].msg, players)
  }

  lemma {:induction false} BroadcastTruthful(audience: seq<Player>, msg: Message, players: seq<Player>)
    requires Truthful(msg, players)
    ensures AllTruthful(Broadcast(audience, msg), players)
  {
    hide Truthful;
    if audience != [] { BroadcastTruthful(audience[..|audience| - 1], msg, players); }
  }

  lemma {:induction false} DropAllTruthful(audience: seq<Player>, ids: seq<nat>, players: seq<Player>)
    ensures AllTruthful(DropAll(audience, ids).1, players)
  {
    hide Drop, Broadcast;
    if ids != [] {
      DropAllTruthful(audience, ids[..|ids| - 1], players);
      BroadcastTruthful(DropAll(audience, ids[..|ids| - 1]).0, PlayerLeft(ids[|ids| - 1]), players);
    }
  }

  lemma {:induction false} DespawnAllTruthful(audience: seq<Player>, actors: seq<Actor>, ids: seq<nat>,
      players: seq<Player>)
    ensures AllTruthful(DespawnAll(audience, actors, ids).1, players)
  {
    hide RemoveActor, Broadcast;
    if ids != [] {
      DespawnAllTruthful(audience, actors, ids[..|ids| - 1], players);
      BroadcastTruthful(audience, ActorDespawn(ids[|ids| - 1]), players);
    }
  }

  lemma TickTruthful(s: Session, players: seq<Player>)
    ensures AllTruthful(Tick(s).1, players)
  {
    hide DropAll, DespawnAll, MarkDead, DeadIds, TimedOutIds, Truthful;
    DropAllTruthful(s.players, TimedOutIds(s.players, s.tick + 1, s.timeout), players);
    var ids := DeadIds(MarkDead(s.actors, 0));
    DespawnAllTruthful(TickPlayers(s).0, MarkDead(s.actors, 0), if |ids| <= MAX_DESPAWNS then ids
        else ids[..MAX_DESPAWNS], players);
  }

  lemma {:induction false} PlayerReplayTruthful(players: seq<Player>, n: nat, conn: nat, exclude: nat)
    requires n <= |players| && Named(players)
    requires forall i :: 0 <= i < |players| && players[i].connected ==> players[i].id == i + 1 && i < MAX_PLAYERS - 1
    ensures AllTruthful(PlayerReplay(players[..n], conn, exclude), players)
  {
    if n > 0 {
      PlayerReplayTruthful(players, n - 1, conn, exclude);
      assert players[..n][..n - 1] == players[..n - 1] && players[..n][n - 1] == players[n - 1];
      assert n < MAX_PLAYERS ==> NamedSlot(players, n);
    }
  }

  lemma {:induction false} ActorReplayTruthful(actors: seq<Actor>, conn: nat, center: Vec3, radius: real,
      players: seq<Player>)
    ensures AllTruthful(ActorReplay(actors, conn, center, radius), players)
  {
    hide ReplaysActor;
    if actors != [] { ActorReplayTruthful(actors[..|actors| - 1], conn, center, radius, players); }
  }

  lemma {:induction false} ObjectReplayTruthful(objects: seq<Object>, conn: nat, center: Vec3, radius: real,
      players: seq<Player>)
    ensures AllTruthful(ObjectReplay(objects, conn, center, radius), players)
  {
    hide ReplaysObject;
    if objects != [] { ObjectReplayTruthful(objects[..|objects| - 1], conn, center, radius, players); }
  }

  lemma PlainSendsTruthful(sends: seq<Send>, players: seq<Player>)
    requires forall k :: 0 <= k < |sends| ==> !sends[k].msg.PlayerStateMsg?
    ensures AllTruthful(sends, players)
  {
  }

  lemma JoinTruthful(s: Session, e: Envelope)
    requires SeatingOk(s) && Named(s.players) && e.request.Hello?
    ensures var o := HandleHello(s, e.conn, e.request.guid, e.request.profile); AllTruthful(o.sends, o.session.players)
  {
    hide Seat, PlayerReplay, ActorReplay, ObjectReplay, ReplayCenter, First, Truthful, Named, RegistryOk, KeepsIds,
         Extends;
    HelloKeepsSeating(s, e.conn, e.request.guid, e.request.profile);
    var o := HandleHello(s, e.conn, e.request.guid, e.request.profile);
    if Seat(s, e.conn, e.request.guid).Some? && o.accepted {
      var id, j := Seat(s, e.conn, e.request.guid).value.0, o.session;
      HelloNames(s, e);
      PlayerReplayTruthful(j.players, |j.players|, e.conn, id);
      assert j.players[..|j.players|] == j.players;
      var center := ReplayCenter(j.players, id, j.bubbleCenter);
      ActorReplayTruthful(j.actors, e.conn, center, ReplayRadius(j), j.players);
      ObjectReplayTruthful(j.objects, e.conn, center, ReplayRadius(j), j.players);
      var head := [Send(e.conn, Welcome(s.sessionId, id, s.tickRate, s.rules))]
          + ProfileSends(e.conn, e.request.profile);
      PlainSendsTruthful(head, j.players);
      assert o.sends == head + ExistingState(j, e.conn, id);
    } else {
      HelloRefusalSendsNothing(s, e);
    }
  }

  lemma HelloRefusalSendsNothing(s: Session, e: Envelope)
    requires e.request.Hello?
    ensures var o := HandleHello(s, e.conn, e.request.guid, e.request.profile); !o.accepted ==> o.sends == []
    ensures HandleHello(s, e.conn, e.request.guid, e.request.profile).accepted ==> Seat(s, e.conn, e.request.guid).Some?
  {
    hide Seat, ExistingState;
  }

  lemma HelloNames(s: Session, e: Envelope)
    requires SeatingOk(s) && Named(s.players) && e.request.Hello?
    ensures Named(HandleHello(s, e.conn, e.request.guid, e.request.profile).session.players)
  {
    hide HandleHello, SeatingOk, EffectOn;
    var t := HandleHello(s, e.conn, e.request.guid, e.request.profile).session;
    HelloOnSlot(s, e, 1);
    forall id | 1 <= id < MAX_PLAYERS ensures NamedSlot(t.players, id) {
      assert NamedSlot(s.players, id);
      HelloOnSlot(s, e, id);
      EffectNames(s, e, id);
    }
  }

  lemma UpdateTruthful(s: Session, from: nat, msg: PlayerState)
    requires SeatingOk(s) && FindPlayer(s.players, from) == from - 1 < |s.players|
    ensures var o := HandlePlayerUpdate(s, from, msg); AllTruthful(o.sends, o.session.players)
  {
    hide First, Evaluate, Accepts, Broadcast, SeatingOk;
    var o := HandlePlayerUpdate(s, from, msg);
    if o.sends != [] { BroadcastTruthful(o.session.players, PlayerStateMsg(msg), o.session.players); }
  }

  lemma InputTruthful(s: Session, from: nat, tick: nat, form: nat)
    requires SeatingOk(s) && Named(s.players) && from < MAX_PLAYERS
               && FindPlayer(s.players, from) == from - 1 < |s.players|
    ensures var o := HandleInput(s, from, tick, form); AllTruthful(o.sends, o.session.players)
  {
    hide First, Broadcast, SeatingOk;
    assert NamedSlot(s.players, from);
    var o := HandleInput(s, from, tick, form);
    BroadcastTruthful(o.session.players, PlayerStateMsg(o.session.players[from - 1].state), o.session.players);
  }

  lemma HandleTruthful(env: Env, s: Session, e: Envelope)
    requires SeatingOk(s) && Named(s.players)
    ensures var o := Handle(env, s, e); AllTruthful(o.sends, o.session.players)
  {
    hide HandleHello, HandlePlayerUpdate, HandleInput, HandleDisconnect, HandleFire, HandleBuild, HandleMove,
         HandleScrap, Heard, First, Truthful;
    var o := Handle(env, s, e);
    var i := FindConnection(s.players, e.conn);
    if e.request.Hello? {
      JoinTruthful(s, e);
    } else if i < |s.players| {
      var id := s.players[i].id;
      PlayerSlot(s.players, s.tick, id);
      match e.request {
        case PlayerUpdate(msg) => UpdateTruthful(s, id, msg);
        case InputState(tick, form) => InputTruthful(s, id, tick, form);
        case Disconnect => DisconnectTruthful(s, id, o.session.players);
        case Fire(_, _, _, _) => FireTruthful(env, s, id, e.request, o.session.players);
        case Build(_, _, _, _, _, _, _) => BuildTruthful(env, s, e.conn, id, e.request, o.session.players);
        case Move(_, _, _, _) => WorkshopTruthful(s, id, e.request, o.session.players);
        case Scrap(_, _) => WorkshopTruthful(s, id, e.request, o.session.players);
        case Ping(timeMs) => PlainSendsTruthful([Send(e.conn, Pong(timeMs))], o.session.players);
        case _ =>
      }
    }
  }

  lemma DisconnectTruthful(s: Session, id: nat, players: seq<Player>)
    ensures AllTruthful(HandleDisconnect(s, id).sends, players)
  {
    hide Broadcast, First;
    BroadcastTruthful(Heard(s, id).players, PlayerLeft(id), players);
  }

  lemma FireTruthful(env: Env, s: Session, id: nat, req: Request, players: seq<Player>)
    requires req.Fire?
    ensures AllTruthful(HandleFire(env, s, id, req).sends, players)
  {
    hide Broadcast, First, FireValid, Target, Wound;
    var h := Heard(s, id);
    forall msg: Message | !msg.PlayerStateMsg? ensures AllTruthful(Broadcast(h.players, msg), players) {
      BroadcastTruthful(h.players, msg, players);
    }
  }

  lemma BuildTruthful(env: Env, s: Session, conn: nat, id: nat, req: Request, players: seq<Player>)
    requires req.Build?
    ensures AllTruthful(HandleBuild(env, s, conn, id, req).sends, players)
  {
    hide Broadcast, First, BuildValid, Adjusted;
    var built := BuildStep(env, Heard(s, id), req).1;
    forall msg: Message | !msg.PlayerStateMsg? ensures AllTruthful(Broadcast(built.players, msg), players) {
      BroadcastTruthful(built.players, msg, players);
    }
  }

  lemma WorkshopTruthful(s: Session, id: nat, req: Request, players: seq<Player>)
    ensures req.Move? ==> AllTruthful(HandleMove(s, id, req).sends, players)
    ensures req.Scrap? ==> AllTruthful(HandleScrap(s, id, req).sends, players)
  {
    hide Broadcast, First, MoveValid, ScrapValid, Adjusted;
    forall msg: Message | !msg.PlayerStateMsg? ensures AllTruthful(Broadcast(s.players, msg), players) {
      BroadcastTruthful(s.players, msg, players);
    }
  }

  /** Whatever a turn puts on the wire about players shows what their slots hold when the turn is over. */
  lemma TurnTruthful(env: Env, s: Session, e: Envelope)
    requires SeatingOk(s) && Named(s.players)
    ensures AllTruthful(Transmitted(env, s, e), Turn(env, s, e).players)
  {
    hide Handle, Tick, SeatingOk, Named;
    var o := Handle(env, s, e);
    HandleTruthful(env, s, e);
    TickKeepsRelays(o.session);
    TickTruthful(o.session, Turn(env, s, e).players);
  }

  // ---- what one client is told ---------------------------------------------------------------------------------

  /** The states among some messages that are about one player, in order. */
  function About(msgs: seq<Message>, id: nat): seq<PlayerState> {
    if msgs == [] then []
    else
      var last := msgs[|msgs| - 1];
      About(msgs[..|msgs| - 1], id) + (if last.PlayerStateMsg? && last.player.playerId == id then [last.player] else [])
  }

  lemma {:induction false} AboutAppend(a: seq<Message>, b: seq<Message>, id: nat)
    ensures About(a + b, id) == About(a, id) + About(b, id)
  {
    if b == [] {
      assert a + b == a;
    } else {
      AboutAppend(a, b[..|b| - 1], id);
      assert (a + b)[..|a + b| - 1] == a + b[..|b| - 1];
    }
  }

  lemma {:induction false} AboutIsTruthful(sends: seq<Send>, conn: nat, players: seq<Player>, id: nat)
    requires AllTruthful(sends, players) && 1 <= id <= |players|
    ensures forall k :: 0 <= k < |About(Received(sends, conn), id)| ==>
              About(Received(sends, conn), id)[k] == players[id - 1].state
  {
    if sends != [] {
      var front, last := sends[..|sends| - 1], sends[|sends| - 1];
      AboutIsTruthful(front, conn, players, id);
      assert Truthful(last.msg, players);
      if last.conn == conn {
        assert Received(sends, conn) == Received(front, conn) + [last.msg];
        assert Received(sends, conn)[..|Received(front, conn)|] == Received(front, conn);
      } else {
        assert Received(sends, conn) == Received(front, conn);
      }
    }
  }

  /** What a client is told about a player in one turn. */
  function Told(env: Env, s: Session, e: Envelope, client: nat, id: nat): seq<PlayerState> {
    About(Received(Transmitted(env, s, e), client), id)
  }

  lemma ToldIsStored(env: Env, s: Session, e: Envelope, client: nat, id: nat)
    requires SeatingOk(s) && Named(s.players) && 1 <= id < MAX_PLAYERS
    ensures |Turn(env, s, e).players| == MAX_PLAYERS
    ensures forall k :: 0 <= k < |Told(env, s, e, client, id)| ==>
              Told(env, s, e, client, id)[k] == KeptOf(Turn(env, s, e), id).stored
  {
    hide Turn, Transmitted, SeatingOk, About, Received;
    TurnTruthful(env, s, e);
    TurnKeepsNames(env, s, e);
    AboutIsTruthful(Transmitted(env, s, e), client, Turn(env, s, e).players, id);
  }

  lemma {:induction false} AboutSame(msgs: seq<Message>, state: PlayerState)
    requires AllAre(msgs, PlayerStateMsg(state)) && msgs != []
    ensures About(msgs, state.playerId) != []
  {
    assert msgs[|msgs| - 1] == PlayerStateMsg(state);
  }

  /** A state that the filter takes is sent to every client that is still connected when the turn is over. */
  lemma AcceptedIsTold(env: Env, s: Session, e: Envelope, client: nat, id: nat)
    requires HeadOk(env, s) && 1 <= id < MAX_PLAYERS && |s.players| == MAX_PLAYERS
    requires EffectOn(s, e, id).Update? && Accepts(s.players[id - 1].relay, EffectOn(s, e, id).msg)
    requires HasConn(Turn(env, s, e).players, client)
    ensures Told(env, s, e, client, id) != []
  {
    hide SeatingOk, Lifecycle.ActorsOk, Lifecycle.AllAlive, Workshop.WorkshopOk, Tick, First, Broadcast, Evaluate,
         Accepts, About, Received, HasConn, Turn;
    var o := Handle(env, s, e);
    TickConn(env, s, e, client);
    TurnFitsQueue(env, s, e);
    var msg := EffectOn(s, e, id).msg;
    UpdateSends(env, s, e, id);
    ReceivedBroadcast(o.session.players, PlayerStateMsg(msg), client);
    AboutSame(Received(o.sends, client), msg);
    ReceivedAppend(o.sends, Tick(o.session).1, client);
    AboutAppend(Received(o.sends, client), Received(Tick(o.session).1, client), id);
  }

  lemma UpdateSends(env: Env, s: Session, e: Envelope, id: nat)
    requires SeatingOk(s) && 1 <= id < MAX_PLAYERS && |s.players| == MAX_PLAYERS
    requires EffectOn(s, e, id).Update? && Accepts(s.players[id - 1].relay, EffectOn(s, e, id).msg)
    ensures var o, msg := Handle(env, s, e), EffectOn(s, e, id).msg;
            && o.accepted && msg.playerId == id && !e.request.Hello?
            && o.sends == Broadcast(o.session.players, PlayerStateMsg(msg))
  {
    hide First, Broadcast, Evaluate, Accepts;
    PlayerSlot(s.players, s.tick, id);
  }
}
