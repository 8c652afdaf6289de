/** The output queue never overflows outside a HELLO: an arithmetic bound over every reachable state. */
module QueueBound {
  import opened Slots
  import opened Protocol
  import opened Combat
  import opened Session
  import opened Seating
  import opened Lifecycle

  const MAX_CONNECTED: nat := 7
  const TURN_BOUND: nat := 49

  function Connections(players: seq<Player>): nat {
    Count(players, (p: Player) => p.connected)
  }

  /** 1 + 2 + ... + n: what it costs to announce the departure of all of n players, one by one. */
  function Triangle(n: nat): nat { n * (n + 1) / 2 }

  lemma TriangleStep(n: nat)
    requires n > 0
    ensures Triangle(n) == Triangle(n - 1) + n
  {
    assert n * (n + 1) == (n - 1) * n + 2 * n;
  }

  lemma {:induction false} BroadcastSize(players: seq<Player>, msg: Message)
    ensures |Broadcast(players, msg)| == Connections(players)
  {
    if players != [] {
      BroadcastSize(players[..|players| - 1], msg);
    }
  }

  lemma ConnectionsBound(players: seq<Player>, tick: nat)
    requires PlayersOk(players, tick)
    ensures Connections(players) <= MAX_CONNECTED
  {
    CountMiss(players, (p: Player) => p.connected, MAX_PLAYERS - 1);
  }

  // ---- timeouts ----------------------------------------------------------------------------------

  /** Increasing ids of connected slots. */
  ghost predicate Departing(players: seq<Player>, ids: seq<nat>) {
    && (forall k :: 0 <= k < |ids| ==> 1 <= ids[k] <= |players| && players[ids[k] - 1].connected)
    && (forall j, k :: 0 <= j < k < |ids| ==> ids[j] < ids[k])
  }

  lemma {:induction false} TimedOutDepart(players: seq<Player>, tick: nat, timeout: nat)
    requires forall i :: 0 <= i < |players| && players[i].connected ==> players[i].id == i + 1
    ensures Departing(players, TimedOutIds(players, tick, timeout))
  {
    if players != [] {
      var front := players[..|players| - 1];
      TimedOutDepart(front, tick, timeout);
      var ids := TimedOutIds(front, tick, timeout);
      assert forall k :: 0 <= k < |ids| ==> players[ids[k] - 1] == front[ids[k] - 1];
    }
  }

  lemma DropCosts(players: seq<Player>, tick: nat, id: nat)
    requires PlayersOk(players, tick) && 1 <= id <= MAX_PLAYERS && players[id - 1].connected
    ensures Drop(players, id) == players[id - 1 := players[id - 1].(connected := false, conn := 0)]
    ensures Connections(Drop(players, id)) == Connections(players) - 1
    ensures |Broadcast(players, PlayerLeft(id))| + Triangle(Connections(Drop(players, id)))
              == Triangle(Connections(players))
  {
    hide Triangle;
    PlayerSlot(players, tick, id);
    BroadcastSize(players, PlayerLeft(id));
    CountUpdate(players, id - 1, players[id - 1].(connected := false, conn := 0), (p: Player) => p.connected);
    TriangleStep(Connections(players));
  }

  /** Slots above the last departing id are untouched. */
  lemma {:induction false} DropAllSpares(players: seq<Player>, tick: nat, ids: seq<nat>)
    requires PlayersOk(players, tick) && Departing(players, ids)
    ensures var after := DropAll(players, ids).0;
            forall i :: 0 <= i < |after| && (ids == [] || ids[|ids| - 1] <= i) ==> after[i] == players[i]
  {
    if ids != [] {
      var n := |ids| - 1;
      DropAllSpares(players, tick, ids[..n]);
      DropAllKeepsSeats(players, tick, ids[..n]);
      var before := DropAll(players, ids[..n]).0;
      assert before[ids[n] - 1] == players[ids[n] - 1];
      DropCosts(before, tick, ids[n]);
    }
  }

  /** Announcing departures while the audience shrinks costs a difference of triangles. */
  lemma {:induction false} DropAllCosts(players: seq<Player>, tick: nat, ids: seq<nat>)
    requires PlayersOk(players, tick) && Departing(players, ids)
    ensures var (after, sends) := DropAll(players, ids);
            && |sends| + Triangle(Connections(after)) == Triangle(Connections(players))
            && Connections(after) <= Connections(players)
  {
    hide Triangle, Connections, Drop, Broadcast;
    if ids != [] {
      var n := |ids| - 1;
      DropAllCosts(players, tick, ids[..n]);
      DropAllSpares(players, tick, ids[..n]);
      DropAllKeepsSeats(players, tick, ids[..n]);
      DropCosts(DropAll(players, ids[..n]).0, tick, ids[n]);
    }
  }

  lemma TickPlayersCosts(s: Session)
    requires PlayersOk(s.players, s.tick)
    ensures var (after, sends) := TickPlayers(s);
            && |sends| + Triangle(Connections(after)) == Triangle(Connections(s.players))
            && Connections(after) <= Connections(s.players)
  {
    hide Triangle, Connections;
    var ids := TimedOutIds(s.players, s.tick + 1, s.timeout);
    TimedOutDepart(s.players, s.tick + 1, s.timeout);
    DropAllCosts(s.players, s.tick, ids);
  }

  lemma TriangleMonotone(m: nat, n: nat)
    requires m <= n
    ensures m <= Triangle(m) <= Triangle(n)
    decreases n
  {
    if m < n {
      TriangleMonotone(m, n - 1);
      TriangleStep(n);
    } else if m > 0 {
      TriangleMonotone(m - 1, m - 1);
      TriangleStep(m);
    }
  }

  /** A tick with at most one dead actor costs at most a triangle. */
  lemma TickCosts(s: Session)
    requires PlayersOk(s.players, s.tick)
    requires |TickActors(TickPlayers(s).0, s.actors).1| <= Connections(TickPlayers(s).0)
    ensures |Tick(s).1| <= Triangle(Connections(s.players))
  {
    TickPlayersCosts(s);
    TriangleMonotone(Connections(TickPlayers(s).0), Connections(TickPlayers(s).0));
  }

  /** After a handler that ran on live actors, the tick announces at most one despawn. */
  lemma DespawnCosts(env: Env, s: Session, e: Envelope, players: seq<Player>)
    requires ActorsOk(s.actors) && AllAlive(s.actors)
    ensures |TickActors(players, Handle(env, s, e).session.actors).1| <= Connections(players)
  {
    hide HandleFire, HandleHello, HandleBuild;
    HandleHits(env, s, e);
    var o := Handle(env, s, e);
    if o.damage.Some? && o.damage.value.killed {
      var t := FindActor(s.actors, o.damage.value.victim);
      HitKeepsActors(s.actors, o.damage.value.victim);
      TickBuries(players, o.session.actors, t);
      BroadcastSize(players, ActorDespawn(o.session.actors[t].id));
    } else {
      if o.damage.Some? { HitKeepsActors(s.actors, o.damage.value.victim); }
      TickAlive(players, o.session.actors);
    }
  }

  // ---- the handlers --------------------------------------------------------------------------------

  lemma {:induction false} SameConnections(before: seq<Player>, after: seq<Player>)
    requires |before| == |after| && forall i :: 0 <= i < |before| ==> after[i].connected == before[i].connected
    ensures Connections(after) == Connections(before)
  {
    if before != [] {
      SameConnections(before[..|before| - 1], after[..|after| - 1]);
    }
  }

  lemma HeardConnections(s: Session, id: nat)
    ensures Connections(Heard(s, id).players) == Connections(s.players)
  {
    SameConnections(s.players, Heard(s, id).players);
  }

  lemma FireCosts(env: Env, s: Session, id: nat, req: Request)
    requires req.Fire?
    ensures var o := HandleFire(env, s, id, req);
            |o.sends| <= 3 * Connections(s.players) && Connections(o.session.players) == Connections(s.players)
  {
    hide Target, FireValid, Wound;
    HeardConnections(s, id);
    var h := Heard(s, id);
    forall msg: Message ensures |Broadcast(h.players, msg)| == Connections(s.players) {
      BroadcastSize(h.players, msg);
    }
  }

  lemma BuildCosts(env: Env, s: Session, conn: nat, id: nat, req: Request)
    requires req.Build?
    ensures var o := HandleBuild(env, s, conn, id, req);
            |o.sends| <= 1 + Connections(s.players) && Connections(o.session.players) == Connections(s.players)
  {
    hide BuildValid, Adjusted;
    HeardConnections(s, id);
    var built := BuildStep(env, Heard(s, id), req).1;
    assert built.players == Heard(s, id).players;
    forall msg: Message ensures |Broadcast(built.players, msg)| == Connections(s.players) {
      BroadcastSize(built.players, msg);
    }
  }

  lemma DisconnectCosts(s: Session, id: nat)
    requires PlayersOk(s.players, s.tick)
    ensures var o := HandleDisconnect(s, id);
            |o.sends| == Connections(s.players) && Connections(o.session.players) <= Connections(s.players)
  {
    HeardConnections(s, id);
    var h := Heard(s, id);
    BroadcastSize(h.players, PlayerLeft(id));
    var i := FindSlot(h.players, id);
    if i < |h.players| {
      CountUpdate(h.players, i, h.players[i].(connected := false, conn := 0), (p: Player) => p.connected);
    }
  }

  lemma PlayerCosts(s: Session, id: nat, msg: PlayerState, clientTick: nat, equipped: nat)
    ensures var o := HandlePlayerUpdate(s, id, msg);
            |o.sends| <= Connections(s.players) && Connections(o.session.players) == Connections(s.players)
    ensures var o := HandleInput(s, id, clientTick, equipped);
            |o.sends| <= Connections(s.players) && Connections(o.session.players) == Connections(s.players)
  {
    var a := HandlePlayerUpdate(s, id, msg).session.players;
    var b := HandleInput(s, id, clientTick, equipped).session.players;
    SameConnections(s.players, a);
    SameConnections(s.players, b);
    BroadcastSize(a, PlayerStateMsg(msg));
    var i := FindPlayer(s.players, id);
    if i < |s.players| { BroadcastSize(b, PlayerStateMsg(b[i].state)); }
  }

  lemma ObjectCosts(s: Session, id: nat, req: Request)
    ensures req.Move? ==> |HandleMove(s, id, req).sends| <= Connections(s.players)
    ensures req.Scrap? ==> |HandleScrap(s, id, req).sends| <= Connections(s.players)
  {
    forall msg: Message ensures |Broadcast(s.players, msg)| == Connections(s.players) {
      BroadcastSize(s.players, msg);
    }
  }

  /** No handler but HELLO asks for more than three messages per connected player, and none adds a player. */
  lemma HandleCosts(env: Env, s: Session, e: Envelope)
    requires PlayersOk(s.players, s.tick) && !e.request.Hello?
    ensures var o := Handle(env, s, e);
            |o.sends| <= 3 * Connections(s.players) && Connections(o.session.players) <= Connections(s.players)
  {
    hide HandleFire, HandleBuild, HandlePlayerUpdate, HandleInput, HandleDisconnect;
    var i := FindConnection(s.players, e.conn);
    if i < |s.players| {
      var id := s.players[i].id;
      CountHit(s.players, (p: Player) => p.connected, i);
      match e.request {
        case Ping(_) => HeardConnections(s, id);
        case Disconnect => DisconnectCosts(s, id);
        case PlayerUpdate(msg) => PlayerCosts(s, id, msg, 0, 0);
        case InputState(tick, equipped) => PlayerCosts(s, id, BLANK_PLAYER_STATE, tick, equipped);
        case Fire(_, _, _, _) => FireCosts(env, s, id, e.request);
        case Build(_, _, _, _, _, _, _) => BuildCosts(env, s, e.conn, id, e.request);
        case Select(_, _) =>
        case Unusable =>
        case _ => ObjectCosts(s, id, e.request);
      }
    }
  }

  /** In every state the loop can reach, a turn whose envelope is not a HELLO asks for at most 49 messages,
      so the queue of 64 holds them all and everything asked for is transmitted. */
  lemma TurnFitsQueue(env: Env, s: Session, e: Envelope)
    requires SeatingOk(s) && ActorsOk(s.actors) && AllAlive(s.actors) && !e.request.Hello?
    ensures |Demand(env, s, e)| <= TURN_BOUND <= MAX_OUTPUTS
    ensures Handle(env, s, e).accepted ==> Transmitted(env, s, e) == Demand(env, s, e)
  {
    hide Handle;
    HandleCosts(env, s, e);
    HandleKeepsSeating(env, s, e);
    var o := Handle(env, s, e);
    var n := Connections(s.players);
    ConnectionsBound(s.players, s.tick);
    DespawnCosts(env, s, e, TickPlayers(o.session).0);
    TickCosts(o.session);
    TriangleMonotone(Connections(o.session.players), n);
    TriangleMonotone(n, MAX_CONNECTED);
  }
}
