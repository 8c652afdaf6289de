/** Who is dropped for silence: exactly, in one tick and over every run. */
module Timeouts {
  import opened Slots
  import opened Protocol
  import opened Session
  import opened Combat
  import opened Relay
  import opened Seating
  import SessionRelay

  // ---- one tick ------------------------------------------------------------------------------------------------

  /** The player in slot `i` has been silent for longer than the timeout when the next tick begins. */
  predicate Overdue(s: Session, i: nat)
    requires i < |s.players|
  {
    s.timeout != 0 && s.players[i].connected && s.tick + 1 - s.players[i].lastHeard > s.timeout
  }

  /** The player was last heard too long before `now`. */
  predicate SilentAt(p: Player, now: nat, timeout: nat) { p.connected && now - p.lastHeard > timeout }

  /** The ids of the silent players among the first `n`, in increasing order. */
  ghost predicate Collected(players: seq<Player>, n: nat, now: nat, timeout: nat, ids: seq<nat>) {
    && (forall i :: 0 <= i < |players| ==> (i + 1 in ids <==> i < n && SilentAt(players[i], now, timeout)))
    && (forall k :: 0 <= k < |ids| ==> 1 <= ids[k] <= n)
    && (forall j, k :: 0 <= j < k < |ids| ==> ids[j] < ids[k])
  }

  lemma InOneMore(ids: seq<nat>, id: nat)
    ensures forall x :: x in ids + [id] <==> x in ids || x == id
  {
  }

  lemma CollectedOneMore(players: seq<Player>, n: nat, now: nat, timeout: nat, ids: seq<nat>)
    requires 0 < n <= |players| && Collected(players, n - 1, now, timeout, ids)
    ensures Collected(players, n, now, timeout, if SilentAt(players[n - 1], now, timeout) then ids + [n] else ids)
  {
    hide SilentAt;
    InOneMore(ids, n);
  }

  lemma {:induction false} CollectedAreSilent(players: seq<Player>, tick: nat, n: nat, now: nat, timeout: nat)
    requires PlayersOk(players, tick) && n <= |players|
    ensures Collected(players, n, now, timeout, TimedOutIds(players[..n], now, timeout))
  {
    hide Collected;
    if n == 0 {
      NobodyCollected(players, now, timeout);
    } else {
      CollectedAreSilent(players, tick, n - 1, now, timeout);
      var ids := TimedOutIds(players[..n - 1], now, timeout);
      assert players[..n][..n - 1] == players[..n - 1] && players[..n][n - 1] == players[n - 1];
      assert ids + [] == ids;
      CollectedOneMore(players, n, now, timeout, ids);
    }
  }

  lemma NobodyCollected(players: seq<Player>, now: nat, timeout: nat)
    ensures Collected(players, 0, now, timeout, [])
  {
  }

  lemma CollectedSit(players: seq<Player>, tick: nat, now: nat, timeout: nat, ids: seq<nat>)
    requires PlayersOk(players, tick) && Collected(players, |players|, now, timeout, ids)
    ensures Seats(players, ids)
  {
    forall k | 0 <= k < |ids| ensures 1 <= ids[k] <= |players| && players[ids[k] - 1].id == ids[k] {
      assert (ids[k] - 1) + 1 in ids;
    }
  }

  lemma DropExact(players: seq<Player>, tick: nat, id: nat)
    requires PlayersOk(players, tick) && 1 <= id <= |players| && players[id - 1].id == id
    ensures Drop(players, id) == players[id - 1 := players[id - 1].(connected := false, conn := 0)]
  {
    hide First;
    PlayerSlot(players, tick, id);
  }

  /** The ids name slots that carry them. */
  ghost predicate Seats(players: seq<Player>, ids: seq<nat>) {
    forall k :: 0 <= k < |ids| ==> 1 <= ids[k] <= |players| && players[ids[k] - 1].id == ids[k]
  }

  function Vacated(p: Player): Player { p.(connected := false, conn := 0) }

  /** The slots of these ids are vacated and no other slot changed. */
  ghost predicate Vacates(players: seq<Player>, ids: seq<nat>, after: seq<Player>) {
    && |after| == |players|
    && forall i :: 0 <= i < |players| ==> after[i] == if i + 1 in ids then Vacated(players[i]) else players[i]
  }

  lemma VacatesOneMore(players: seq<Player>, ids: seq<nat>, id: nat, before: seq<Player>)
    requires Vacates(players, ids, before) && 1 <= id <= |players|
    ensures Vacates(players, ids + [id], before[id - 1 := Vacated(before[id - 1])])
  {
    InOneMore(ids, id);
  }

  /** Dropping some ids vacates their slots. */
  lemma {:induction false} DropAllExact(players: seq<Player>, tick: nat, ids: seq<nat>)
    requires PlayersOk(players, tick) && Seats(players, ids)
    ensures Vacates(players, ids, DropAll(players, ids).0)
  {
    hide Drop, Broadcast, PlayersOk;
    if ids != [] {
      var n := |ids| - 1;
      DropAllExact(players, tick, ids[..n]);
      DropAllKeepsSeats(players, tick, ids[..n]);
      var before := DropAll(players, ids[..n]).0;
      assert before[ids[n] - 1].id == ids[n];
      DropExact(before, tick, ids[n]);
      VacatesOneMore(players, ids[..n], ids[n], before);
      assert ids == ids[..n] + [ids[n]];
    }
  }

  /** A tick drops exactly the players that are overdue, and changes no other slot. */
  lemma TickDropsIffOverdue(s: Session)
    requires SeatingOk(s)
    ensures var after := Tick(s).0.players;
            && |after| == |s.players|
            && forall i :: 0 <= i < |after| ==>
                 && (after[i].connected <==> s.players[i].connected && !Overdue(s, i))
                 && after[i] == if Overdue(s, i) then s.players[i].(connected := false, conn := 0) else s.players[i]
  {
    hide TickActors, DropAll, TimedOutIds, PlayersOk, RegistryOk;
    if s.timeout != 0 {
      var ids := TimedOutIds(s.players, s.tick + 1, s.timeout);
      assert s.players[..|s.players|] == s.players;
      CollectedAreSilent(s.players, s.tick, |s.players|, s.tick + 1, s.timeout);
      CollectedSit(s.players, s.tick, s.tick + 1, s.timeout, ids);
      DropAllExact(s.players, s.tick, ids);
    }
  }

  // ---- who is told ---------------------------------------------------------------------------------------------

  lemma {:induction false} BroadcastReaches(players: seq<Player>, msg: Message, j: nat)
    requires j < |players| && players[j].connected
    ensures Send(players[j].conn, msg) in Broadcast(players, msg)
  {
    if j < |players| - 1 { BroadcastReaches(players[..|players| - 1], msg, j); }
  }

  lemma {:induction false} BroadcastSays(players: seq<Player>, msg: Message)
    ensures forall k :: 0 <= k < |Broadcast(players, msg)| ==> Broadcast(players, msg)[k].msg == msg
  {
    if players != [] { BroadcastSays(players[..|players| - 1], msg); }
  }

  /** Everyone who is not dropped before hears of each departure. */
  lemma {:induction false} DropAllTells(players: seq<Player>, tick: nat, ids: seq<nat>, k: nat, j: nat)
    requires PlayersOk(players, tick) && k < |ids| && j < |players| && players[j].connected && j + 1 !in ids[..k]
    requires Seats(players, ids)
    ensures Send(players[j].conn, PlayerLeft(ids[k])) in DropAll(players, ids).1
  {
    hide Drop, Broadcast;
    var n := |ids| - 1;
    if k == n {
      DropAllExact(players, tick, ids[..n]);
      BroadcastReaches(DropAll(players, ids[..n]).0, PlayerLeft(ids[n]), j);
    } else {
      assert ids[..n][..k] == ids[..k] && ids[..n][k] == ids[k];
      DropAllTells(players, tick, ids[..n], k, j);
    }
  }

  /** Nothing is said but that these ids left. */
  ghost predicate SaysLeft(sends: seq<Send>, ids: seq<nat>) {
    forall k :: 0 <= k < |sends| ==> sends[k].msg.PlayerLeft? && sends[k].msg.leftId in ids
  }

  lemma SaysOneMore(a: seq<Send>, b: seq<Send>, ids: seq<nat>, id: nat)
    requires SaysLeft(a, ids) && forall k :: 0 <= k < |b| ==> b[k].msg == PlayerLeft(id)
    ensures SaysLeft(a + b, ids + [id])
  {
  }

  lemma {:induction false} DropAllSays(players: seq<Player>, ids: seq<nat>)
    ensures SaysLeft(DropAll(players, ids).1, ids)
  {
    hide Drop, Broadcast, SaysLeft;
    if ids == [] {
      NothingSaid();
    } else {
      var n := |ids| - 1;
      DropAllSays(players, ids[..n]);
      var (before, sends) := DropAll(players, ids[..n]);
      BroadcastSays(before, PlayerLeft(ids[n]));
      SaysOneMore(sends, Broadcast(before, PlayerLeft(ids[n])), ids[..n], ids[n]);
      assert ids == ids[..n] + [ids[n]];
    }
  }

  lemma NothingSaid()
    ensures SaysLeft([], [])
  {
  }

  ghost predicate NobodyLeft(sends: seq<Send>) { forall k :: 0 <= k < |sends| ==> !sends[k].msg.PlayerLeft? }

  lemma {:induction false} DespawnAllSays(players: seq<Player>, actors: seq<Actor>, ids: seq<nat>)
    ensures NobodyLeft(DespawnAll(players, actors, ids).1)
  {
    hide RemoveActor, Broadcast;
    if ids != [] {
      var n := |ids| - 1;
      DespawnAllSays(players, actors, ids[..n]);
      BroadcastSays(players, ActorDespawn(ids[n]));
      assert DespawnAll(players, actors, ids).1
          == DespawnAll(players, actors, ids[..n]).1 + Broadcast(players, ActorDespawn(ids[n]));
    }
  }

  lemma TickActorsSay(players: seq<Player>, actors: seq<Actor>)
    ensures NobodyLeft(TickActors(players, actors).1)
  {
    hide DespawnAll, MarkDead, DeadIds;
    var marked := MarkDead(actors, 0);
    var ids := DeadIds(marked);
    DespawnAllSays(players, marked, if |ids| <= MAX_DESPAWNS then ids else ids[..MAX_DESPAWNS]);
  }

  /** The player in slot `j` is still connected when slot `i` is dropped: it stays, or is dropped later or just then. */
  predicate HearsOf(s: Session, j: nat, i: nat)
    requires j < |s.players|
  {
    s.players[j].connected && (j >= i || !Overdue(s, j))
  }

  /** Each player that a tick drops is announced to everyone still connected when its turn comes. */
  lemma TickAnnouncesDropped(s: Session, i: nat, j: nat)
    requires SeatingOk(s) && i < |s.players| && j < |s.players| && Overdue(s, i) && HearsOf(s, j, i)
    ensures Send(s.players[j].conn, PlayerLeft(i + 1)) in Tick(s).1
  {
    hide DropAll, TimedOutIds, TickActors, RegistryOk, PlayersOk;
    var ids := TimedOutIds(s.players, s.tick + 1, s.timeout);
    assert s.players[..|s.players|] == s.players;
    CollectedAreSilent(s.players, s.tick, |s.players|, s.tick + 1, s.timeout);
    CollectedSit(s.players, s.tick, s.tick + 1, s.timeout, ids);
    var k :| 0 <= k < |ids| && ids[k] == i + 1;
    DropAllTells(s.players, s.tick, ids, k, j);
  }

  /** A tick announces nobody else. */
  lemma TickAnnouncesOnlyDropped(s: Session, k: nat)
    requires SeatingOk(s) && k < |Tick(s).1| && Tick(s).1[k].msg.PlayerLeft?
    ensures var id := Tick(s).1[k].msg.leftId; 1 <= id <= |s.players| && Overdue(s, id - 1)
  {
    hide DropAll, TimedOutIds, TickActors, RegistryOk, PlayersOk;
    var ids := TimedOutIds(s.players, s.tick + 1, s.timeout);
    assert s.players[..|s.players|] == s.players;
    CollectedAreSilent(s.players, s.tick, |s.players|, s.tick + 1, s.timeout);
    DropAllSays(s.players, ids);
    TickActorsSay(TickPlayers(s).0, s.actors);
    var left, despawns := TickPlayers(s).1, TickActors(TickPlayers(s).0, s.actors).1;
    assert Tick(s).1 == left + despawns;
    var id := left[k].msg.leftId;
    assert id in ids;
    var n :| 0 <= n < |ids| && ids[n] == id;
    assert (id - 1) + 1 in ids;
  }

  // ---- what counts as a sign of life ------------------------------------------------------------------------------

  /** The envelope is a sign of life of player `id`: a HELLO seated as it, or one of five requests in its own name. A
      request to move or scrap an object, and a dialogue selection, is none. */
  predicate Speaks(s: Session, e: Envelope, id: nat) {
    if e.request.Hello? then WelcomedId(s, e.conn, e.request.guid) == Some(id)
    else
      var i := FindConnection(s.players, e.conn);
      && i < |s.players| && s.players[i].id == id
      && match e.request
         case Ping(_) => true
         case Disconnect => true
         case PlayerUpdate(msg) => msg.playerId == id
         case InputState(_, _) => true
         case Fire(player, _, _, _) => player == id
         case Build(_, builder, _, _, _, _, _) => builder == id
         case _ => false
  }

  /** The player says goodbye. */
  predicate Departs(s: Session, e: Envelope, id: nat) {
    e.request.Disconnect? && var i := FindConnection(s.players, e.conn); i < |s.players| && s.players[i].id == id
  }

  predicate Arrives(s: Session, e: Envelope, id: nat) {
    e.request.Hello? && WelcomedId(s, e.conn, e.request.guid) == Some(id)
  }

  /** What a handler leaves of a seat: when it was last heard, whether it is taken, and by which connection. */
  ghost predicate SeatAfter(s: Session, e: Envelope, id: nat, t: Session)
    requires 1 <= id <= |s.players|
  {
    && |t.players| == |s.players| && t.tick == s.tick && t.timeout == s.timeout
    && var p, q := s.players[id - 1], t.players[id - 1];
       && q.lastHeard == (if Speaks(s, e, id) then s.tick else p.lastHeard)
       && (q.connected <==> Arrives(s, e, id) || (p.connected && !Departs(s, e, id)))
       && (q.connected ==> q.conn == if Arrives(s, e, id) then e.conn else p.conn)
  }

  lemma HelloOnSeat(env: Env, s: Session, e: Envelope, id: nat)
    requires SeatingOk(s) && e.request.Hello? && 1 <= id < MAX_PLAYERS
    ensures |s.players| == MAX_PLAYERS && SeatAfter(s, e, id, Handle(env, s, e).session)
    ensures Arrives(s, e, id) ==> Handle(env, s, e).accepted
  {
    hide Seat, ExistingState, ProfileSends, First, KeepsIds, Extends, RegistryOk;
    SeatFindsSlot(s, e.conn, e.request.guid);
  }

  lemma HeardOnSeat(s: Session, from: nat, id: nat)
    requires SeatingOk(s) && 1 <= id < MAX_PLAYERS && FindPlayer(s.players, from) == from - 1 < |s.players|
    ensures var h := Heard(s, from);
            && |h.players| == |s.players| && h == s.(players := h.players)
            && h.players[id - 1] == if from == id then s.players[id - 1].(lastHeard := s.tick) else s.players[id - 1]
  {
    hide First;
  }

  lemma DisconnectOnSeat(s: Session, from: nat, id: nat)
    requires SeatingOk(s) && 1 <= id < MAX_PLAYERS && 1 <= from < MAX_PLAYERS
    requires FindPlayer(s.players, from) == from - 1 < |s.players|
    ensures var t := HandleDisconnect(s, from).session;
            && |t.players| == |s.players| && t == s.(players := t.players)
            && t.players[id - 1] == if from == id
                 then s.players[id - 1].(lastHeard := s.tick, connected := false, conn := 0) else s.players[id - 1]
  {
    hide First, Broadcast;
    HeardOnSeat(s, from, id);
    HeardOnSeat(s, from, from);
    var h := Heard(s, from);
    HeardKeepsSeats(s, from);
    DropExact(h.players, s.tick, from);
  }

  lemma RequestOnSeat(env: Env, s: Session, e: Envelope, id: nat)
    requires SeatingOk(s) && !e.request.Hello? && 1 <= id < MAX_PLAYERS
    ensures |s.players| == MAX_PLAYERS && SeatAfter(s, e, id, Handle(env, s, e).session)
  {
    hide First, RegistryOk, SeatAfter, Handle;
    if FindConnection(s.players, e.conn) == |s.players| || e.request.Ping? || e.request.Unusable? {
      PingOnSeat(env, s, e, id);
    } else if e.request.Disconnect? || e.request.Fire? {
      BattleOnSeat(env, s, e, id);
    } else if e.request.PlayerUpdate? || e.request.InputState? {
      NewsOnSeat(env, s, e, id);
    } else {
      LabourOnSeat(env, s, e, id);
    }
  }

  lemma PingOnSeat(env: Env, s: Session, e: Envelope, id: nat)
    requires SeatingOk(s) && !e.request.Hello? && 1 <= id < MAX_PLAYERS && |s.players| == MAX_PLAYERS
    requires FindConnection(s.players, e.conn) == |s.players| || e.request.Ping? || e.request.Unusable?
    ensures SeatAfter(s, e, id, Handle(env, s, e).session)
  {
    hide First, Heard, RegistryOk;
    var i := FindConnection(s.players, e.conn);
    if i < |s.players| {
      PlayerSlot(s.players, s.tick, s.players[i].id);
      HeardOnSeat(s, s.players[i].id, id);
    }
  }

  lemma BattleOnSeat(env: Env, s: Session, e: Envelope, id: nat)
    requires SeatingOk(s) && 1 <= id < MAX_PLAYERS && |s.players| == MAX_PLAYERS
    requires FindConnection(s.players, e.conn) < |s.players| && (e.request.Disconnect? || e.request.Fire?)
    ensures SeatAfter(s, e, id, Handle(env, s, e).session)
  {
    hide First, Heard, RegistryOk, HandleFire, HandleDisconnect;
    var from := s.players[FindConnection(s.players, e.conn)].id;
    PlayerSlot(s.players, s.tick, from);
    HeardOnSeat(s, from, id);
    if e.request.Disconnect? { DisconnectOnSeat(s, from, id); } else { FireOnSeat(env, s, from, e.request); }
  }

  lemma NewsOnSeat(env: Env, s: Session, e: Envelope, id: nat)
    requires SeatingOk(s) && 1 <= id < MAX_PLAYERS && |s.players| == MAX_PLAYERS
    requires FindConnection(s.players, e.conn) < |s.players| && (e.request.PlayerUpdate? || e.request.InputState?)
    ensures SeatAfter(s, e, id, Handle(env, s, e).session)
  {
    hide First, RegistryOk, HandlePlayerUpdate, HandleInput;
    var from := s.players[FindConnection(s.players, e.conn)].id;
    PlayerSlot(s.players, s.tick, from);
    match e.request {
      case PlayerUpdate(msg) => StateOnSeat(s, from, msg, id);
      case InputState(tick, form) => InputOnSeat(s, from, tick, form, id);
    }
  }

  lemma LabourOnSeat(env: Env, s: Session, e: Envelope, id: nat)
    requires SeatingOk(s) && 1 <= id < MAX_PLAYERS && |s.players| == MAX_PLAYERS
    requires FindConnection(s.players, e.conn) < |s.players|
    requires e.request.Build? || e.request.Move? || e.request.Scrap? || e.request.Select?
    ensures SeatAfter(s, e, id, Handle(env, s, e).session)
  {
    hide First, Heard, RegistryOk, HandleBuild, HandleMove, HandleScrap, HandleSelect;
    var from := s.players[FindConnection(s.players, e.conn)].id;
    PlayerSlot(s.players, s.tick, from);
    HeardOnSeat(s, from, id);
    WorkOnSeat(env, s, e.conn, from, e.request);
  }

  lemma StateOnSeat(s: Session, from: nat, msg: PlayerState, id: nat)
    requires SeatingOk(s) && 1 <= id < MAX_PLAYERS && FindPlayer(s.players, from) == from - 1 < |s.players|
    ensures var t := HandlePlayerUpdate(s, from, msg).session;
            && |t.players| == |s.players| && t == s.(players := t.players)
            && var p, q := s.players[id - 1], t.players[id - 1];
               && q.connected == p.connected && q.conn == p.conn
               && q.lastHeard == if from == id && msg.playerId == id then s.tick else p.lastHeard
  {
    hide First, Broadcast, Evaluate, Accepts, RegistryOk;
  }

  lemma InputOnSeat(s: Session, from: nat, tick: nat, form: nat, id: nat)
    requires SeatingOk(s) && 1 <= id < MAX_PLAYERS && FindPlayer(s.players, from) == from - 1 < |s.players|
    ensures var t := HandleInput(s, from, tick, form).session;
            && |t.players| == |s.players| && t == s.(players := t.players)
            && var p, q := s.players[id - 1], t.players[id - 1];
               && q.connected == p.connected && q.conn == p.conn
               && q.lastHeard == if from == id then s.tick else p.lastHeard
  {
    hide First, Broadcast, RegistryOk;
  }

  lemma WorkOnSeat(env: Env, s: Session, conn: nat, from: nat, req: Request)
    ensures req.Build? ==>
              var t := HandleBuild(env, s, conn, from, req).session;
              && t.tick == s.tick && t.timeout == s.timeout
              && t.players == if req.builder == from then Heard(s, from).players else s.players
    ensures req.Move? ==>
              var t := HandleMove(s, from, req).session;
              t.tick == s.tick && t.timeout == s.timeout && t.players == s.players
    ensures req.Scrap? ==>
              var t := HandleScrap(s, from, req).session;
              t.tick == s.tick && t.timeout == s.timeout && t.players == s.players
    ensures req.Select? ==>
              var t := HandleSelect(s, from, req).session;
              t.tick == s.tick && t.timeout == s.timeout && t.players == s.players
  {
    hide First, Broadcast, BuildValid, MoveValid, ScrapValid, Adjusted, FindObject;
  }

  lemma FireOnSeat(env: Env, s: Session, from: nat, req: Request)
    requires req.Fire?
    ensures var t := HandleFire(env, s, from, req).session;
            && t.tick == s.tick && t.timeout == s.timeout
            && t.players == if req.player == from then Heard(s, from).players else s.players
  {
    hide First, Broadcast, FireValid, Target;
  }

  lemma HandleOnSeat(env: Env, s: Session, e: Envelope, id: nat)
    requires SeatingOk(s) && 1 <= id < MAX_PLAYERS
    ensures |s.players| == MAX_PLAYERS && SeatAfter(s, e, id, Handle(env, s, e).session)
    ensures Arrives(s, e, id) ==> Handle(env, s, e).accepted
  {
    hide Handle, SeatAfter, SeatingOk;
    if e.request.Hello? { HelloOnSeat(env, s, e, id); } else { RequestOnSeat(env, s, e, id); }
  }

  // ---- whole runs ---------------------------------------------------------------------------------------------------

  /** How many turns were accepted since the player's last sign of life, that turn included. */
  function Silence(env: Env, s: Session, es: seq<Envelope>, id: nat): int
    requires 1 <= id <= |s.players|
  {
    if es == [] then s.tick - s.players[id - 1].lastHeard
    else
      var before, e := es[..|es| - 1], es[|es| - 1];
      var m := Run(env, s, before);
      (if Speaks(m, e, id) then 0 else Silence(env, s, before, id)) + (if Handle(env, m, e).accepted then 1 else 0)
  }

  /** One turn: the clock, the last sign of life, and exactly when the seat is taken afterwards. */
  lemma TurnOnSeat(env: Env, s: Session, e: Envelope, id: nat)
    requires SeatingOk(s) && 1 <= id < MAX_PLAYERS
    ensures var t, accepted := Turn(env, s, e), Handle(env, s, e).accepted;
            && |t.players| == |s.players| == MAX_PLAYERS && t.timeout == s.timeout
            && t.tick == s.tick + (if accepted then 1 else 0)
            && var p, q := s.players[id - 1], t.players[id - 1];
               && q.lastHeard == (if Speaks(s, e, id) then s.tick else p.lastHeard)
               && (q.connected <==>
                     && (Arrives(s, e, id) || (p.connected && !Departs(s, e, id)))
                     && (!accepted || s.timeout == 0 || t.tick - q.lastHeard <= s.timeout))
               && (q.connected ==> q.conn == if Arrives(s, e, id) then e.conn else p.conn)
  {
    hide Handle, Speaks, Arrives, Departs, SeatingOk, TickActors, TickPlayers;
    HandleOnSeat(env, s, e, id);
    HandleKeepsSeating(env, s, e);
    TickDropsIffOverdue(Handle(env, s, e).session);
  }

  lemma {:induction false} SilenceIsKept(env: Env, s: Session, es: seq<Envelope>, id: nat)
    requires SeatingOk(s) && 1 <= id < MAX_PLAYERS
    ensures var t := Run(env, s, es);
            && |s.players| == |t.players| == MAX_PLAYERS && SeatingOk(t) && t.timeout == s.timeout
            && t.tick - t.players[id - 1].lastHeard == Silence(env, s, es, id)
  {
    hide Turn, Handle, Speaks, SeatingOk;
    RunKeepsSeating(env, s, es);
    if es == [] {
      SessionRelay.SeatCount(s);
    } else {
      SilenceIsKept(env, s, es[..|es| - 1], id);
      TurnOnSeat(env, Run(env, s, es[..|es| - 1]), es[|es| - 1], id);
    }
  }

  /** Nobody departs as this player, and nobody arrives as it, during the run. */
  ghost predicate Undisturbed(env: Env, s: Session, es: seq<Envelope>, id: nat) {
    forall k :: 0 <= k < |es| ==>
      !Departs(Run(env, s, es[..k]), es[k], id) && !Arrives(Run(env, s, es[..k]), es[k], id)
  }

  ghost predicate NeverOverdue(env: Env, s: Session, es: seq<Envelope>, id: nat)
    requires 1 <= id <= |s.players|
  {
    s.timeout == 0 || forall k :: 0 <= k <= |es| ==> Silence(env, s, es[..k], id) <= s.timeout
  }

  /** A player that neither departs nor is displaced stays connected over a run if and only if its silence never
      outlasts the timeout; and then it stays at its connection. */
  lemma {:induction false} StaysIffSpeaks(env: Env, s: Session, es: seq<Envelope>, id: nat)
    requires SeatingOk(s) && 1 <= id < MAX_PLAYERS && |s.players| == MAX_PLAYERS && s.players[id - 1].connected
    requires s.timeout == 0 || Silence(env, s, [], id) <= s.timeout
    requires Undisturbed(env, s, es, id)
    ensures var t := Run(env, s, es);
            && |t.players| == MAX_PLAYERS
            && (t.players[id - 1].connected <==> NeverOverdue(env, s, es, id))
            && (t.players[id - 1].connected ==> t.players[id - 1].conn == s.players[id - 1].conn)
  {
    hide Turn, Handle, Speaks, SeatingOk, Arrives, Departs;
    if es == [] {
      assert es[..0] == [];
    } else {
      var before := es[..|es| - 1];
      forall k | 0 <= k <= |before| ensures before[..k] == es[..k] && (k < |before| ==> before[k] == es[k]) {}
      StaysIffSpeaks(env, s, before, id);
      SilenceIsKept(env, s, before, id);
      SilenceIsKept(env, s, es, id);
      TurnOnSeat(env, Run(env, s, before), es[|es| - 1], id);
      assert es[..|before|] == before && es[..|es|] == es;
      if s.timeout != 0 { OverdueOneMore(env, s, es, id); }
    }
  }

  lemma OverdueOneMore(env: Env, s: Session, es: seq<Envelope>, id: nat)
    requires es != [] && 1 <= id <= |s.players| && s.timeout != 0
    ensures NeverOverdue(env, s, es, id) <==>
              NeverOverdue(env, s, es[..|es| - 1], id) && Silence(env, s, es, id) <= s.timeout
  {
    hide Silence;
    var before := es[..|es| - 1];
    forall k | 0 <= k <= |before| ensures before[..k] == es[..k] {}
    assert es[..|es|] == es;
  }
}
