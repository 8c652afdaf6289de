/** Slots, player ids and GUID bindings: what every turn of the server loop keeps. */
module Seating {
  import opened Slots
  import opened Protocol
  import opened Session

  /** Slot `i` only ever carries player id `i + 1`; the last slot is never connected. */
  ghost predicate PlayersOk(players: seq<Player>, tick: nat) {
    && |players| == MAX_PLAYERS
    && (forall i :: 0 <= i < |players| ==> players[i].id == 0 || players[i].id == i + 1)
    && (forall i :: 0 <= i < |players| && players[i].connected ==> players[i].id == i + 1 && i < MAX_PLAYERS - 1)
    && (forall i :: 0 <= i < |players| ==> players[i].lastHeard <= tick)
  }

  /** Bindings fill the registry from the front, hold truncated non-empty GUIDs and name seated ids. */
  ghost predicate RegistryOk(registry: seq<Binding>, players: seq<Player>)
    requires |players| == MAX_PLAYERS
  {
    && |registry| == MAX_REGISTRY
    && (forall i, j :: 0 <= i < j < |registry| && registry[j].inUse ==> registry[i].inUse)
    && (forall i :: 0 <= i < |registry| && registry[i].inUse ==>
          && 1 <= |registry[i].guid| <= MAX_STORED_GUID
          && 1 <= registry[i].player < MAX_PLAYERS
          && players[registry[i].player - 1].id == registry[i].player)
  }

  ghost predicate SeatingOk(s: Session) {
    PlayersOk(s.players, s.tick) && RegistryOk(s.registry, s.players)
  }

  /** No slot that has an id loses or changes it. */
  ghost predicate KeepsIds(before: seq<Player>, after: seq<Player>) {
    && |before| == |after|
    && forall i :: 0 <= i < |before| && before[i].id != 0 ==> after[i].id == before[i].id
  }

  /** No binding is ever changed or removed. */
  ghost predicate Extends(before: seq<Binding>, after: seq<Binding>) {
    && |before| == |after|
    && forall i :: 0 <= i < |before| && before[i].inUse ==> after[i] == before[i]
  }

  // ---- connected ids determine slots ---------------------------------------------------------

  lemma PlayerSlot(players: seq<Player>, tick: nat, id: nat)
    requires PlayersOk(players, tick)
    ensures 1 <= id < MAX_PLAYERS && players[id - 1].connected ==> FindPlayer(players, id) == id - 1
    ensures FindPlayer(players, id) < |players| ==> FindPlayer(players, id) == id - 1 && players[id - 1].connected
    ensures id != 0 && FindSlot(players, id) < |players| ==> FindSlot(players, id) == id - 1 && players[id - 1].id == id
    ensures 1 <= id <= MAX_PLAYERS && players[id - 1].id == id ==> FindSlot(players, id) == id - 1
  {
    if 1 <= id <= MAX_PLAYERS && players[id - 1].id == id {
      assert forall i :: 0 <= i < id - 1 ==> players[i].id != id;
    }
  }

  lemma FreeIdStep(players: seq<Player>, id: nat)
    requires id <= MAX_PLAYERS
    ensures FreeId(players, id) ==
              if id == MAX_PLAYERS || FindPlayer(players, id) == |players| then id else FreeId(players, id + 1)
  {
  }

  /** The id search stops at the first id whose slot is not connected. */
  lemma {:induction false} FreeIdIsFirst(players: seq<Player>, tick: nat, id: nat)
    requires PlayersOk(players, tick) && 1 <= id <= MAX_PLAYERS
    ensures var r := FreeId(players, id);
            && (forall i :: id - 1 <= i < r - 1 ==> players[i].connected)
            && (r < MAX_PLAYERS ==> !players[r - 1].connected)
    decreases MAX_PLAYERS - id
  {
    hide First, FreeId;
    FreeIdStep(players, id);
    PlayerSlot(players, tick, id);
    if id < MAX_PLAYERS && FindPlayer(players, id) < |players| {
      FreeIdIsFirst(players, tick, id + 1);
    }
  }

  /** A new player gets the slot that its id names. */
  lemma FreeIdMatchesFreeSlot(players: seq<Player>, tick: nat)
    requires PlayersOk(players, tick)
    ensures var id := FreeId(players, 1);
            if id < MAX_PLAYERS then FreeSlot(players) == id - 1
            else forall i :: 0 <= i < MAX_PLAYERS - 1 ==> players[i].connected
  {
    FreeIdIsFirst(players, tick, 1);
  }

  // ---- seating -------------------------------------------------------------------------------

  lemma BindKeepsRegistry(registry: seq<Binding>, players: seq<Player>, guid: string, id: nat)
    requires |players| == MAX_PLAYERS && RegistryOk(registry, players)
    requires 1 <= id < MAX_PLAYERS && players[id - 1].id == id
    requires FindBinding(registry, guid) == |registry|
    ensures RegistryOk(Bind(registry, guid, id), players) && Extends(registry, Bind(registry, guid, id))
  {
    hide First;
  }

  lemma IdsKeepRegistry(registry: seq<Binding>, before: seq<Player>, after: seq<Player>)
    requires |before| == MAX_PLAYERS && RegistryOk(registry, before) && KeepsIds(before, after)
    ensures RegistryOk(registry, after)
  {
  }

  /** The sender sits in the slot its id names and nothing else moved. */
  ghost predicate Seated(s: Session, conn: nat, id: nat, t: Session) {
    && |s.players| == |t.players| == MAX_PLAYERS && 1 <= id < MAX_PLAYERS
    && SeatingOk(t) && KeepsIds(s.players, t.players) && Extends(s.registry, t.registry)
    && t.players == s.players[id - 1 := t.players[id - 1]]
    && t.players[id - 1].connected && t.players[id - 1].conn == conn
    && FindPlayer(t.players, id) == id - 1
    && t == s.(players := t.players, registry := t.registry)
  }

  lemma RejoinFindsSlot(s: Session, conn: nat, guid: string)
    requires SeatingOk(s) && FindBinding(s.registry, guid) < |s.registry|
    ensures Seat(s, conn, guid).Some?
    ensures var (id, t) := Seat(s, conn, guid).value;
            id == s.registry[FindBinding(s.registry, guid)].player && Seated(s, conn, id, t)
  {
    hide First;
    var id := s.registry[FindBinding(s.registry, guid)].player;
    PlayerSlot(s.players, s.tick, id);
    var players := s.players[id - 1 := s.players[id - 1].(connected := true, conn := conn)];
    IdsKeepRegistry(s.registry, s.players, players);
    PlayerSlot(players, s.tick, id);
  }

  lemma JoinFindsSlot(s: Session, conn: nat, guid: string)
    requires SeatingOk(s) && FindBinding(s.registry, guid) == |s.registry|
    ensures Seat(s, conn, guid).None? <==> FreeId(s.players, 1) == MAX_PLAYERS
    ensures Seat(s, conn, guid).Some? ==> var (id, t) := Seat(s, conn, guid).value; Seated(s, conn, id, t)
  {
    hide First, FreeId, Bind;
    FreeIdMatchesFreeSlot(s.players, s.tick);
    var id := FreeId(s.players, 1);
    if id < MAX_PLAYERS {
      var players := s.players[id - 1 := NO_PLAYER.(connected := true, id := id, conn := conn)];
      IdsKeepRegistry(s.registry, s.players, players);
      BindKeepsRegistry(s.registry, players, guid, id);
      PlayerSlot(players, s.tick, id);
    }
  }

  /** A HELLO is refused only when the GUID is unbound and all seven ids are connected: a bound GUID always
      finds its slot. Otherwise the sender is seated in the slot of its id, and no other slot changes. */
  lemma SeatFindsSlot(s: Session, conn: nat, guid: string)
    requires SeatingOk(s)
    ensures Seat(s, conn, guid).None? <==>
              && FindBinding(s.registry, guid) == |s.registry|
              && forall i :: 0 <= i < MAX_PLAYERS - 1 ==> s.players[i].connected
    ensures Seat(s, conn, guid).Some? ==> var (id, t) := Seat(s, conn, guid).value; Seated(s, conn, id, t)
  {
    if FindBinding(s.registry, guid) < |s.registry| {
      RejoinFindsSlot(s, conn, guid);
    } else {
      JoinFindsSlot(s, conn, guid);
      FreeIdMatchesFreeSlot(s.players, s.tick);
      FreeIdIsFirst(s.players, s.tick, 1);
    }
  }

  // ---- every handler and the tick keep the seating ---------------------------------------------

  /** Same seats: a handler changed at most what a slot carries besides its identity. */
  ghost predicate SameSeats(s: Session, t: Session) {
    && t.tick >= s.tick
    && PlayersOk(t.players, t.tick)
    && KeepsIds(s.players, t.players)
    && t.registry == s.registry
  }

  lemma SameSeatsKeepSeating(s: Session, t: Session)
    requires SeatingOk(s) && SameSeats(s, t)
    ensures SeatingOk(t) && Extends(s.registry, t.registry)
  {
    IdsKeepRegistry(s.registry, s.players, t.players);
  }

  lemma HelloKeepsSeating(s: Session, conn: nat, guid: string, profile: Profile)
    requires SeatingOk(s)
    ensures var o := HandleHello(s, conn, guid, profile);
            SeatingOk(o.session) && KeepsIds(s.players, o.session.players) && Extends(s.registry, o.session.registry)
    ensures HandleHello(s, conn, guid, profile).accepted <==> Seat(s, conn, guid).Some?
  {
    hide Seat, ExistingState, ProfileSends, First;
    SeatFindsSlot(s, conn, guid);
    if Seat(s, conn, guid).Some? {
      var (id, t) := Seat(s, conn, guid).value;
      var o := HandleHello(s, conn, guid, profile);
      IdsKeepRegistry(t.registry, t.players, o.session.players);
    }
  }

  lemma HeardKeepsSeats(s: Session, id: nat)
    requires SeatingOk(s)
    ensures SameSeats(s, Heard(s, id)) && Heard(s, id) == s.(players := Heard(s, id).players)
  {
  }

  lemma DropKeepsSeats(players: seq<Player>, tick: nat, id: nat)
    requires PlayersOk(players, tick)
    ensures PlayersOk(Drop(players, id), tick) && KeepsIds(players, Drop(players, id))
  {
  }

  lemma {:induction false} DropAllKeepsSeats(players: seq<Player>, tick: nat, ids: seq<nat>)
    requires PlayersOk(players, tick)
    ensures PlayersOk(DropAll(players, ids).0, tick) && KeepsIds(players, DropAll(players, ids).0)
  {
    if ids != [] {
      DropAllKeepsSeats(players, tick, ids[..|ids| - 1]);
      DropKeepsSeats(DropAll(players, ids[..|ids| - 1]).0, tick, ids[|ids| - 1]);
    }
  }

  lemma PlayerUpdateKeepsSeats(s: Session, id: nat, msg: PlayerState)
    requires SeatingOk(s)
    ensures SameSeats(s, HandlePlayerUpdate(s, id, msg).session)
  {
  }

  lemma InputKeepsSeats(s: Session, id: nat, clientTick: nat, equipped: nat)
    requires SeatingOk(s)
    ensures SameSeats(s, HandleInput(s, id, clientTick, equipped).session)
  {
  }

  lemma DisconnectKeepsSeats(s: Session, id: nat)
    requires SeatingOk(s)
    ensures SameSeats(s, HandleDisconnect(s, id).session)
  {
    HeardKeepsSeats(s, id);
    DropKeepsSeats(Heard(s, id).players, s.tick, id);
  }

  lemma FireKeepsSeats(env: Env, s: Session, id: nat, req: Request)
    requires SeatingOk(s) && req.Fire?
    ensures SameSeats(s, HandleFire(env, s, id, req).session)
  {
    HeardKeepsSeats(s, id);
  }

  lemma BuildKeepsSeats(env: Env, s: Session, conn: nat, id: nat, req: Request)
    requires SeatingOk(s) && req.Build?
    ensures SameSeats(s, HandleBuild(env, s, conn, id, req).session)
  {
    HeardKeepsSeats(s, id);
  }

  /** No request other than HELLO moves a seat. */
  lemma RequestKeepsSeats(env: Env, s: Session, e: Envelope)
    requires SeatingOk(s) && !e.request.Hello?
    ensures SameSeats(s, Handle(env, s, e).session)
  {
    hide HandleFire, HandleBuild, HandlePlayerUpdate, HandleInput, HandleDisconnect, Heard;
    var i := FindConnection(s.players, e.conn);
    if i < |s.players| {
      var id := s.players[i].id;
      match e.request {
        case Ping(_) => HeardKeepsSeats(s, id);
        case Disconnect => DisconnectKeepsSeats(s, id);
        case PlayerUpdate(msg) => PlayerUpdateKeepsSeats(s, id, msg);
        case InputState(tick, equipped) => InputKeepsSeats(s, id, tick, equipped);
        case Fire(_, _, _, _) => FireKeepsSeats(env, s, id, e.request);
        case Build(_, _, _, _, _, _, _) => BuildKeepsSeats(env, s, e.conn, id, e.request);
        case _ =>
      }
    }
  }

  lemma HandleKeepsSeating(env: Env, s: Session, e: Envelope)
    requires SeatingOk(s)
    ensures var t := Handle(env, s, e).session;
            SeatingOk(t) && Extends(s.registry, t.registry) && KeepsIds(s.players, t.players)
  {
    if e.request.Hello? {
      HelloKeepsSeating(s, e.conn, e.request.guid, e.request.profile);
    } else {
      RequestKeepsSeats(env, s, e);
      SameSeatsKeepSeating(s, Handle(env, s, e).session);
    }
  }

  lemma TickKeepsSeating(s: Session)
    requires SeatingOk(s)
    ensures var t := Tick(s).0; SeatingOk(t) && t.registry == s.registry && KeepsIds(s.players, t.players)
  {
    DropAllKeepsSeats(s.players, s.tick, TimedOutIds(s.players, s.tick + 1, s.timeout));
    SameSeatsKeepSeating(s, Tick(s).0);
  }

  lemma TurnKeepsSeating(env: Env, s: Session, e: Envelope)
    requires SeatingOk(s)
    ensures var t := Turn(env, s, e);
            SeatingOk(t) && Extends(s.registry, t.registry) && KeepsIds(s.players, t.players)
  {
    HandleKeepsSeating(env, s, e);
    TickKeepsSeating(Handle(env, s, e).session);
  }

  lemma {:induction false} RunKeepsSeating(env: Env, s: Session, es: seq<Envelope>)
    requires SeatingOk(s)
    ensures var t := Run(env, s, es);
            SeatingOk(t) && Extends(s.registry, t.registry) && KeepsIds(s.players, t.players)
  {
    if es != [] {
      RunKeepsSeating(env, s, es[..|es| - 1]);
      TurnKeepsSeating(env, Run(env, s, es[..|es| - 1]), es[|es| - 1]);
    }
  }

  // ---- GUIDs keep their player ids -------------------------------------------------------------

  lemma ExtendedRegistryFindsSame(before: seq<Binding>, after: seq<Binding>, players: seq<Player>, guid: string)
    requires |players| == MAX_PLAYERS && RegistryOk(before, players) && Extends(before, after)
    requires FindBinding(before, guid) < |before|
    ensures FindBinding(after, guid) == FindBinding(before, guid)
  {
  }

  /** A GUID is bound after an accepted HELLO if and only if it was bound before, or it has 1 to 63 bytes and a registry
      entry was free. */
  lemma HelloBindsGuid(s: Session, conn: nat, guid: string, profile: Profile)
    requires SeatingOk(s) && HandleHello(s, conn, guid, profile).accepted
    ensures var t := HandleHello(s, conn, guid, profile).session;
            FindBinding(t.registry, guid) < |t.registry| <==>
              || FindBinding(s.registry, guid) < |s.registry|
              || (1 <= |guid| <= MAX_STORED_GUID && FreeBinding(s.registry) < |s.registry|)
  {
    hide First, ExistingState, ProfileSends;
    SeatFindsSlot(s, conn, guid);
    HelloKeepsSeating(s, conn, guid, profile);
    var t := HandleHello(s, conn, guid, profile).session;
    if FindBinding(s.registry, guid) < |s.registry| {
      ExtendedRegistryFindsSame(s.registry, t.registry, s.players, guid);
    } else if 1 <= |guid| <= MAX_STORED_GUID && FreeBinding(s.registry) < |s.registry| {
      var j := FreeBinding(s.registry);
      assert t.registry[j].inUse && t.registry[j].guid == guid;
    }
  }

  /** The id a HELLO would be given in this session, if it is seated. */
  function WelcomedId(s: Session, conn: nat, guid: string): Option<nat> {
    match Seat(s, conn, guid) case None => None case Some((id, _)) => Some(id)
  }

  /** A GUID that an accepted HELLO leaves unbound is forgotten at once: a second HELLO with it, from any connection, is
      refused or seated as somebody else. */
  lemma UnboundGuidLosesPlayer(s: Session, conn: nat, guid: string, profile: Profile, again: nat)
    requires SeatingOk(s) && HandleHello(s, conn, guid, profile).accepted
    requires FindBinding(s.registry, guid) == |s.registry|
    requires |guid| > MAX_STORED_GUID || guid == "" || FreeBinding(s.registry) == |s.registry|
    ensures WelcomedId(s, conn, guid).Some?
    ensures WelcomedId(HandleHello(s, conn, guid, profile).session, again, guid) != WelcomedId(s, conn, guid)
  {
    hide First, ExistingState, ProfileSends, FreeId, FreeSlot;
    SeatFindsSlot(s, conn, guid);
    HelloKeepsSeating(s, conn, guid, profile);
    HelloBindsGuid(s, conn, guid, profile);
    var t := HandleHello(s, conn, guid, profile).session;
    FreeIdIsFirst(t.players, t.tick, 1);
  }

  /** A bound GUID keeps its player id for the whole run: whatever happens in between, its next HELLO,
      from any connection, is seated with the same id. */
  lemma BoundGuidKeepsPlayer(env: Env, s: Session, es: seq<Envelope>, guid: string, conn: nat)
    requires SeatingOk(s) && FindBinding(s.registry, guid) < |s.registry|
    ensures WelcomedId(Run(env, s, es), conn, guid) == Some(s.registry[FindBinding(s.registry, guid)].player)
  {
    RunKeepsSeating(env, s, es);
    var t := Run(env, s, es);
    ExtendedRegistryFindsSame(s.registry, t.registry, s.players, guid);
    SeatFindsSlot(t, conn, guid);
  }
}
