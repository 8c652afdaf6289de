/** The host-authoritative session: its slot tables and what one envelope and one tick do to them.
    Each handler yields the new session and the messages it asks the transport to send, in order. */
module Session {
  import opened Slots
  import opened Protocol
  import opened Combat
  import opened Relay
  import Dialogue

  const FIRST_OBJECT_ID: nat := 1000
  const FIRST_ACTOR_ID: nat := 2000
  const MAX_STORED_GUID: nat := 63
  const MAX_DESPAWNS: nat := 64
  const DEFAULT_REPLAY_RADIUS := 512.0

  datatype Player = Player(
    connected: bool, id: nat, conn: nat, state: PlayerState, lastHeard: nat, lastInput: nat,
    relay: RelayStats, profile: Profile)

  const NO_PLAYER := Player(false, 0, 0, BLANK_PLAYER_STATE, 0, 0, NO_STATS, BLANK_PROFILE)

  datatype Object = Object(
    inUse: bool, id: nat, formId: nat, settlementId: nat, position: Vec3, rotation: Rot3,
    flags: set<ObjectFlag>, owner: nat)

  const NO_OBJECT := Object(false, 0, 0, 0, ORIGIN, NO_TURN, {}, 0)

  datatype Settlement = Settlement(inUse: bool, id: nat, center: Vec3, radius: real, count: nat, budget: nat)

  const NO_SETTLEMENT := Settlement(false, 0, ORIGIN, 0.0, 0, 0)

  /** One GUID-to-player entry of the registry. */
  datatype Binding = Binding(inUse: bool, guid: string, player: nat)

  const NO_BINDING := Binding(false, "", 0)

  datatype Session = Session(
    sessionId: nat, rules: set<Rule>, tickRate: nat, bubbleCenter: Vec3, bubbleRadius: real,
    players: seq<Player>, registry: seq<Binding>, actors: seq<Actor>,
    objects: seq<Object>, settlements: seq<Settlement>, nextObjectId: nat,
    dialogue: Dialogue.State, tick: nat, timeout: nat)

  /** What the service is given: the workshop whitelist, the square root and the line-of-sight oracle. */
  datatype Env = Env(whitelist: set<nat>, root: Root, los: (Vec3, Vec3) -> bool)

  datatype Request =
    | Hello(guid: string, profile: Profile)
    | Ping(timeMs: nat)
    | Disconnect
    | PlayerUpdate(state: PlayerState)
    | InputState(clientTick: nat, equipped: nat)
    | Fire(player: nat, weapon: nat, origin: Vec3, direction: Vec3)
    | Build(requestId: nat, builder: nat, settlementId: nat, formId: nat, position: Vec3, rotation: Rot3,
        snapTarget: nat)
    | Move(mover: nat, objectId: nat, newPosition: Vec3, newRotation: Rot3)
    | Scrap(scrapper: nat, scrapId: nat)
    | Select(dialogueId: nat, choiceId: nat)
    | Unusable  // fails a header check or its decoder, or has an unsupported type

  datatype Envelope = Envelope(conn: nat, request: Request)

  datatype Outcome = Outcome(
    accepted: bool, session: Session, sends: seq<Send>, damage: Option<DamageResult>, death: Option<DeathEvent>)

  function Rejected(s: Session): Outcome { Outcome(false, s, [], None, None) }

  function Done(s: Session, sends: seq<Send>): Outcome { Outcome(true, s, sends, None, None) }

  // ---- lookups -------------------------------------------------------------------------------

  function FindPlayer(players: seq<Player>, id: nat): (r: nat)
    ensures r <= |players|
    ensures r < |players| ==> players[r].connected && players[r].id == id
    ensures forall i :: 0 <= i < r ==> !(players[i].connected && players[i].id == id)
  {
    First(players, (p: Player) => p.connected && p.id == id)
  }

  function FindConnection(players: seq<Player>, conn: nat): (r: nat)
    ensures r <= |players|
    ensures r < |players| ==> players[r].connected && players[r].conn == conn
    ensures forall i :: 0 <= i < r ==> !(players[i].connected && players[i].conn == conn)
  {
    First(players, (p: Player) => p.connected && p.conn == conn)
  }

  /** The slot that carries this player id, connected or not. */
  function FindSlot(players: seq<Player>, id: nat): (r: nat)
    ensures r <= |players|
    ensures r < |players| ==> players[r].id == id
    ensures forall i :: 0 <= i < r ==> players[i].id != id
  {
    First(players, (p: Player) => p.id == id)
  }

  function FreeSlot(players: seq<Player>): (r: nat)
    ensures r <= |players|
    ensures r < |players| ==> !players[r].connected
    ensures forall i :: 0 <= i < r ==> players[i].connected
  {
    First(players, (p: Player) => !p.connected)
  }

  function FindActor(actors: seq<Actor>, id: nat): (r: nat)
    ensures r <= |actors|
    ensures r < |actors| ==> actors[r].inUse && actors[r].id == id
    ensures forall i :: 0 <= i < r ==> !(actors[i].inUse && actors[i].id == id)
  {
    First(actors, (a: Actor) => a.inUse && a.id == id)
  }

  function FindObject(objects: seq<Object>, id: nat): (r: nat)
    ensures r <= |objects|
    ensures r < |objects| ==> objects[r].inUse && objects[r].id == id
    ensures forall i :: 0 <= i < r ==> !(objects[i].inUse && objects[i].id == id)
  {
    First(objects, (o: Object) => o.inUse && o.id == id)
  }

  function FreeObject(objects: seq<Object>): (r: nat)
    ensures r <= |objects|
    ensures r < |objects| ==> !objects[r].inUse
  {
    First(objects, (o: Object) => !o.inUse)
  }

  function FindSettlement(settlements: seq<Settlement>, id: nat): (r: nat)
    ensures r <= |settlements|
    ensures r < |settlements| ==> settlements[r].inUse && settlements[r].id == id
    ensures forall i :: 0 <= i < r ==> !(settlements[i].inUse && settlements[i].id == id)
  {
    First(settlements, (t: Settlement) => t.inUse && t.id == id)
  }

  function FindBinding(registry: seq<Binding>, guid: string): (r: nat)
    ensures r <= |registry|
    ensures r < |registry| ==> registry[r].inUse && registry[r].guid == guid
    ensures forall i :: 0 <= i < r ==> !(registry[i].inUse && registry[i].guid == guid)
  {
    First(registry, (b: Binding) => b.inUse && b.guid == guid)
  }

  function FreeBinding(registry: seq<Binding>): (r: nat)
    ensures r <= |registry|
    ensures r < |registry| ==> !registry[r].inUse
    ensures forall i :: 0 <= i < r ==> registry[i].inUse
  {
    First(registry, (b: Binding) => !b.inUse)
  }

  // ---- broadcasts ----------------------------------------------------------------------------

  /** One message to every connected slot, in slot order. */
  function Broadcast(players: seq<Player>, msg: Message): seq<Send> {
    if players == [] then []
    else
      var last := players[|players| - 1];
      Broadcast(players[..|players| - 1], msg) + (if last.connected then [Send(last.conn, msg)] else [])
  }

  function SpawnActorMsg(a: Actor): Message {
    ActorSpawn(a.id, a.baseForm, a.state.position, a.state.rotation, a.kind, a.spawnFlags)
  }

  function SpawnObjectMsg(o: Object): Message {
    ObjectSpawn(o.id, o.formId, o.position, o.rotation, o.flags)
  }

  function UpdateObjectMsg(o: Object): Message {
    ObjectUpdate(o.id, {PositionField, RotationField, StateFlagsField}, o.position, o.rotation, o.flags)
  }

  // ---- join and reconnect --------------------------------------------------------------------

  /** The smallest player id from `id` up to 7 that no connected player holds, or 8. */
  function FreeId(players: seq<Player>, id: nat): (r: nat)
    requires id <= MAX_PLAYERS
    ensures id <= r <= MAX_PLAYERS
    decreases MAX_PLAYERS - id
  {
    if id == MAX_PLAYERS || FindPlayer(players, id) == |players| then id else FreeId(players, id + 1)
  }

  function StoredGuid(guid: string): string {
    if |guid| <= MAX_STORED_GUID then guid else guid[..MAX_STORED_GUID]
  }

  /** `sr_bind_player`. */
  function Bind(registry: seq<Binding>, guid: string, player: nat): (r: seq<Binding>)
    ensures |r| == |registry|
  {
    if guid == "" then registry
    else
      var i := FindBinding(registry, guid);
      if i < |registry| then registry[i := registry[i].(player := player)]
      else
        var j := FreeBinding(registry);
        if j < |registry| then registry[j := Binding(true, StoredGuid(guid), player)] else registry
  }

  /** Seats the sender of a HELLO: the player id it gets and the session after the join or reconnect. */
  function Seat(s: Session, conn: nat, guid: string): Option<(nat, Session)> {
    var b := FindBinding(s.registry, guid);
    if b == |s.registry| then
      var id := FreeId(s.players, 1);
      if id == MAX_PLAYERS then None
      else
        var i := FreeSlot(s.players);
        if i == |s.players| then None
        else Some((id, s.(players := s.players[i := NO_PLAYER.(connected := true, id := id, conn := conn)],
                          registry := Bind(s.registry, guid, id))))
    else
      var id := s.registry[b].player;
      var i := FindSlot(s.players, id);
      if i == |s.players| then None
      else Some((id, s.(players := s.players[i := s.players[i].(connected := true, conn := conn)])))
  }

  function ProfileSends(conn: nat, p: Profile): seq<Send> {
    [Send(conn, ProfileSnapshot(p.stats)), Send(conn, ProfileItems(p.items)),
     Send(conn, ProfilePerks(p.perks)), Send(conn, ProfileAppearance(p.sex, p.bodyPreset))]
  }

  function PlayerReplay(players: seq<Player>, conn: nat, exclude: nat): seq<Send> {
    if players == [] then []
    else
      var p := players[|players| - 1];
      PlayerReplay(players[..|players| - 1], conn, exclude)
      + (if p.connected && p.id != exclude then [Send(conn, PlayerStateMsg(p.state))] else [])
  }

  /** The replay is centred on the joining player's own replicated position. */
  function ReplayCenter(players: seq<Player>, id: nat, fallback: Vec3): Vec3 {
    if players == [] then fallback
    else
      var p := players[|players| - 1];
      if p.connected && p.id == id then p.state.position else ReplayCenter(players[..|players| - 1], id, fallback)
  }

  function ReplayRadius(s: Session): real {
    if s.bubbleRadius <= 0.0 then DEFAULT_REPLAY_RADIUS else s.bubbleRadius
  }

  predicate ReplaysActor(a: Actor, center: Vec3, radius: real) {
    a.inUse && DistanceSq(a.state.position, center) <= radius * radius
  }

  predicate ReplaysObject(o: Object, center: Vec3, radius: real) {
    o.inUse && DistanceSq(o.position, center) <= radius * radius
  }

  /** A spawn and a state for every actor in range. */
  function ActorReplay(actors: seq<Actor>, conn: nat, center: Vec3, radius: real): seq<Send> {
    if actors == [] then []
    else
      var a := actors[|actors| - 1];
      ActorReplay(actors[..|actors| - 1], conn, center, radius)
      + (if ReplaysActor(a, center, radius)
         then [Send(conn, SpawnActorMsg(a)), Send(conn, ActorStateMsg(a.state))] else [])
  }

  function ObjectReplay(objects: seq<Object>, conn: nat, center: Vec3, radius: real): seq<Send> {
    if objects == [] then []
    else
      var o := objects[|objects| - 1];
      ObjectReplay(objects[..|objects| - 1], conn, center, radius)
      + (if ReplaysObject(o, center, radius) then [Send(conn, SpawnObjectMsg(o))] else [])
  }

  /** `tl_send_existing_state_to_player`. */
  function ExistingState(s: Session, conn: nat, id: nat): seq<Send> {
    var center := ReplayCenter(s.players, id, s.bubbleCenter);
    PlayerReplay(s.players, conn, id)
    + ActorReplay(s.actors, conn, center, ReplayRadius(s))
    + ObjectReplay(s.objects, conn, center, ReplayRadius(s))
  }

  function HandleHello(s: Session, conn: nat, guid: string, profile: Profile): Outcome {
    match Seat(s, conn, guid)
    case None => Rejected(s)
    case Some((id, seated)) =>
      var i := FindPlayer(seated.players, id);
      if i == |seated.players| then Rejected(seated)
      else
        var joined := seated.(players := seated.players[i :=
          seated.players[i].(conn := conn, lastHeard := s.tick, profile := profile)]);
        Done(joined, [Send(conn, Welcome(s.sessionId, id, s.tickRate, s.rules))]
                     + ProfileSends(conn, profile) + ExistingState(joined, conn, id))
  }

  // ---- player requests -----------------------------------------------------------------------

  /** Notes that a player was heard from in the current tick. */
  function Heard(s: Session, id: nat): (r: Session)
    ensures |r.players| == |s.players|
  {
    var i := FindPlayer(s.players, id);
    if i == |s.players| then s else s.(players := s.players[i := s.players[i].(lastHeard := s.tick)])
  }

  /** `sm_remove_player`: the slot keeps its id and its state. */
  function Drop(players: seq<Player>, id: nat): (r: seq<Player>)
    ensures |r| == |players|
  {
    var i := FindSlot(players, id);
    if i == |players| then players else players[i := players[i].(connected := false, conn := 0)]
  }

  function HandleDisconnect(s: Session, id: nat): Outcome {
    var h := Heard(s, id);
    Done(h.(players := Drop(h.players, id)), Broadcast(h.players, PlayerLeft(id)))
  }

  function HandlePlayerUpdate(s: Session, id: nat, msg: PlayerState): Outcome {
    var i := FindPlayer(s.players, id);
    if msg.playerId != id || i == |s.players| then Rejected(s)
    else
      var p := s.players[i].(lastHeard := s.tick, relay := Evaluate(s.players[i].relay, msg));
      if !Accepts(s.players[i].relay, msg) then Done(s.(players := s.players[i := p]), [])
      else
        var players := s.players[i := p.(state := msg)];
        Done(s.(players := players), Broadcast(players, PlayerStateMsg(msg)))
  }

  function HandleInput(s: Session, id: nat, clientTick: nat, equipped: nat): Outcome {
    var i := FindPlayer(s.players, id);
    if i == |s.players| then Rejected(s)
    else
      var p := s.players[i];
      var q := p.(lastInput := clientTick, lastHeard := s.tick, state := p.state.(equipped := equipped),
                  profile := p.profile.(stats := p.profile.stats.(equipped := equipped)));
      var players := s.players[i := q];
      Done(s.(players := players), Broadcast(players, PlayerStateMsg(q.state)))
  }

  // ---- combat --------------------------------------------------------------------------------

  predicate InsideBubble(s: Session, id: nat) {
    var i := FindPlayer(s.players, id);
    i < |s.players| && DistanceSq(s.players[i].state.position, s.bubbleCenter) <= s.bubbleRadius * s.bubbleRadius
  }

  predicate FireValid(env: Env, s: Session, req: Request)
    requires req.Fire?
  {
    && HostAuthCombat in s.rules
    && InsideBubble(s, req.player)
    && req.weapon != 0
    && LengthSq(req.direction) >= 0.0001
    && var dir := Normalize(env.root, req.direction);
       env.los(req.origin, Vec3(req.origin.x + dir.x * 1024.0, req.origin.y + dir.y * 1024.0,
                                req.origin.z + dir.z * 1024.0))
  }

  /** A hit takes a quarter of the health range; at zero the actor is dead. */
  function Wound(a: Actor): Actor {
    var health := if a.state.health < 1 then 0 else a.state.health - 1;
    a.(state := a.state.(health := health, flags := if health == 0 then a.state.flags + {Dead} else a.state.flags))
  }

  /** What hitting the actor in slot `t` does, and the packets that tell of it. */
  function Shot(h: Session, shooter: nat, t: nat): Outcome
    requires t < |h.actors|
  {
    var a := Wound(h.actors[t]);
    var killed := a.state.health == 0;
    var damage := DamageResult(shooter, a.id, 1, killed, a.state.health);
    var death := DeathEvent(a.id, shooter);
    var actors := h.actors[t := a];
    var j := FindActor(actors, a.id);
    var sends := if a.id == 0 then [] else
      Broadcast(h.players, DamageMsg(damage))
      + (if j < |actors| then Broadcast(h.players, ActorStateMsg(actors[j].state)) else [])
      + (if killed then Broadcast(h.players, DeathMsg(death)) else []);
    Outcome(true, h.(actors := actors), sends, Some(damage), if killed then Some(death) else None)
  }

  function HandleFire(env: Env, s: Session, id: nat, req: Request): Outcome
    requires req.Fire?
  {
    if req.player != id then Rejected(s)
    else
      var h := Heard(s, id);
      if !FireValid(env, h, req) then Rejected(h)
      else
        var t := Target(env.root, req.origin, Normalize(env.root, req.direction), h.actors);
        if t.None? || t.value >= |h.actors| then Done(h, []) else Shot(h, req.player, t.value)
  }

  // ---- workshop ------------------------------------------------------------------------------

  predicate Connected(s: Session, id: nat) { FindPlayer(s.players, id) < |s.players| }

  predicate Inside(t: Settlement, position: Vec3) {
    DistanceSq(position, t.center) <= t.radius * t.radius
  }

  predicate BuildValid(env: Env, s: Session, req: Request)
    requires req.Build?
  {
    var t := FindSettlement(s.settlements, req.settlementId);
    && HostAuthWorkshop in s.rules
    && Connected(s, req.builder)
    && t < |s.settlements|
    && s.settlements[t].count < s.settlements[t].budget
    && Inside(s.settlements[t], req.position)
    && req.formId in env.whitelist
    && (req.snapTarget != 0 ==>
          var o := FindObject(s.objects, req.snapTarget);
          o < |s.objects| && s.objects[o].settlementId == req.settlementId)
  }

  function Adjusted(settlements: seq<Settlement>, id: nat, delta: int): (r: seq<Settlement>)
    ensures |r| == |settlements|
  {
    var t := FindSettlement(settlements, id);
    if t == |settlements| || settlements[t].count + delta < 0 then settlements
    else settlements[t := settlements[t].(count := settlements[t].count + delta)]
  }

  function NewObject(req: Request, id: nat): Object
    requires req.Build?
  {
    Object(true, id, req.formId, req.settlementId, req.position, req.rotation, {PlacedByPlayer}, req.builder)
  }

  /** `ac_handle_build_request`: the answer and the session; the id counter moves even when no slot is free. */
  function BuildStep(env: Env, s: Session, req: Request): (Message, Session)
    requires req.Build?
  {
    if !BuildValid(env, s, req) then (BuildResult(req.requestId, false, BuildDeniedGeneric, 0), s)
    else
      var i := FreeObject(s.objects);
      if i == |s.objects| then
        (BuildResult(req.requestId, false, BuildBudgetExceeded, 0), s.(nextObjectId := s.nextObjectId + 1))
      else
        (BuildResult(req.requestId, true, BuildOk, s.nextObjectId),
         s.(objects := s.objects[i := NewObject(req, s.nextObjectId)],
            settlements := Adjusted(s.settlements, req.settlementId, 1),
            nextObjectId := s.nextObjectId + 1))
  }

  function HandleBuild(env: Env, s: Session, conn: nat, id: nat, req: Request): Outcome
    requires req.Build?
  {
    if req.builder != id then Rejected(s)
    else
      var (answer, built) := BuildStep(env, Heard(s, id), req);
      var o := FindObject(built.objects, answer.builtId);
      Done(built, [Send(conn, answer)]
                  + (if answer.accepted && o < |built.objects|
                     then Broadcast(built.players, SpawnObjectMsg(built.objects[o])) else []))
  }

  predicate MoveValid(s: Session, req: Request)
    requires req.Move?
  {
    && HostAuthWorkshop in s.rules
    && Connected(s, req.mover)
    && var o := FindObject(s.objects, req.objectId);
       && o < |s.objects|
       && var t := FindSettlement(s.settlements, s.objects[o].settlementId);
          t < |s.settlements| && Inside(s.settlements[t], req.newPosition)
  }

  function MovedObject(o: Object, req: Request): Object
    requires req.Move?
  {
    o.(position := req.newPosition, rotation := req.newRotation, flags := o.flags + {Moved})
  }

  function HandleMove(s: Session, id: nat, req: Request): Outcome
    requires req.Move?
  {
    if req.mover != id || !MoveValid(s, req) then Rejected(s)
    else
      var o := FindObject(s.objects, req.objectId);
      var objects := s.objects[o := MovedObject(s.objects[o], req)];
      var j := FindObject(objects, req.objectId);
      Done(s.(objects := objects),
           if j < |objects| then Broadcast(s.players, UpdateObjectMsg(objects[j])) else [])
  }

  predicate ScrapValid(s: Session, req: Request)
    requires req.Scrap?
  {
    HostAuthWorkshop in s.rules && Connected(s, req.scrapper) && FindObject(s.objects, req.scrapId) < |s.objects|
  }

  function HandleScrap(s: Session, id: nat, req: Request): Outcome
    requires req.Scrap?
  {
    if req.scrapper != id || !ScrapValid(s, req) then Rejected(s)
    else
      var o := FindObject(s.objects, req.scrapId);
      Done(s.(settlements := Adjusted(s.settlements, s.objects[o].settlementId, -1),
              objects := s.objects[o := NO_OBJECT]),
           Broadcast(s.players, ObjectDespawn(req.scrapId)))
  }

  // ---- the envelope dispatcher ---------------------------------------------------------------

  function HandleSelect(s: Session, id: nat, req: Request): Outcome
    requires req.Select?
  {
    if Dialogue.Validate(s.dialogue, req.dialogueId, req.choiceId) != Dialogue.Accepted then Rejected(s)
    else Done(s.(dialogue := Dialogue.Recorded(s.dialogue, id, req.choiceId)), [])
  }

  /** `tl_handle_envelope`. */
  function Handle(env: Env, s: Session, e: Envelope): Outcome {
    if e.request.Hello? then HandleHello(s, e.conn, e.request.guid, e.request.profile)
    else
      var i := FindConnection(s.players, e.conn);
      if i == |s.players| then Rejected(s)
      else
        var id := s.players[i].id;
        match e.request
        case Ping(timeMs) => Done(Heard(s, id), [Send(e.conn, Pong(timeMs))])
        case Disconnect => HandleDisconnect(s, id)
        case PlayerUpdate(state) => HandlePlayerUpdate(s, id, state)
        case InputState(clientTick, equipped) => HandleInput(s, id, clientTick, equipped)
        case Fire(_, _, _, _) => HandleFire(env, s, id, e.request)
        case Build(_, _, _, _, _, _, _) => HandleBuild(env, s, e.conn, id, e.request)
        case Move(_, _, _, _) => HandleMove(s, id, e.request)
        case Scrap(_, _) => HandleScrap(s, id, e.request)
        case Select(_, _) => HandleSelect(s, id, e.request)
        case Unusable => Rejected(s)
  }

  // ---- the tick ------------------------------------------------------------------------------

  predicate TimedOut(p: Player, tick: nat, timeout: nat) {
    p.connected && tick - p.lastHeard > timeout
  }

  function TimedOutIds(players: seq<Player>, tick: nat, timeout: nat): seq<nat> {
    if players == [] then []
    else
      var p := players[|players| - 1];
      TimedOutIds(players[..|players| - 1], tick, timeout) + (if TimedOut(p, tick, timeout) then [p.id] else [])
  }

  /** Each timed-out player is announced to everyone still connected, then dropped. */
  function DropAll(players: seq<Player>, ids: seq<nat>): (r: (seq<Player>, seq<Send>))
    ensures |r.0| == |players|
  {
    if ids == [] then (players, [])
    else
      var (before, sends) := DropAll(players, ids[..|ids| - 1]);
      var id := ids[|ids| - 1];
      (Drop(before, id), sends + Broadcast(before, PlayerLeft(id)))
  }

  predicate IsDead(a: Actor) { a.inUse && Dead in a.state.flags }

  function RemoveActor(actors: seq<Actor>, id: nat): (r: seq<Actor>)
    ensures |r| == |actors|
  {
    var i := FindActor(actors, id);
    if i == |actors| then actors else actors[i := NO_ACTOR]
  }

  /** `ac_tick` from slot `i` on: a dead actor is marked for despawn, or removed if it already was. */
  function MarkDead(actors: seq<Actor>, i: nat): (r: seq<Actor>)
    requires i <= |actors|
    ensures |r| == |actors|
    decreases |actors| - i
  {
    if i == |actors| then actors
    else if !IsDead(actors[i]) then MarkDead(actors, i + 1)
    else if actors[i].pendingDespawn then MarkDead(RemoveActor(actors, actors[i].id), i + 1)
    else MarkDead(actors[i := actors[i].(pendingDespawn := true)], i + 1)
  }

  /** The ids of the actors to despawn, in slot order. */
  function DeadIds(actors: seq<Actor>): seq<nat> {
    if actors == [] then []
    else
      var a := actors[|actors| - 1];
      DeadIds(actors[..|actors| - 1]) + (if IsDead(a) && a.pendingDespawn then [a.id] else [])
  }

  function DespawnAll(players: seq<Player>, actors: seq<Actor>, ids: seq<nat>): (r: (seq<Actor>, seq<Send>))
    ensures |r.0| == |actors|
  {
    if ids == [] then (actors, [])
    else
      var (before, sends) := DespawnAll(players, actors, ids[..|ids| - 1]);
      var id := ids[|ids| - 1];
      (RemoveActor(before, id), sends + Broadcast(players, ActorDespawn(id)))
  }

  function TickPlayers(s: Session): (r: (seq<Player>, seq<Send>))
    ensures |r.0| == |s.players|
  {
    if s.timeout == 0 then (s.players, [])
    else DropAll(s.players, TimedOutIds(s.players, s.tick + 1, s.timeout))
  }

  function TickActors(players: seq<Player>, actors: seq<Actor>): (r: (seq<Actor>, seq<Send>))
    ensures |r.0| == |actors|
  {
    var marked := MarkDead(actors, 0);
    var ids := DeadIds(marked);
    DespawnAll(players, marked, if |ids| <= MAX_DESPAWNS then ids else ids[..MAX_DESPAWNS])
  }

  /** `tl_tick`. */
  function Tick(s: Session): (Session, seq<Send>) {
    var (players, left) := TickPlayers(s);
    var (actors, despawns) := TickActors(players, s.actors);
    (s.(tick := s.tick + 1, players := players, actors := actors), left + despawns)
  }

  // ---- one turn of the server loop -----------------------------------------------------------

  function TakeQueue(sends: seq<Send>): (r: seq<Send>)
    ensures |r| <= MAX_OUTPUTS
    ensures |sends| <= MAX_OUTPUTS ==> r == sends
  {
    if |sends| <= MAX_OUTPUTS then sends else sends[..MAX_OUTPUTS]
  }

  /** The messages one turn asks for, queued or not. */
  function Demand(env: Env, s: Session, e: Envelope): seq<Send> {
    var o := Handle(env, s, e);
    if o.accepted then o.sends + Tick(o.session).1 else o.sends
  }

  /** The session after one turn: a refused envelope skips the tick. */
  function Turn(env: Env, s: Session, e: Envelope): Session {
    var o := Handle(env, s, e);
    if o.accepted then Tick(o.session).0 else o.session
  }

  /** What the turn puts on the wire: nothing if the envelope is refused, else the first 64 messages. */
  function Transmitted(env: Env, s: Session, e: Envelope): seq<Send> {
    if Handle(env, s, e).accepted then TakeQueue(Demand(env, s, e)) else []
  }

  function Run(env: Env, s: Session, es: seq<Envelope>): Session {
    if es == [] then s else Turn(env, Run(env, s, es[..|es| - 1]), es[|es| - 1])
  }

  lemma {:induction false} RunAppend(env: Env, s: Session, a: seq<Envelope>, b: seq<Envelope>)
    ensures Run(env, s, a + b) == Run(env, Run(env, s, a), b)
  {
    hide Turn;
    if b == [] {
      assert a + b == a;
    } else {
      RunAppend(env, s, a, b[..|b| - 1]);
      assert (a + b)[..|a + b| - 1] == a + b[..|b| - 1];
    }
  }

  lemma RunFront(env: Env, s: Session, e: Envelope, es: seq<Envelope>)
    ensures Run(env, s, [e] + es) == Run(env, Turn(env, s, e), es)
  {
    hide Turn;
    RunAppend(env, s, [e], es);
    assert [e][..0] == [];
  }
}
