/** The transport loop as the service runs it: tables and output queue mutated in place.
    Every method is proved against the session functions. */
module TransportLoop {
  import opened Slots
  import opened Protocol
  import opened Combat
  import opened Relay
  import opened Session
  import Dialogue

  /** A framed packet in the output queue. */
  datatype Output = Output(conn: nat, sequence: nat, msg: Message)

  /** The packets for `sends` when the transmit sequence stood at `base`. */
  function Framed(sends: seq<Send>, base: nat): seq<Output> {
    seq(|sends|, i requires 0 <= i < |sends| => Output(sends[i].conn, base + i + 1, sends[i].msg))
  }

  /** A guest's selection that waits for the host. */
  datatype Selection = Selection(player: nat, dialogueId: nat, choiceId: nat)

  class Loop {
    const env: Env
    const sessionId: nat
    const rules: set<Rule>
    const tickRate: nat
    const bubbleCenter: Vec3
    const bubbleRadius: real
    const timeout: nat
    var players: seq<Player>
    var registry: seq<Binding>
    var actors: seq<Actor>
    var objects: seq<Object>
    var settlements: seq<Settlement>
    var nextObjectId: nat
    var dialogue: Dialogue.State
    var tick: nat
    var outputs: seq<Output>
    var lastTx: nat
    var pending: Option<Selection>
    ghost var asked: seq<Send>  // everything sent since the queue was cleared, dropped or not
    ghost var base: nat  // the transmit sequence when the queue was cleared

    /** The session the tables make up. */
    function View(): Session
      reads this
    {
      Session(sessionId, rules, tickRate, bubbleCenter, bubbleRadius, players, registry, actors, objects,
              settlements, nextObjectId, dialogue, tick, timeout)
    }

    /** The queue holds the first 64 of the messages asked for, numbered consecutively. */
    ghost predicate Valid()
      reads this`outputs, this`lastTx, this`asked, this`base
    {
      lastTx == base + |asked| && outputs == Framed(TakeQueue(asked), base)
    }

    constructor (env: Env, s: Session)
      ensures Valid() && View() == s && asked == [] && this.env == env && lastTx == 0 && pending == None
    {
      this.env := env;
      sessionId, rules, tickRate := s.sessionId, s.rules, s.tickRate;
      bubbleCenter, bubbleRadius, timeout := s.bubbleCenter, s.bubbleRadius, s.timeout;
      players, registry, actors := s.players, s.registry, s.actors;
      objects, settlements, nextObjectId := s.objects, s.settlements, s.nextObjectId;
      dialogue, tick := s.dialogue, s.tick;
      outputs, lastTx, asked, base, pending := [], 0, [], 0, None;
    }

    // ---- sending -----------------------------------------------------------------------------------

    /** `tl_clear_outputs`. */
    method ClearOutputs()
      requires Valid()
      modifies this`outputs, this`asked, this`base
      ensures Valid() && asked == [] && base == lastTx
    {
      outputs, asked, base := [], [], lastTx;
    }

    /** `tl_send_single` and `tl_push_output`: the sequence number is spent even when the queue is full. */
    method SendSingle(conn: nat, msg: Message) returns (ok: bool)
      requires Valid()
      modifies this`outputs, this`lastTx, this`asked
      ensures Valid() && asked == old(asked) + [Send(conn, msg)]
      ensures ok <==> |old(asked)| < MAX_OUTPUTS
    {
      lastTx := lastTx + 1;
      ok := |outputs| < MAX_OUTPUTS;
      if ok {
        outputs := outputs + [Output(conn, lastTx, msg)];
      }
      asked := asked + [Send(conn, msg)];
    }

    method BroadcastMessage(msg: Message)
      requires Valid()
      modifies this`outputs, this`lastTx, this`asked
      ensures Valid() && asked == old(asked) + Broadcast(players, msg)
    {
      var i := 0;
      while i < |players|
        invariant i <= |players| && Valid()
        invariant asked == old(asked) + Broadcast(players[..i], msg)
      {
        assert players[..i + 1][..i] == players[..i];
        if players[i].connected {
          var _ := SendSingle(players[i].conn, msg);
        }
        i := i + 1;
      }
      assert players[..i] == players;
    }

    // ---- joining -----------------------------------------------------------------------------------

    method FindFreeId() returns (id: nat)
      ensures id == FreeId(players, 1)
    {
      id := 1;
      while id < MAX_PLAYERS
        invariant 1 <= id <= MAX_PLAYERS
        invariant FreeId(players, 1) == FreeId(players, id)
      {
        var i := FirstMatch(players, (p: Player) => p.connected && p.id == id);
        if i == |players| { return; }
        id := id + 1;
      }
    }

    method BindPlayer(guid: string, player: nat)
      modifies this`registry
      ensures registry == Bind(old(registry), guid, player)
    {
      if guid == "" { return; }
      var i := FirstMatch(registry, (b: Binding) => b.inUse && b.guid == guid);
      if i < |registry| {
        registry := registry[i := registry[i].(player := player)];
        return;
      }
      i := FirstMatch(registry, (b: Binding) => !b.inUse);
      if i < |registry| {
        registry := registry[i := Binding(true, StoredGuid(guid), player)];
      }
    }

    /** Join or reconnect; `id` is the player id, zero when refused. */
    method TakeSeat(conn: nat, guid: string) returns (seated: bool, id: nat)
      modifies this`players, this`registry
      ensures seated <==> Seat(old(View()), conn, guid).Some?
      ensures seated ==> Seat(old(View()), conn, guid) == Some((id, View()))
      ensures !seated ==> View() == old(View())
    {
      hide First, FreeId, Bind;
      seated, id := false, 0;
      var b := FirstMatch(registry, (x: Binding) => x.inUse && x.guid == guid);
      if b == |registry| {
        id := FindFreeId();
        if id == MAX_PLAYERS { return; }
        var i := FirstMatch(players, (p: Player) => !p.connected);
        if i == |players| { return; }
        players := players[i := NO_PLAYER.(connected := true, id := id, conn := conn)];
        BindPlayer(guid, id);
        seated := true;
      } else {
        id := registry[b].player;
        var player := id;
        var i := FirstMatch(players, (p: Player) => p.id == player);
        if i == |players| { return; }
        players := players[i := players[i].(connected := true, conn := conn)];
        seated := true;
      }
    }

    method ReplayPlayers(conn: nat, id: nat) returns (center: Vec3)
      requires Valid()
      modifies this`outputs, this`lastTx, this`asked
      ensures Valid() && asked == old(asked) + PlayerReplay(players, conn, id)
      ensures center == ReplayCenter(players, id, bubbleCenter)
    {
      center := bubbleCenter;
      var i := 0;
      while i < |players|
        invariant i <= |players| && Valid()
        invariant asked == old(asked) + PlayerReplay(players[..i], conn, id)
        invariant center == ReplayCenter(players[..i], id, bubbleCenter)
      {
        assert players[..i + 1][..i] == players[..i];
        if players[i].connected && players[i].id != id {
          var _ := SendSingle(conn, PlayerStateMsg(players[i].state));
        }
        if players[i].connected && players[i].id == id {
          center := players[i].state.position;
        }
        i := i + 1;
      }
      assert players[..i] == players;
    }

    method ReplayActors(conn: nat, center: Vec3, radius: real)
      requires Valid()
      modifies this`outputs, this`lastTx, this`asked
      ensures Valid() && asked == old(asked) + ActorReplay(actors, conn, center, radius)
    {
      var i := 0;
      while i < |actors|
        invariant i <= |actors| && Valid()
        invariant asked == old(asked) + ActorReplay(actors[..i], conn, center, radius)
      {
        assert actors[..i + 1][..i] == actors[..i];
        if ReplaysActor(actors[i], center, radius) {
          var _ := SendSingle(conn, SpawnActorMsg(actors[i]));
          var _ := SendSingle(conn, ActorStateMsg(actors[i].state));
        }
        i := i + 1;
      }
      assert actors[..i] == actors;
    }

    method ReplayObjects(conn: nat, center: Vec3, radius: real)
      requires Valid()
      modifies this`outputs, this`lastTx, this`asked
      ensures Valid() && asked == old(asked) + ObjectReplay(objects, conn, center, radius)
    {
      var i := 0;
      while i < |objects|
        invariant i <= |objects| && Valid()
        invariant asked == old(asked) + ObjectReplay(objects[..i], conn, center, radius)
      {
        assert objects[..i + 1][..i] == objects[..i];
        if ReplaysObject(objects[i], center, radius) {
          var _ := SendSingle(conn, SpawnObjectMsg(objects[i]));
        }
        i := i + 1;
      }
      assert objects[..i] == objects;
    }

    /** `tl_send_existing_state_to_player`. */
    method SendExistingState(conn: nat, id: nat)
      requires Valid()
      modifies this`outputs, this`lastTx, this`asked
      ensures Valid() && asked == old(asked) + ExistingState(View(), conn, id)
    {
      hide Valid, PlayerReplay, ReplayCenter, ActorReplay, ObjectReplay;
      var center := ReplayPlayers(conn, id);
      var radius := if bubbleRadius <= 0.0 then DEFAULT_REPLAY_RADIUS else bubbleRadius;
      ReplayActors(conn, center, radius);
      ReplayObjects(conn, center, radius);
    }

    /** The welcome and the profile always fit, because the queue was cleared before. */
    method OnHello(conn: nat, guid: string, profile: Profile) returns (ok: bool)
      requires Valid() && asked == []
      modifies this`players, this`registry, this`outputs, this`lastTx, this`asked
      ensures Valid()
      ensures var o := HandleHello(old(View()), conn, guid, profile);
              ok == o.accepted && View() == o.session && asked == o.sends
    {
      hide Valid, Seat, ExistingState, First;
      var seated, id := TakeSeat(conn, guid);
      if !seated { return false; }
      var i := FirstMatch(players, (p: Player) => p.connected && p.id == id);
      if i == |players| { return false; }
      players := players[i := players[i].(conn := conn, lastHeard := tick, profile := profile)];
      ok := SendSingle(conn, Welcome(sessionId, id, tickRate, rules));
      if !ok { return; }
      ok := SendSingle(conn, ProfileSnapshot(profile.stats));
      if !ok { return; }
      ok := SendSingle(conn, ProfileItems(profile.items));
      if !ok { return; }
      ok := SendSingle(conn, ProfilePerks(profile.perks));
      if !ok { return; }
      ok := SendSingle(conn, ProfileAppearance(profile.sex, profile.bodyPreset));
      if !ok { return; }
      SendExistingState(conn, id);
    }

    // ---- player requests ---------------------------------------------------------------------------

    method NoteHeard(id: nat)
      modifies this`players
      ensures View() == Heard(old(View()), id)
    {
      var i := FirstMatch(players, (p: Player) => p.connected && p.id == id);
      if i < |players| {
        players := players[i := players[i].(lastHeard := tick)];
      }
    }

    /** `sm_remove_player`. */
    method RemovePlayer(id: nat)
      modifies this`players
      ensures players == Drop(old(players), id)
    {
      var i := FirstMatch(players, (p: Player) => p.id == id);
      if i < |players| {
        players := players[i := players[i].(connected := false, conn := 0)];
      }
    }

    method OnDisconnect(id: nat)
      requires Valid() && asked == []
      modifies this`players, this`outputs, this`lastTx, this`asked
      ensures Valid()
      ensures var o := HandleDisconnect(old(View()), id); o.accepted && View() == o.session && asked == o.sends
    {
      hide Valid, Broadcast, Heard, Drop;
      NoteHeard(id);
      BroadcastMessage(PlayerLeft(id));
      RemovePlayer(id);
    }

    method OnPlayerUpdate(id: nat, msg: PlayerState) returns (ok: bool)
      requires Valid() && asked == []
      modifies this`players, this`outputs, this`lastTx, this`asked
      ensures Valid()
      ensures var o := HandlePlayerUpdate(old(View()), id, msg);
              ok == o.accepted && View() == o.session && asked == o.sends
    {
      hide Valid, Broadcast, Evaluate, Accepts;
      if msg.playerId != id { return false; }
      var i := FirstMatch(players, (p: Player) => p.connected && p.id == id);
      if i == |players| { return false; }
      var relay := players[i].relay;
      players := players[i := players[i].(lastHeard := tick)];
      players := players[i := players[i].(relay := Evaluate(relay, msg))];
      if Accepts(relay, msg) {
        players := players[i := players[i].(state := msg)];
        BroadcastMessage(PlayerStateMsg(players[i].state));
      }
      ok := true;
    }

    method OnInput(id: nat, clientTick: nat, equipped: nat) returns (ok: bool)
      requires Valid() && asked == []
      modifies this`players, this`outputs, this`lastTx, this`asked
      ensures Valid()
      ensures var o := HandleInput(old(View()), id, clientTick, equipped);
              ok == o.accepted && View() == o.session && asked == o.sends
    {
      hide Valid, Broadcast;
      var i := FirstMatch(players, (p: Player) => p.connected && p.id == id);
      if i == |players| { return false; }
      var p := players[i];
      players := players[i := p.(lastInput := clientTick, state := p.state.(equipped := equipped),
                                 profile := p.profile.(stats := p.profile.stats.(equipped := equipped)))];
      players := players[i := players[i].(lastHeard := tick)];
      BroadcastMessage(PlayerStateMsg(players[i].state));
      ok := true;
    }

    // ---- combat and workshop -------------------------------------------------------------------------

    /** Wounds the actor in slot `t` and tells everyone. */
    method Shoot(shooter: nat, t: nat) returns (damage: DamageResult, death: Option<DeathEvent>)
      requires Valid() && asked == [] && t < |actors|
      modifies this`actors, this`outputs, this`lastTx, this`asked
      ensures Valid()
      ensures Outcome(true, View(), asked, Some(damage), death) == Shot(old(View()), shooter, t)
    {
      hide Valid, Broadcast, Wound, First;
      var a := Wound(actors[t]);
      actors := actors[t := a];
      var killed := a.state.health == 0;
      damage := DamageResult(shooter, a.id, 1, killed, a.state.health);
      death := if killed then Some(DeathEvent(a.id, shooter)) else None;
      if a.id != 0 { TellHit(damage, death); }
    }

    /** The damage, the wounded actor if it is found, and its death. */
    method TellHit(damage: DamageResult, death: Option<DeathEvent>)
      requires Valid() && asked == []
      modifies this`outputs, this`lastTx, this`asked
      ensures Valid()
      ensures var j := FindActor(actors, damage.victim);
              asked == Broadcast(players, DamageMsg(damage))
                + (if j < |actors| then Broadcast(players, ActorStateMsg(actors[j].state)) else [])
                + (if death.Some? then Broadcast(players, DeathMsg(death.value)) else [])
    {
      hide Valid, Broadcast, First;
      BroadcastMessage(DamageMsg(damage));
      var j := FirstMatch(actors, (x: Actor) => x.inUse && x.id == damage.victim);
      if j < |actors| { BroadcastMessage(ActorStateMsg(actors[j].state)); }
      if death.Some? { BroadcastMessage(DeathMsg(death.value)); }
    }

    /** `ac_handle_fire_intent` and the broadcasts that follow it. */
    method OnFire(id: nat, req: Request) returns (ok: bool)
      requires Valid() && asked == [] && req.Fire?
      modifies this`players, this`actors, this`outputs, this`lastTx, this`asked
      ensures Valid()
      ensures var o := HandleFire(env, old(View()), id, req);
              ok == o.accepted && View() == o.session && asked == o.sends
    {
      hide Valid, Heard, FireValid, Target, Normalize, Shot;
      if req.player != id { return false; }
      NoteHeard(id);
      if !FireValid(env, View(), req) { return false; }
      var t := FindTarget(env.root, req.origin, Normalize(env.root, req.direction), actors);
      ok := true;
      if t.Some? && t.value < |actors| {
        var _, _ := Shoot(req.player, t.value);
      }
    }

    method ChangeCount(settlementId: nat, delta: int)
      modifies this`settlements
      ensures settlements == Adjusted(old(settlements), settlementId, delta)
    {
      var t := FirstMatch(settlements, (x: Settlement) => x.inUse && x.id == settlementId);
      if t < |settlements| && settlements[t].count + delta >= 0 {
        settlements := settlements[t := settlements[t].(count := settlements[t].count + delta)];
      }
    }

    /** `ac_handle_build_request`. */
    method Construct(req: Request) returns (answer: Message)
      requires req.Build?
      modifies this`objects, this`settlements, this`nextObjectId
      ensures (answer, View()) == BuildStep(env, old(View()), req)
    {
      hide BuildValid, Adjusted;
      if !BuildValid(env, View(), req) {
        return BuildResult(req.requestId, false, BuildDeniedGeneric, 0);
      }
      var i := FirstMatch(objects, (o: Object) => !o.inUse);
      var newId := nextObjectId;
      nextObjectId := nextObjectId + 1;
      if i == |objects| {
        return BuildResult(req.requestId, false, BuildBudgetExceeded, 0);
      }
      objects := objects[i := NewObject(req, newId)];
      ChangeCount(req.settlementId, 1);
      answer := BuildResult(req.requestId, true, BuildOk, newId);
    }

    method OnBuild(conn: nat, id: nat, req: Request) returns (ok: bool)
      requires Valid() && asked == [] && req.Build?
      modifies this`players, this`objects, this`settlements, this`nextObjectId, this`outputs, this`lastTx, this`asked
      ensures Valid()
      ensures var o := HandleBuild(env, old(View()), conn, id, req);
              ok == o.accepted && View() == o.session && asked == o.sends
    {
      hide Valid, Broadcast, Heard, BuildValid, Adjusted;
      if req.builder != id { return false; }
      NoteHeard(id);
      var answer := Construct(req);
      ok := true;
      var _ := SendSingle(conn, answer);
      if answer.accepted {
        var o := FirstMatch(objects, (x: Object) => x.inUse && x.id == answer.builtId);
        if o < |objects| { BroadcastMessage(SpawnObjectMsg(objects[o])); }
      }
    }

    method OnMove(id: nat, req: Request) returns (ok: bool)
      requires Valid() && asked == [] && req.Move?
      modifies this`objects, this`outputs, this`lastTx, this`asked
      ensures Valid()
      ensures var o := HandleMove(old(View()), id, req); ok == o.accepted && View() == o.session && asked == o.sends
    {
      hide Valid, Broadcast, First;
      if req.mover != id || !MoveValid(View(), req) { return false; }
      var o := FirstMatch(objects, (x: Object) => x.inUse && x.id == req.objectId);
      objects := objects[o := MovedObject(objects[o], req)];
      var j := FirstMatch(objects, (x: Object) => x.inUse && x.id == req.objectId);
      if j < |objects| { BroadcastMessage(UpdateObjectMsg(objects[j])); }
      ok := true;
    }

    method OnScrap(id: nat, req: Request) returns (ok: bool)
      requires Valid() && asked == [] && req.Scrap?
      modifies this`objects, this`settlements, this`outputs, this`lastTx, this`asked
      ensures Valid()
      ensures var o := HandleScrap(old(View()), id, req); ok == o.accepted && View() == o.session && asked == o.sends
    {
      hide Valid, Broadcast, Adjusted, First;
      if req.scrapper != id || HostAuthWorkshop !in rules { return false; }
      var p := FirstMatch(players, (x: Player) => x.connected && x.id == req.scrapper);
      if p == |players| { return false; }
      var o := FirstMatch(objects, (x: Object) => x.inUse && x.id == req.scrapId);
      if o == |objects| { return false; }
      ChangeCount(objects[o].settlementId, -1);
      objects := objects[o := NO_OBJECT];
      BroadcastMessage(ObjectDespawn(req.scrapId));
      ok := true;
    }

    // ---- the dispatcher ------------------------------------------------------------------------------

    /** `tl_try_pop_dialogue_select`: hands out the latest selection once. */
    method TryPopSelection() returns (selection: Option<Selection>)
      modifies this`pending
      ensures selection == old(pending) && pending == None
    {
      selection := pending;
      pending := None;
    }

    /** `tl_handle_envelope`. An accepted selection replaces one that still waits. */
    method HandleEnvelope(e: Envelope) returns (ok: bool)
      requires Valid() && asked == []
      modifies this`players, this`registry, this`actors, this`objects, this`settlements, this`nextObjectId,
               this`dialogue, this`outputs, this`lastTx, this`asked, this`pending
      ensures Valid()
      ensures var o := Handle(env, old(View()), e); ok == o.accepted && View() == o.session && asked == o.sends
      ensures pending == if ok && e.request.Select? then Some(Chosen(old(players), e)) else old(pending)
    {
      hide HandleHello, HandleDisconnect, HandlePlayerUpdate, HandleInput, HandleFire, HandleBuild, HandleMove,
           HandleScrap, HandleSelect, Heard, Valid, First;
      if e.request.Hello? {
        ok := OnHello(e.conn, e.request.guid, e.request.profile);
        return;
      }
      var i := FirstMatch(players, (p: Player) => p.connected && p.conn == e.conn);
      if i == |players| { return false; }
      var id := players[i].id;
      match e.request {
        case Ping(timeMs) =>
          NoteHeard(id);
          ok := SendSingle(e.conn, Pong(timeMs));
        case Disconnect =>
          OnDisconnect(id);
          ok := true;
        case PlayerUpdate(state) => ok := OnPlayerUpdate(id, state);
        case InputState(clientTick, equipped) => ok := OnInput(id, clientTick, equipped);
        case Fire(_, _, _, _) => ok := OnFire(id, e.request);
        case Build(_, _, _, _, _, _, _) => ok := OnBuild(e.conn, id, e.request);
        case Move(_, _, _, _) => ok := OnMove(id, e.request);
        case Scrap(_, _) => ok := OnScrap(id, e.request);
        case Select(_, _) => ok := OnSelect(id, e.request);
        case Unusable => ok := false;
      }
    }

    method OnSelect(id: nat, req: Request) returns (ok: bool)
      requires req.Select?
      modifies this`dialogue, this`pending
      ensures var o := HandleSelect(old(View()), id, req); ok == o.accepted && View() == o.session && o.sends == []
      ensures pending == if ok then Some(Selection(id, req.dialogueId, req.choiceId)) else old(pending)
    {
      ok := Dialogue.Validate(dialogue, req.dialogueId, req.choiceId) == Dialogue.Accepted;
      if ok {
        dialogue := Dialogue.Recorded(dialogue, id, req.choiceId);
        pending := Some(Selection(id, req.dialogueId, req.choiceId));
      }
    }

    // ---- the tick ------------------------------------------------------------------------------------

    method CollectTimedOut() returns (ids: seq<nat>)
      ensures ids == TimedOutIds(players, tick, timeout)
    {
      ids := [];
      var i := 0;
      while i < |players|
        invariant i <= |players|
        invariant ids == TimedOutIds(players[..i], tick, timeout)
      {
        assert players[..i + 1][..i] == players[..i];
        if players[i].connected && tick - players[i].lastHeard > timeout {
          ids := ids + [players[i].id];
        }
        i := i + 1;
      }
      assert players[..i] == players;
    }

    /** Announces each departure to everyone still connected, then drops the player. */
    method DropPlayers(ids: seq<nat>)
      requires Valid()
      modifies this`players, this`outputs, this`lastTx, this`asked
      ensures Valid() && players == DropAll(old(players), ids).0 && asked == old(asked) + DropAll(old(players), ids).1
    {
      hide Valid, Broadcast, Drop;
      var i := 0;
      while i < |ids|
        invariant i <= |ids| && Valid()
        invariant players == DropAll(old(players), ids[..i]).0
        invariant asked == old(asked) + DropAll(old(players), ids[..i]).1
      {
        assert ids[..i + 1][..i] == ids[..i];
        BroadcastMessage(PlayerLeft(ids[i]));
        RemovePlayer(ids[i]);
        i := i + 1;
      }
      assert ids[..i] == ids;
    }

    /** `ws_remove_actor`. */
    method ClearActor(id: nat)
      modifies this`actors
      ensures actors == RemoveActor(old(actors), id)
    {
      var i := FirstMatch(actors, (a: Actor) => a.inUse && a.id == id);
      if i < |actors| {
        actors := actors[i := NO_ACTOR];
      }
    }

    /** `ac_tick`. */
    method MarkDeadActors()
      modifies this`actors
      ensures actors == MarkDead(old(actors), 0)
    {
      var i := 0;
      while i < |actors|
        invariant i <= |actors| == |old(actors)|
        invariant MarkDead(actors, i) == MarkDead(old(actors), 0)
      {
        if IsDead(actors[i]) {
          if actors[i].pendingDespawn {
            ClearActor(actors[i].id);
          } else {
            actors := actors[i := actors[i].(pendingDespawn := true)];
          }
        }
        i := i + 1;
      }
    }

    /** Collects at most 64 marked actors. */
    method CollectDead() returns (ids: seq<nat>)
      ensures var all := DeadIds(actors); ids == if |all| <= MAX_DESPAWNS then all else all[..MAX_DESPAWNS]
    {
      ids := [];
      var i := 0;
      while i < |actors| && |ids| < MAX_DESPAWNS
        invariant i <= |actors| && |ids| <= MAX_DESPAWNS
        invariant ids == DeadIds(actors[..i])
      {
        assert actors[..i + 1][..i] == actors[..i];
        if IsDead(actors[i]) && actors[i].pendingDespawn {
          ids := ids + [actors[i].id];
        }
        i := i + 1;
      }
      DeadIdsGrow(actors, i);
      assert actors[..|actors|] == actors;
    }

    method DespawnActors(ids: seq<nat>)
      requires Valid()
      modifies this`actors, this`outputs, this`lastTx, this`asked
      ensures Valid()
      ensures actors == DespawnAll(players, old(actors), ids).0
      ensures asked == old(asked) + DespawnAll(players, old(actors), ids).1
    {
      hide Valid, Broadcast, RemoveActor;
      var i := 0;
      while i < |ids|
        invariant i <= |ids| && Valid()
        invariant actors == DespawnAll(players, old(actors), ids[..i]).0
        invariant asked == old(asked) + DespawnAll(players, old(actors), ids[..i]).1
      {
        assert ids[..i + 1][..i] == ids[..i];
        BroadcastMessage(ActorDespawn(ids[i]));
        ClearActor(ids[i]);
        i := i + 1;
      }
      assert ids[..i] == ids;
    }

    /** `tl_tick`. */
    method OnTick()
      requires Valid()
      modifies this`tick, this`players, this`actors, this`outputs, this`lastTx, this`asked
      ensures Valid()
      ensures var (s, sends) := Tick(old(View())); View() == s && asked == old(asked) + sends
    {
      hide Valid, DropAll, MarkDead, DespawnAll, DeadIds, TimedOutIds;
      tick := tick + 1;
      if timeout > 0 {
        var late := CollectTimedOut();
        DropPlayers(late);
      }
      MarkDeadActors();
      var dead := CollectDead();
      DespawnActors(dead);
    }

    /** One turn of the server loop: what is put on the wire, and the session it leaves. */
    method ServeEnvelope(e: Envelope) returns (packets: seq<Output>)
      requires Valid()
      modifies this
      ensures Valid()
      ensures View() == Turn(env, old(View()), e)
      ensures |packets| == |Transmitted(env, old(View()), e)|
      ensures forall i :: 0 <= i < |packets| ==>
                var send := Transmitted(env, old(View()), e)[i];
                packets[i] == Output(send.conn, old(lastTx) + i + 1, send.msg)
      ensures lastTx == old(lastTx) + |Demand(env, old(View()), e)|
    {
      hide Handle, Tick;
      ClearOutputs();
      var ok := HandleEnvelope(e);
      packets := [];
      if ok {
        OnTick();
        packets := outputs;
      }
    }
  }

  /** The selection an envelope carries, in the name of the player it comes from. */
  function Chosen(players: seq<Player>, e: Envelope): Selection
    requires e.request.Select?
  {
    var i := FindConnection(players, e.conn);
    Selection(if i < |players| then players[i].id else 0, e.request.dialogueId, e.request.choiceId)
  }

  /** Scanning further only appends to the list of dead ids. */
  lemma {:induction false} DeadIdsGrow(actors: seq<Actor>, n: nat)
    requires n <= |actors|
    ensures DeadIds(actors[..n]) <= DeadIds(actors)
    decreases |actors| - n
  {
    if n == |actors| {
      assert actors[..n] == actors;
    } else {
      DeadIdsGrow(actors, n + 1);
      assert actors[..n + 1][..n] == actors[..n];
    }
  }
}
