/** What a client knows of an actor besides its state: which form and kind it is, who hurt it last, and whether it is
    dead. */
module Identity {
  import opened Slots
  import opened Protocol
  import opened Combat
  import opened Session
  import opened Lifecycle
  import opened Proxy
  import opened Mirror
  import opened Delivery
  import opened MirrorTurns
  import opened MirrorJoin
  import opened Holding
  import Workshop
  import JoinReplay
  import StateNews
  import Timeouts

  // ---- one record ------------------------------------------------------------------------------------------------

  function RecordOf(t: Tables, id: nat): ProxyActor
    requires HoldsActor(t, id)
  {
    t.actors[HeldActor(t.actors, id)]
  }

  /** What a message makes of the record of one actor: a spawn starts it afresh, a state replaces all but its form, kind
      and wounds, and can only lift the mark of death, damage notes the attacker, and death takes the health. */
  ghost predicate Becomes(a: ProxyActor, msg: Message, b: ProxyActor) {
    match msg
    case ActorSpawn(id, base, at, turn, kind, flags) =>
      if id == a.id
      then b == ProxyActor(true, id, base, kind, flags, at, turn, FULL_HEALTH, 0, {}, 0, false, 0, 0)
      else b == a
    case ActorStateMsg(s) =>
      if s.actorId == a.id
      then
        && b.inUse && b.id == a.id && b.baseForm == a.baseForm && b.kind == a.kind && b.spawnFlags == a.spawnFlags
        && b.position == s.position && b.rotation == s.rotation && b.health == s.health && b.animState == s.animState
        && b.flags == s.flags && b.targetId == s.targetId
        && b.damageFrom == a.damageFrom && b.damageAmount == a.damageAmount
        && (b.isDead <==> a.isDead && s.health == 0)
      else b == a
    case DamageMsg(d) =>
      if d.victim == a.id
      then b == a.(health := d.healthAfter, damageFrom := d.attacker, damageAmount := d.amount,
                   isDead := a.isDead || d.killed || d.healthAfter == 0)
      else b == a
    case DeathMsg(d) => if d.victim == a.id then b == a.(health := 0, isDead := true) else b == a
    case _ => b == a
  }

  lemma SlotWritten(before: seq<ProxyActor>, after: seq<ProxyActor>, i: nat, id: nat)
    requires HeldActor(before, id) < |before| && i < |before| == |after| && after == before[i := after[i]]
    requires if i == HeldActor(before, id) then after[i].inUse && after[i].id == id
             else (before[i].inUse ==> before[i].id != id) && (after[i].inUse ==> after[i].id != id)
    ensures HeldActor(after, id) == HeldActor(before, id)
  {
    hide First;
    var h, k := HeldActor(before, id), HeldActor(after, id);
    assert after[h].inUse && after[h].id == id;
    assert forall j :: 0 <= j < h ==> !(after[j].inUse && after[j].id == id);
  }

  /** The tables change record by record: a message does to each actor held what it says of it. */
  lemma ApplyOnActor(t: Tables, msg: Message, id: nat)
    requires HoldsActor(t, id) && msg != ActorDespawn(id)
    ensures HoldsActor(Apply(t, msg), id) && Becomes(RecordOf(t, id), msg, RecordOf(Apply(t, msg), id))
  {
    hide First;
    var a, after := t.actors, Apply(t, msg).actors;
    if msg.ActorStateMsg? {
      StateOnActor(a, msg.actor, id);
    } else {
      var x := match msg case ActorSpawn(x, _, _, _, _, _) => x case ActorDespawn(x) => x case DamageMsg(d) => d.victim
          case DeathMsg(d) => d.victim case _ => 0;
      var i := SlotForActor(a, x);
      if after != a { SlotWritten(a, after, i, id); }
    }
  }

  lemma StateOnActor(a: seq<ProxyActor>, s: ActorState, id: nat)
    requires HeldActor(a, id) < |a|
    ensures var after := AppliedActorState(a, s);
            && HeldActor(after, id) == HeldActor(a, id) < |after|
            && Becomes(a[HeldActor(a, id)], ActorStateMsg(s), after[HeldActor(a, id)])
  {
    hide First;
    var x := s.actorId;
    var i := SlotForActor(a, x);
    if HeldActor(a, x) < |a| {
      SlotWritten(a, UpdatedActor(a, s), i, id);
    } else if i < |a| {
      var spawned := SpawnedActor(a, x, 0, s.position, s.rotation, 0, 0);
      SlotWritten(a, spawned, i, id);
      var j := SlotForActor(spawned, x);
      if j < |spawned| && spawned[j].inUse { SlotWritten(spawned, UpdatedActor(spawned, s), j, id); }
    }
  }

  // ---- one object ------------------------------------------------------------------------------------------------

  function ObjectOf(t: Tables, id: nat): ProxyObject
    requires HoldsObject(t, id)
  {
    t.objects[HeldObject(t.objects, id)]
  }

  /** What a message makes of the record of one object: a spawn starts it afresh, and an update replaces the fields it
      names and no other. */
  ghost predicate ObjectBecomes(a: ProxyObject, msg: Message, b: ProxyObject) {
    match msg
    case ObjectSpawn(id, form, at, turn, flags) =>
      if id == a.id then b == ProxyObject(true, id, form, at, turn, flags) else b == a
    case ObjectUpdate(id, fields, at, turn, flags) =>
      if id == a.id
      then
        && b.inUse && b.id == a.id && b.formId == a.formId
        && b.position == (if PositionField in fields then at else a.position)
        && b.rotation == (if RotationField in fields then turn else a.rotation)
        && b.flags == (if StateFlagsField in fields then flags else a.flags)
      else b == a
    case _ => b == a
  }

  lemma ObjectSlotWritten(before: seq<ProxyObject>, after: seq<ProxyObject>, i: nat, id: nat)
    requires HeldObject(before, id) < |before| && i < |before| == |after| && after == before[i := after[i]]
    requires if i == HeldObject(before, id) then after[i].inUse && after[i].id == id
             else (before[i].inUse ==> before[i].id != id) && (after[i].inUse ==> after[i].id != id)
    ensures HeldObject(after, id) == HeldObject(before, id)
  {
    hide First;
    var h := HeldObject(before, id);
    assert after[h].inUse && after[h].id == id;
    assert forall j :: 0 <= j < h ==> !(after[j].inUse && after[j].id == id);
  }

  lemma ApplyOnObject(t: Tables, msg: Message, id: nat)
    requires HoldsObject(t, id) && msg != ObjectDespawn(id)
    ensures HoldsObject(Apply(t, msg), id) && ObjectBecomes(ObjectOf(t, id), msg, ObjectOf(Apply(t, msg), id))
  {
    hide First;
    var o, after := t.objects, Apply(t, msg).objects;
    var x := match msg case ObjectSpawn(x, _, _, _, _) => x case ObjectUpdate(x, _, _, _, _) => x
        case ObjectDespawn(x) => x case _ => 0;
    var i := SlotForObject(o, x);
    if after != o { ObjectSlotWritten(o, after, i, id); }
  }

  // ---- the last word ---------------------------------------------------------------------------------------------

  /** The message says nothing of the actor's coming and going. */
  predicate Stays(msg: Message, id: nat) {
    msg != ActorDespawn(id) && (msg.ActorSpawn? ==> msg.actorId != id)
  }

  lemma SpawnIsHeld(t: Tables, msg: Message)
    requires msg.ActorSpawn? && SlotForActor(t.actors, msg.actorId) < |t.actors|
    ensures var id := msg.actorId; HoldsActor(Apply(t, msg), id)
    ensures var a := RecordOf(Apply(t, msg), msg.actorId);
            && a.baseForm == msg.baseForm && a.kind == msg.kind && a.spawnFlags == msg.spawnFlags
            && a.position == msg.position && a.rotation == msg.rotation && !a.isDead
  {
    hide First;
    var id, i := msg.actorId, SlotForActor(t.actors, msg.actorId);
    var after := Apply(t, msg).actors;
    assert after[i].inUse && after[i].id == id;
    assert forall j :: 0 <= j < i ==> after[j] == t.actors[j];
    if HeldActor(t.actors, id) == |t.actors| { assert HeldActor(after, id) == i; }
  }

  /** A spawn that found a slot settles form, kind and flags until the actor's next spawn or despawn. */
  lemma {:induction false} SpawnStands(t: Tables, msgs: seq<Message>, k: nat)
    requires k < |msgs| && msgs[k].ActorSpawn?
    requires SlotForActor(ApplyAll(t, msgs[..k]).actors, msgs[k].actorId) < |ApplyAll(t, msgs[..k]).actors|
    requires forall j :: k < j < |msgs| ==> Stays(msgs[j], msgs[k].actorId)
    ensures HoldsActor(ApplyAll(t, msgs), msgs[k].actorId)
    ensures var a := RecordOf(ApplyAll(t, msgs), msgs[k].actorId);
            a.baseForm == msgs[k].baseForm && a.kind == msgs[k].kind && a.spawnFlags == msgs[k].spawnFlags
  {
    hide Apply, HoldsActor, HeldActor, SlotForActor;
    var n := |msgs| - 1;
    if k == n {
      SpawnIsHeld(ApplyAll(t, msgs[..n]), msgs[n]);
    } else {
      assert msgs[..n][..k] == msgs[..k];
      SpawnStands(t, msgs[..n], k);
      ApplyOnActor(ApplyAll(t, msgs[..n]), msgs[n], msgs[k].actorId);
      HeldHasId(ApplyAll(t, msgs[..n]), msgs[k].actorId);
    }
  }

  lemma HeldHasId(t: Tables, id: nat)
    requires HoldsActor(t, id)
    ensures RecordOf(t, id).id == id && RecordOf(t, id).inUse
  {
  }

  /** Who hurt the actor last, and how much, stands until it is hurt again, spawned or despawned. */
  lemma {:induction false} DamageStands(t: Tables, msgs: seq<Message>, k: nat)
    requires k < |msgs| && msgs[k].DamageMsg? && HoldsActor(ApplyAll(t, msgs[..k]), msgs[k].damage.victim)
    requires var id := msgs[k].damage.victim;
             forall j :: k < j < |msgs| ==> Stays(msgs[j], id) && (msgs[j].DamageMsg? ==> msgs[j].damage.victim != id)
    ensures HoldsActor(ApplyAll(t, msgs), msgs[k].damage.victim)
    ensures var a, d := RecordOf(ApplyAll(t, msgs), msgs[k].damage.victim), msgs[k].damage;
            a.damageFrom == d.attacker && a.damageAmount == d.amount
  {
    hide Apply, HoldsActor, HeldActor;
    var n, id := |msgs| - 1, msgs[k].damage.victim;
    if k < n {
      assert msgs[..n][..k] == msgs[..k];
      DamageStands(t, msgs[..n], k);
    }
    ApplyOnActor(ApplyAll(t, msgs[..n]), msgs[n], id);
    HeldHasId(ApplyAll(t, msgs[..n]), id);
  }

  // ---- what the loop sends -----------------------------------------------------------------------------------------

  /** The spawn has form, kind and flags of an actor of the table. */
  ghost predicate Introduces(msg: Message, actors: seq<Actor>)
    requires msg.ActorSpawn?
  {
    exists j :: 0 <= j < |actors| && SameCard(actors[j], msg.actorId, msg.baseForm, msg.kind, msg.spawnFlags)
  }

  predicate SameCard(a: Actor, id: nat, base: nat, kind: nat, flags: nat) {
    a.inUse && a.id == id && a.baseForm == base && a.kind == kind && a.spawnFlags == flags
  }

  /** Spawns introduce actors of the table. There is one wound to tell of at most, it kills if no health is left, and
      only of who is killed it is said. */
  ghost predicate Proper(msg: Message, actors: seq<Actor>, wound: Option<DamageResult>) {
    && (msg.ActorSpawn? ==> Introduces(msg, actors))
    && (msg.DamageMsg? ==> wound == Some(msg.damage) && (msg.damage.killed ==> msg.damage.healthAfter == 0))
    && (msg.DeathMsg? ==> wound.Some? && wound.value.victim == msg.death.victim && wound.value.healthAfter == 0)
  }

  ghost predicate AllProper(sends: seq<Send>, actors: seq<Actor>, wound: Option<DamageResult>) {
    forall k :: 0 <= k < |sends| ==> Proper(sends[k].msg, actors, wound)
  }

  lemma BroadcastProper(players: seq<Player>, msg: Message, actors: seq<Actor>, wound: Option<DamageResult>)
    requires Proper(msg, actors, wound)
    ensures AllProper(Broadcast(players, msg), actors, wound)
  {
    hide Broadcast;
    Timeouts.BroadcastSays(players, msg);
  }

  lemma QuietProper(sends: seq<Send>, actors: seq<Actor>, wound: Option<DamageResult>)
    requires AllQuiet(sends)
    ensures AllProper(sends, actors, wound)
  {
  }

  lemma {:induction false} ReplayProper(actors: seq<Actor>, n: nat, conn: nat, center: Vec3, radius: real)
    requires n <= |actors|
    ensures AllProper(ActorReplay(actors[..n], conn, center, radius), actors, None)
  {
    hide ReplaysActor;
    if n > 0 {
      ReplayProper(actors, n - 1, conn, center, radius);
      assert actors[..n][..n - 1] == actors[..n - 1] && actors[..n][n - 1] == actors[n - 1];
      var a := actors[n - 1];
      if ReplaysActor(a, center, radius) {
        JoinReplay.ReplayedInUse(a, center, radius);
        assert SameCard(a, a.id, a.baseForm, a.kind, a.spawnFlags);
        assert Introduces(SpawnActorMsg(a), actors);
      }
    }
  }

  lemma NewsProper(objects: seq<Send>, conn: nat, actors: seq<Actor>)
    requires ObjectNews(objects, conn)
    ensures AllProper(objects, actors, None)
  {
  }

  lemma JoinProper(env: Env, s: Session, e: Envelope)
    requires HeadOk(env, s) && e.request.Hello?
    ensures AllProper(Handle(env, s, e).sends, s.actors, None)
  {
    hide Seat, PlayerReplay, ActorReplay, ObjectReplay, ReplayCenter, First, HeadOk, Proper;
    var o := Handle(env, s, e);
    if o.accepted {
      HelloFrame(s, e.conn, e.request.guid, e.request.profile);
      var id, j := Seat(s, e.conn, e.request.guid).value.0, o.session;
      var center := ReplayCenter(j.players, id, j.bubbleCenter);
      var head := [Send(e.conn, Welcome(s.sessionId, id, s.tickRate, s.rules))]
          + ProfileSends(e.conn, e.request.profile);
      var players := PlayerReplay(j.players, e.conn, id);
      var actors := ActorReplay(j.actors, e.conn, center, ReplayRadius(j));
      var objects := ObjectReplay(j.objects, e.conn, center, ReplayRadius(j));
      assert o.sends == head + (players + actors + objects);
      JoinReplay.PlayerReplayShape(j.players, e.conn, id);
      assert AllQuiet(head) && AllQuiet(players);
      QuietProper(head, s.actors, None);
      QuietProper(players, s.actors, None);
      ReplayProper(s.actors, |s.actors|, e.conn, center, ReplayRadius(j));
      assert s.actors[..|s.actors|] == s.actors;
      ObjectReplayKinds(j.objects, e.conn, center, ReplayRadius(j));
      NewsProper(objects, e.conn, s.actors);
    } else {
      StateNews.HelloRefusalSendsNothing(s, e);
    }
  }

  lemma HandleProper(env: Env, s: Session, e: Envelope)
    requires HeadOk(env, s)
    ensures var o := Handle(env, s, e); AllProper(o.sends, s.actors, o.damage)
  {
    hide HandleHello, HandleFire, HandleBuild, HandleMove, HandleScrap, First, HeadOk, Proper;
    var i := FindConnection(s.players, e.conn);
    HandleFrame(env, s, e);
    if e.request.Hello? {
      JoinProper(env, s, e);
    } else if i < |s.players| {
      var id := s.players[i].id;
      match e.request {
        case Fire(_, _, _, _) => FireProper(env, s, id, e.request);
        case Build(_, _, _, _, _, _, _) => BuildProper(env, s, e.conn, id, e.request);
        case Move(_, _, _, _) => MoveProper(s, id, e.request);
        case Scrap(_, _) => MoveProper(s, id, e.request);
        case _ => PlayerRequestsAreQuiet(env, s, e); QuietProper(Handle(env, s, e).sends, s.actors, None);
      }
    }
  }

  lemma FireProper(env: Env, s: Session, id: nat, req: Request)
    requires req.Fire?
    ensures var o := HandleFire(env, s, id, req); AllProper(o.sends, s.actors, o.damage)
  {
    hide Broadcast, First, FireValid, Target;
    var h, wound := Heard(s, id), HandleFire(env, s, id, req).damage;
    forall msg: Message | Proper(msg, s.actors, wound) ensures AllProper(Broadcast(h.players, msg), s.actors, wound) {
      BroadcastProper(h.players, msg, s.actors, wound);
    }
  }

  lemma BuildProper(env: Env, s: Session, conn: nat, id: nat, req: Request)
    requires req.Build?
    ensures AllProper(HandleBuild(env, s, conn, id, req).sends, s.actors, None)
  {
    hide Broadcast, First, BuildValid, Adjusted;
    var built := BuildStep(env, Heard(s, id), req).1;
    forall msg: Message | Proper(msg, s.actors, None) ensures AllProper(Broadcast(built.players, msg), s.actors, None) {
      BroadcastProper(built.players, msg, s.actors, None);
    }
  }

  lemma MoveProper(s: Session, id: nat, req: Request)
    ensures req.Move? ==> AllProper(HandleMove(s, id, req).sends, s.actors, None)
    ensures req.Scrap? ==> AllProper(HandleScrap(s, id, req).sends, s.actors, None)
  {
    hide Broadcast, First, MoveValid, ScrapValid, Adjusted;
    forall msg: Message | Proper(msg, s.actors, None) ensures AllProper(Broadcast(s.players, msg), s.actors, None) {
      BroadcastProper(s.players, msg, s.actors, None);
    }
  }

  lemma {:induction false} DespawnAllProper(players: seq<Player>, actors: seq<Actor>, ids: seq<nat>,
      table: seq<Actor>, wound: Option<DamageResult>)
    ensures AllProper(DespawnAll(players, actors, ids).1, table, wound)
  {
    hide RemoveActor, Broadcast;
    if ids != [] {
      DespawnAllProper(players, actors, ids[..|ids| - 1], table, wound);
      BroadcastProper(players, ActorDespawn(ids[|ids| - 1]), table, wound);
    }
  }

  lemma TickProper(s: Session, table: seq<Actor>, wound: Option<DamageResult>)
    ensures AllProper(Tick(s).1, table, wound)
  {
    hide DespawnAll, MarkDead, DeadIds, Proper, TickPlayers;
    TickPlayersIsQuiet(s, 0);
    QuietProper(TickPlayers(s).1, table, wound);
    var ids := DeadIds(MarkDead(s.actors, 0));
    DespawnAllProper(TickPlayers(s).0, MarkDead(s.actors, 0), if |ids| <= MAX_DESPAWNS then ids
        else ids[..MAX_DESPAWNS], table, wound);
  }

  lemma TurnProper(env: Env, s: Session, e: Envelope)
    requires HeadOk(env, s)
    ensures AllProper(Transmitted(env, s, e), s.actors, Handle(env, s, e).damage)
  {
    hide Handle, Tick, HeadOk, Proper;
    HandleProper(env, s, e);
    TickProper(Handle(env, s, e).session, s.actors, Handle(env, s, e).damage);
  }

  // ---- what a client knows ---------------------------------------------------------------------------------------

  /** Form, kind and flags are those of the actor in the table, or nothing at all; and only of a mortal wound it has no
      health and is dead. */
  ghost predicate Knows(a: ProxyActor, actors: seq<Actor>, wound: Option<DamageResult>) {
    && (|| (a.baseForm == 0 && a.kind == 0 && a.spawnFlags == 0)
        || exists j :: 0 <= j < |actors| && SameCard(actors[j], a.id, a.baseForm, a.kind, a.spawnFlags))
    && (a.isDead ==> a.health == 0 && wound.Some? && wound.value.victim == a.id && wound.value.healthAfter == 0)
  }

  ghost predicate AllKnown(a: seq<ProxyActor>, actors: seq<Actor>, wound: Option<DamageResult>) {
    forall i :: 0 <= i < |a| && a[i].inUse ==> Knows(a[i], actors, wound)
  }

  lemma SlotKnown(a: seq<ProxyActor>, i: nat, b: ProxyActor, actors: seq<Actor>, wound: Option<DamageResult>)
    requires AllKnown(a, actors, wound) && i < |a| && (b.inUse ==> Knows(b, actors, wound))
    ensures AllKnown(a[i := b], actors, wound)
  {
  }

  lemma SpawnKnown(a: seq<ProxyActor>, id: nat, base: nat, at: Vec3, turn: Rot3, kind: nat, flags: nat,
      actors: seq<Actor>, wound: Option<DamageResult>)
    requires AllKnown(a, actors, wound)
    requires || (base == 0 && kind == 0 && flags == 0)
             || exists j :: 0 <= j < |actors| && SameCard(actors[j], id, base, kind, flags)
    ensures AllKnown(SpawnedActor(a, id, base, at, turn, kind, flags), actors, wound)
  {
    hide First, SameCard, AllKnown;
    var i := SlotForActor(a, id);
    if i < |a| { SlotKnown(a, i, SpawnedActor(a, id, base, at, turn, kind, flags)[i], actors, wound); }
  }

  lemma StateKnown(a: seq<ProxyActor>, s: ActorState, actors: seq<Actor>, wound: Option<DamageResult>)
    requires AllKnown(a, actors, wound)
    ensures AllKnown(UpdatedActor(a, s), actors, wound)
  {
    hide First, SameCard;
    var i := SlotForActor(a, s.actorId);
    if i < |a| && a[i].inUse {
      assert Knows(a[i], actors, wound);
      SlotKnown(a, i, UpdatedActor(a, s)[i], actors, wound);
    }
  }

  lemma WoundKnown(a: seq<ProxyActor>, msg: Message, actors: seq<Actor>, wound: Option<DamageResult>)
    requires AllKnown(a, actors, wound) && Proper(msg, actors, wound)
    ensures msg.DamageMsg? ==> AllKnown(DamagedActor(a, msg.damage), actors, wound)
    ensures msg.DeathMsg? ==> AllKnown(KilledActor(a, msg.death.victim), actors, wound)
  {
    hide First, SameCard;
    if msg.DamageMsg? || msg.DeathMsg? {
      var i := SlotForActor(a, if msg.DamageMsg? then msg.damage.victim else msg.death.victim);
      if i < |a| && a[i].inUse {
        assert Knows(a[i], actors, wound);
        var after := if msg.DamageMsg? then DamagedActor(a, msg.damage) else KilledActor(a, msg.death.victim);
        SlotKnown(a, i, after[i], actors, wound);
      }
    }
  }

  lemma ApplyKeepsKnown(t: Tables, msg: Message, actors: seq<Actor>, wound: Option<DamageResult>)
    requires AllKnown(t.actors, actors, wound) && Proper(msg, actors, wound)
    ensures AllKnown(Apply(t, msg).actors, actors, wound)
  {
    hide First, SameCard, Knows, UpdatedActor, DamagedActor, KilledActor, SpawnedActor;
    var a := t.actors;
    match msg {
      case ActorSpawn(id, base, at, turn, kind, flags) => SpawnKnown(a, id, base, at, turn, kind, flags, actors, wound);
      case ActorStateMsg(s) =>
        StateKnown(a, s, actors, wound);
        SpawnKnown(a, s.actorId, 0, s.position, s.rotation, 0, 0, actors, wound);
        StateKnown(SpawnedActor(a, s.actorId, 0, s.position, s.rotation, 0, 0), s, actors, wound);
      case _ => WoundKnown(a, msg, actors, wound);
    }
  }

  lemma {:induction false} ReceivedKeepsKnown(t: Tables, sends: seq<Send>, conn: nat, actors: seq<Actor>,
      wound: Option<DamageResult>)
    requires AllKnown(t.actors, actors, wound) && AllProper(sends, actors, wound)
    ensures AllKnown(After(t, sends, conn).actors, actors, wound)
  {
    hide AllKnown, Apply, Proper;
    if sends != [] {
      var n := |sends| - 1;
      ReceivedKeepsKnown(t, sends[..n], conn, actors, wound);
      if sends[n].conn == conn {
        var msgs := Received(sends[..n], conn);
        assert (msgs + [sends[n].msg])[..|msgs|] == msgs;
        ApplyKeepsKnown(After(t, sends[..n], conn), sends[n].msg, actors, wound);
      } else {
        assert Received(sends, conn) == Received(sends[..n], conn);
      }
    }
  }

  /** No slot of the table is filled anew, and nobody changes form. */
  ghost predicate Descends(before: seq<Actor>, after: seq<Actor>) {
    && |after| == |before|
    && forall i :: 0 <= i < |after| && after[i].inUse ==>
         SameCard(before[i], after[i].id, after[i].baseForm, after[i].kind, after[i].spawnFlags)
  }

  lemma TurnDescends(env: Env, s: Session, e: Envelope)
    requires HeadOk(env, s)
    ensures Descends(s.actors, Turn(env, s, e).actors)
  {
    hide Handle, First, Workshop.WorkshopOk;
    TurnHits(env, s, e);
  }

  lemma DescendsOn(a: seq<Actor>, b: seq<Actor>, c: seq<Actor>)
    requires Descends(a, b) && Descends(b, c)
    ensures Descends(a, c)
  {
  }

  lemma ProperDescends(sends: seq<Send>, before: seq<Actor>, after: seq<Actor>, wound: Option<DamageResult>)
    requires AllProper(sends, after, wound) && Descends(before, after)
    ensures AllProper(sends, before, wound)
  {
    forall k | 0 <= k < |sends| ensures Proper(sends[k].msg, before, wound) {
      assert Proper(sends[k].msg, after, wound);
    }
  }

  /** What a client holds in line with a session without dead actors is not dead, whatever the last wound was. */
  lemma MirrorIsAlive(t: Tables, u: Session, actors: seq<Actor>, wound: Option<DamageResult>,
      next: Option<DamageResult>)
    requires AllKnown(t.actors, actors, wound) && Agree(t, u) && ActorsOk(u.actors) && AllAlive(u.actors)
    ensures AllKnown(t.actors, actors, next)
    ensures forall i :: 0 <= i < |t.actors| && t.actors[i].inUse ==> !t.actors[i].isDead
  {
    hide First, SameCard, ObjectsAgree;
    forall i | 0 <= i < |t.actors| && t.actors[i].inUse
      ensures !t.actors[i].isDead && Knows(t.actors[i], actors, next)
    {
      assert MatchesActor(t.actors[i], u.actors);
      var j := FindActor(u.actors, t.actors[i].id);
      assert ActorOk(u.actors[j]) && !IsDead(u.actors[j]) && Knows(t.actors[i], actors, wound);
    }
  }

  lemma AttachedBefore(env: Env, s: Session, es: seq<Envelope>, client: nat)
    requires Attached(env, s, es, client) && es != []
    ensures Attached(env, s, es[..|es| - 1], client)
  {
    hide Run, Turn, Splits, HasConn;
    var before := es[..|es| - 1];
    forall m | 0 <= m < |before| ensures before[..m] == es[..m] && before[m] == es[m] {}
  }

  /** Over every run a client that stays attached knows of every actor it holds the form, kind and flags it was spawned
      with, or none where no spawn reached it; and none that it holds is marked as dead. */
  lemma {:induction false} ClientKnowsActors(env: Env, s: Session, es: seq<Envelope>, client: nat)
    requires HeadOk(env, s) && Attached(env, s, es, client)
    ensures var held := ClientRun(env, s, es, client, EmptyTables()).actors;
            && AllKnown(held, s.actors, None)
            && forall i :: 0 <= i < |held| && held[i].inUse ==> !held[i].isDead
    ensures Descends(s.actors, Run(env, s, es).actors)
  {
    hide HeadOk, Turn, EmptyTables, Transmitted, After, AllKnown, Proper, SameCard, Attached, Handle, Agree;
    MirrorSimulation(env, s, es, client);
    if es == [] {
      NothingKnown(s.actors);
    } else {
      var n := |es| - 1;
      var u, t := Run(env, s, es[..n]), ClientRun(env, s, es[..n], client, EmptyTables());
      var wound := Handle(env, u, es[n]).damage;
      AttachedBefore(env, s, es, client);
      ClientKnowsActors(env, s, es[..n], client);
      MirrorSimulation(env, s, es[..n], client);
      HeadActors(env, u);
      MirrorIsAlive(t, u, s.actors, None, wound);
      TurnProper(env, u, es[n]);
      ProperDescends(Transmitted(env, u, es[n]), s.actors, u.actors, wound);
      ReceivedKeepsKnown(t, Transmitted(env, u, es[n]), client, s.actors, wound);
      TurnDescends(env, u, es[n]);
      DescendsOn(s.actors, u.actors, Turn(env, u, es[n]).actors);
      HeadActors(env, Run(env, s, es));
      MirrorIsAlive(ClientRun(env, s, es, client, EmptyTables()), Run(env, s, es), s.actors, wound, None);
    }
  }

  lemma HeadActors(env: Env, s: Session)
    requires HeadOk(env, s)
    ensures ActorsOk(s.actors) && AllAlive(s.actors)
  {
  }

  lemma NothingKnown(actors: seq<Actor>)
    ensures var t := EmptyTables().actors;
            AllKnown(t, actors, None) && Descends(actors, actors) && forall i :: 0 <= i < |t| ==> !t[i].inUse
  {
  }

  // ---- what applying a packet reports -------------------------------------------------------------------------------

  /** A packet that brings something succeeds if and only if the client holds it afterwards; one that takes or changes
      something, if and only if the client held it before. */
  lemma SuccessMeans(t: Tables, msg: Message)
    ensures match msg
            case ActorSpawn(id, _, _, _, _, _) => Succeeds(t, msg) <==> HoldsActor(Apply(t, msg), id)
            case ActorStateMsg(a) => Succeeds(t, msg) <==> HoldsActor(Apply(t, msg), a.actorId)
            case ObjectSpawn(id, _, _, _, _) => Succeeds(t, msg) <==> HoldsObject(Apply(t, msg), id)
            case ActorDespawn(id) => Succeeds(t, msg) <==> HoldsActor(t, id)
            case ObjectDespawn(id) => Succeeds(t, msg) <==> HoldsObject(t, id)
            case ObjectUpdate(id, _, _, _, _) => Succeeds(t, msg) <==> HoldsObject(t, id)
            case _ => true
  {
    hide First;
    match msg {
      case ActorSpawn(id, _, _, _, _, _) => if Succeeds(t, msg) { SpawnIsHeld(t, msg); }
      case ActorStateMsg(a) => StateIsHeld(t.actors, a);
      case ObjectSpawn(id, _, _, _, _) =>
        var i := SlotForObject(t.objects, id);
        if i < |t.objects| { assert Apply(t, msg).objects[i].inUse && Apply(t, msg).objects[i].id == id; }
      case _ =>
    }
  }

  lemma StateIsHeld(a: seq<ProxyActor>, s: ActorState)
    ensures HeldActor(AppliedActorState(a, s), s.actorId) < |a| <==> SlotForActor(a, s.actorId) < |a|
  {
    hide First;
    var id, i := s.actorId, SlotForActor(a, s.actorId);
    if HeldActor(a, id) < |a| {
      StateOnActor(a, s, id);
    } else if i < |a| {
      var spawned := SpawnedActor(a, id, 0, s.position, s.rotation, 0, 0);
      assert spawned[i].inUse && spawned[i].id == id;
      assert HeldActor(spawned, id) < |spawned|;
      StateOnActor(spawned, s, id);
      assert AppliedActorState(spawned, s) == UpdatedActor(spawned, s);
    }
  }
}
