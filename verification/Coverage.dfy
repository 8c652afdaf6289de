/** The other half of the mirror: what a joining client gets to hold, and for how long. */
module Coverage {
  import opened Slots
  import opened Protocol
  import opened Combat
  import opened Session
  import opened Lifecycle
  import opened Workshop
  import opened QueueBound
  import opened Proxy
  import opened Mirror
  import opened Delivery
  import opened JoinReplay
  import opened MirrorTurns
  import opened MirrorJoin
  import opened Holding
  import Service

  // ---- spawns take a slot --------------------------------------------------------------------------------------

  function UsedObjects(objects: seq<ProxyObject>): nat { Count(objects, (o: ProxyObject) => o.inUse) }

  lemma ApplyUsesOneObject(t: Tables, msg: Message)
    ensures |Apply(t, msg).objects| == |t.objects| && UsedObjects(Apply(t, msg).objects) <= UsedObjects(t.objects) + 1
  {
    hide Count, First;
    var after := Apply(t, msg).objects;
    if i: nat :| i < |t.objects| && after == t.objects[i := after[i]] {
      CountUpdate(t.objects, i, after[i], (o: ProxyObject) => o.inUse);
    } else {
      assert after == t.objects;
    }
  }

  lemma {:induction false} ApplyAllUsesObjects(t: Tables, msgs: seq<Message>)
    ensures |ApplyAll(t, msgs).objects| == |t.objects|
    ensures UsedObjects(ApplyAll(t, msgs).objects) <= UsedObjects(t.objects) + |msgs|
  {
    hide Apply, UsedObjects;
    if msgs != [] {
      ApplyAllUsesObjects(t, msgs[..|msgs| - 1]);
      ApplyUsesOneObject(ApplyAll(t, msgs[..|msgs| - 1]), msgs[|msgs| - 1]);
    }
  }

  lemma {:induction false} FullObjects(objects: seq<ProxyObject>)
    requires forall i :: 0 <= i < |objects| ==> objects[i].inUse
    ensures UsedObjects(objects) == |objects|
  {
    if objects != [] { FullObjects(objects[..|objects| - 1]); }
  }

  lemma SpawnIsHeld(t: Tables, msg: Message)
    requires Used(t.actors) < |t.actors| && UsedObjects(t.objects) < |t.objects|
    ensures msg.ActorSpawn? ==> HoldsActor(Apply(t, msg), msg.actorId)
    ensures msg.ObjectSpawn? ==> HoldsObject(Apply(t, msg), msg.objectId)
  {
    hide First, Count;
    if msg.ActorSpawn? {
      var i := SlotForActor(t.actors, msg.actorId);
      if i == |t.actors| { AllTaken(t.actors, msg.actorId); }
      var after := Apply(t, msg).actors;
      assert after[i].inUse && after[i].id == msg.actorId;
    }
    if msg.ObjectSpawn? {
      var i := SlotForObject(t.objects, msg.objectId);
      if i == |t.objects| { AllObjectsTaken(t.objects, msg.objectId); }
      var after := Apply(t, msg).objects;
      assert after[i].inUse && after[i].id == msg.objectId;
    }
  }

  lemma AllTaken(actors: seq<ProxyActor>, id: nat)
    requires SlotForActor(actors, id) == |actors|
    ensures Used(actors) == |actors|
  {
    FullTable(actors);
  }

  lemma AllObjectsTaken(objects: seq<ProxyObject>, id: nat)
    requires SlotForObject(objects, id) == |objects|
    ensures UsedObjects(objects) == |objects|
  {
    FullObjects(objects);
  }

  /** With room for every message, whatever is spawned and not despawned is held. */
  lemma SpawnedIsHeld(t: Tables, msgs: seq<Message>, k: nat)
    requires k < |msgs| && Used(t.actors) + |msgs| <= |t.actors| && UsedObjects(t.objects) + |msgs| <= |t.objects|
    ensures msgs[k].ActorSpawn? && ActorDespawn(msgs[k].actorId) !in msgs ==>
              HoldsActor(ApplyAll(t, msgs), msgs[k].actorId)
    ensures msgs[k].ObjectSpawn? && ObjectDespawn(msgs[k].objectId) !in msgs ==>
              HoldsObject(ApplyAll(t, msgs), msgs[k].objectId)
  {
    hide Apply, Used, UsedObjects, HoldsActor, HoldsObject, ApplyAll;
    var front, rest := msgs[..k + 1], msgs[k + 1..];
    assert msgs == front + rest && front == msgs[..k] + [msgs[k]];
    ApplyAllUses(t, msgs[..k]);
    ApplyAllUsesObjects(t, msgs[..k]);
    SpawnIsHeld(ApplyAll(t, msgs[..k]), msgs[k]);
    ApplySnoc(t, msgs[..k], msgs[k]);
    ApplyAllAppend(t, front, rest);
    assert forall m :: m in rest ==> m in msgs;
    if msgs[k].ActorSpawn? && ActorDespawn(msgs[k].actorId) !in msgs {
      ApplyAllKeepsActor(ApplyAll(t, front), rest, msgs[k].actorId);
    }
    if msgs[k].ObjectSpawn? && ObjectDespawn(msgs[k].objectId) !in msgs {
      ApplyAllKeepsObject(ApplyAll(t, front), rest, msgs[k].objectId);
    }
  }

  lemma ApplySnoc(t: Tables, msgs: seq<Message>, msg: Message)
    ensures ApplyAll(t, msgs + [msg]) == Apply(ApplyAll(t, msgs), msg)
  {
    hide Apply;
    assert (msgs + [msg])[..|msgs|] == msgs;
  }

  // ---- what is not spoken of is not held -----------------------------------------------------------------------

  predicate BringsActor(msg: Message, id: nat) {
    (msg.ActorSpawn? && msg.actorId == id) || (msg.ActorStateMsg? && msg.actor.actorId == id)
  }

  predicate BringsObject(msg: Message, id: nat) { msg.ObjectSpawn? && msg.objectId == id }

  lemma ApplyBringsNothing(t: Tables, msg: Message, id: nat)
    ensures !HoldsActor(t, id) && !BringsActor(msg, id) ==> !HoldsActor(Apply(t, msg), id)
    ensures !HoldsObject(t, id) && !BringsObject(msg, id) ==> !HoldsObject(Apply(t, msg), id)
  {
    hide HoldsActor, HoldsObject, BringsActor, BringsObject, Apply;
    if !HoldsActor(t, id) && !BringsActor(msg, id) { ApplyBringsNoActor(t, msg, id); }
    if !HoldsObject(t, id) && !BringsObject(msg, id) { ApplyBringsNoObject(t, msg, id); }
  }

  lemma ApplyBringsNoActor(t: Tables, msg: Message, id: nat)
    requires !HoldsActor(t, id) && !BringsActor(msg, id)
    ensures !HoldsActor(Apply(t, msg), id)
  {
    hide First, SpawnedObject, UpdatedObject, DespawnedObject;
    var before, after := t.actors, Apply(t, msg).actors;
    assert forall i :: 0 <= i < |after| && after[i].inUse && after[i].id == id ==>
        before[i].inUse && before[i].id == id;
  }

  lemma ApplyBringsNoObject(t: Tables, msg: Message, id: nat)
    requires !HoldsObject(t, id) && !BringsObject(msg, id)
    ensures !HoldsObject(Apply(t, msg), id)
  {
    hide First, SpawnedActor, UpdatedActor, AppliedActorState, DespawnedActor, DamagedActor, KilledActor;
    var before, after := t.objects, Apply(t, msg).objects;
    assert forall i :: 0 <= i < |after| && after[i].inUse && after[i].id == id ==>
        before[i].inUse && before[i].id == id;
  }

  lemma {:induction false} UnspokenIsUnheld(t: Tables, msgs: seq<Message>, id: nat)
    ensures !HoldsActor(t, id) && (forall k :: 0 <= k < |msgs| ==> !BringsActor(msgs[k], id)) ==>
              !HoldsActor(ApplyAll(t, msgs), id)
    ensures !HoldsObject(t, id) && (forall k :: 0 <= k < |msgs| ==> !BringsObject(msgs[k], id)) ==>
              !HoldsObject(ApplyAll(t, msgs), id)
  {
    hide Apply, HoldsActor, HoldsObject, BringsActor, BringsObject;
    if msgs != [] {
      var n := |msgs| - 1;
      UnspokenIsUnheld(t, msgs[..n], id);
      ApplyBringsNothing(ApplyAll(t, msgs[..n]), msgs[n], id);
      assert forall k :: 0 <= k < n ==> msgs[..n][k] == msgs[k];
    }
  }

  // ---- where things stand in the replay --------------------------------------------------------------------------

  lemma {:induction false} ActorSpawnAt(actors: seq<Actor>, i: nat, conn: nat, center: Vec3, radius: real)
    requires i < |actors| && ReplaysActor(actors[i], center, radius)
    ensures var part, k := ActorReplay(actors, conn, center, radius), |ActorReplay(actors[..i], conn, center, radius)|;
            k + 1 < |part| && part[k] == Send(conn, SpawnActorMsg(actors[i]))
  {
    hide ReplaysActor;
    var front := actors[..|actors| - 1];
    if i < |front| {
      ActorSpawnAt(front, i, conn, center, radius);
      assert front[..i] == actors[..i];
    }
  }

  lemma {:induction false} ObjectSpawnAt(objects: seq<Object>, i: nat, conn: nat, center: Vec3, radius: real)
    requires i < |objects| && ReplaysObject(objects[i], center, radius)
    ensures var part, k := ObjectReplay(objects, conn, center, radius),
              |ObjectReplay(objects[..i], conn, center, radius)|;
            k < |part| && part[k] == Send(conn, SpawnObjectMsg(objects[i]))
  {
    hide ReplaysObject;
    var front := objects[..|objects| - 1];
    if i < |front| {
      ObjectSpawnAt(front, i, conn, center, radius);
      assert front[..i] == objects[..i];
    }
  }

  lemma {:induction false} ObjectReplaySize(objects: seq<Object>, conn: nat, center: Vec3, radius: real)
    ensures |ObjectReplay(objects, conn, center, radius)|
              == Count(objects, (o: Object) => ReplaysObject(o, center, radius))
  {
    if objects != [] { ObjectReplaySize(objects[..|objects| - 1], conn, center, radius); }
  }

  /** The last actor of a replay. */
  lemma {:induction false} LastActor(actors: seq<Actor>, conn: nat, center: Vec3, radius: real) returns (i: nat)
    requires ActorReplay(actors, conn, center, radius) != []
    ensures i < |actors| && ReplaysActor(actors[i], center, radius)
    ensures |ActorReplay(actors, conn, center, radius)| == |ActorReplay(actors[..i], conn, center, radius)| + 2
    ensures ActorReplay(actors[..i], conn, center, radius) <= ActorReplay(actors, conn, center, radius)
  {
    hide ReplaysActor;
    i := |actors| - 1;
    if !ReplaysActor(actors[i], center, radius) {
      var front := actors[..i];
      i := LastActor(front, conn, center, radius);
      assert front[..i] == actors[..i];
    }
  }

  lemma {:induction false} LastObject(objects: seq<Object>, conn: nat, center: Vec3, radius: real) returns (i: nat)
    requires ObjectReplay(objects, conn, center, radius) != []
    ensures i < |objects| && ReplaysObject(objects[i], center, radius)
    ensures |ObjectReplay(objects, conn, center, radius)| == |ObjectReplay(objects[..i], conn, center, radius)| + 1
    ensures ObjectReplay(objects[..i], conn, center, radius) <= ObjectReplay(objects, conn, center, radius)
  {
    hide ReplaysObject;
    i := |objects| - 1;
    if !ReplaysObject(objects[i], center, radius) {
      var front := objects[..i];
      i := LastObject(front, conn, center, radius);
      assert front[..i] == objects[..i];
    }
  }

  ghost predicate NoneBringsActor(sends: seq<Send>, id: nat) {
    forall k :: 0 <= k < |sends| ==> !BringsActor(sends[k].msg, id)
  }

  ghost predicate NoneBringsObject(sends: seq<Send>, id: nat) {
    forall k :: 0 <= k < |sends| ==> !BringsObject(sends[k].msg, id)
  }

  lemma {:induction false} ReplayBringsOwn(actors: seq<Actor>, conn: nat, center: Vec3, radius: real, id: nat)
    requires forall i :: 0 <= i < |actors| && actors[i].inUse ==> actors[i].id != id && actors[i].state.actorId != id
    ensures NoneBringsActor(ActorReplay(actors, conn, center, radius), id)
  {
    if actors != [] { ReplayBringsOwn(actors[..|actors| - 1], conn, center, radius, id); }
  }

  lemma {:induction false} ReplayBringsOwnObject(objects: seq<Object>, conn: nat, center: Vec3, radius: real, id: nat)
    requires forall i :: 0 <= i < |objects| && objects[i].inUse ==> objects[i].id != id
    ensures NoneBringsObject(ObjectReplay(objects, conn, center, radius), id)
  {
    if objects != [] { ReplayBringsOwnObject(objects[..|objects| - 1], conn, center, radius, id); }
  }

  // ---- joining -----------------------------------------------------------------------------------------------------

  /** The client holds every actor and every object of the session within the range. */
  ghost predicate Covers(t: Tables, s: Session, center: Vec3, radius: real) {
    && (forall i :: 0 <= i < |s.actors| && ReplaysActor(s.actors[i], center, radius) ==> HoldsActor(t, s.actors[i].id))
    && (forall i :: 0 <= i < |s.objects| && ReplaysObject(s.objects[i], center, radius) ==>
          HoldsObject(t, s.objects[i].id))
  }

  /** Where the replay for a HELLO is centred. */
  function JoinCenter(s: Session, e: Envelope): Vec3
    requires e.request.Hello?
  {
    var seat := Seat(s, e.conn, e.request.guid);
    if seat.None? then s.bubbleCenter else ReplayCenter(seat.value.1.players, seat.value.0, s.bubbleCenter)
  }

  /** The last spawn of the replay is within the queue. Every term can be read off the session before the HELLO. */
  ghost predicate SpawnsFit(s: Session, e: Envelope)
    requires e.request.Hello?
  {
    match Seat(s, e.conn, e.request.guid)
    case None => false
    case Some((id, seated)) =>
      var center, radius := JoinCenter(s, e), ReplayRadius(s);
      var others := Count(seated.players, (p: Player) => p.connected && p.id != id);
      var actors := Count(s.actors, (a: Actor) => ReplaysActor(a, center, radius));
      var objects := Count(s.objects, (o: Object) => ReplaysObject(o, center, radius));
      && (actors > 0 ==> 5 + others + 2 * actors - 1 <= MAX_OUTPUTS)
      && (objects > 0 ==> 5 + others + 2 * actors + objects <= MAX_OUTPUTS)
  }

  /** What a HELLO asks for, in four parts: before the actors, the actors, the objects, and the tick. */
  lemma JoinParts(env: Env, s: Session, e: Envelope) returns (head: seq<Send>, tail: seq<Send>)
    requires e.request.Hello? && HeadOk(env, s) && Handle(env, s, e).accepted
    ensures var actors := ActorReplay(s.actors, e.conn, JoinCenter(s, e), ReplayRadius(s));
            var objects := ObjectReplay(s.objects, e.conn, JoinCenter(s, e), ReplayRadius(s));
            && Demand(env, s, e) == head + actors + objects + tail
            && AllQuiet(head) && AllQuiet(tail) && |head| <= 13 && tail == Tick(Handle(env, s, e).session).1
            && (SpawnsFit(s, e) <==>
                  && (actors != [] ==> |head| + |actors| - 1 <= MAX_OUTPUTS)
                  && (objects != [] ==> |head| + |actors| + |objects| <= MAX_OUTPUTS))
  {
    hide Handle, Tick, ActorsOk, AllAlive, WorkshopOk, ReplaysActor, ReplaysObject, ActorReplay, ObjectReplay,
         PlayerReplay, ReplayCenter, Seat, SameFaces;
    var j := Handle(env, s, e).session;
    HelloDemand(env, s, e);
    HelloFaces(env, s, e);
    var (id, seated) := Seat(s, e.conn, e.request.guid).value;
    HelloSession(env, s, e);
    SameFacesSameReplay(seated.players, j.players, id, s.bubbleCenter);
    var center, radius := JoinCenter(s, e), ReplayRadius(s);
    assert ReplayCenter(j.players, id, j.bubbleCenter) == center && ReplayRadius(j) == radius;
    PlayerReplayShape(j.players, e.conn, id);
    ActorReplaySize(s.actors, e.conn, center, radius);
    ObjectReplaySize(s.objects, e.conn, center, radius);
    TickAliveIsQuiet(j, e.conn);
    head, tail := JoinHead(s, j, e.conn, id, e.request.profile), Tick(j).1;
    var actors, objects := ActorReplay(s.actors, e.conn, center, radius),
        ObjectReplay(s.objects, e.conn, center, radius);
    assert head + actors + (objects + tail) == head + actors + objects + tail;
  }

  lemma HelloSession(env: Env, s: Session, e: Envelope)
    requires e.request.Hello? && HeadOk(env, s)
    ensures var j := Handle(env, s, e).session;
            && j.actors == s.actors && j.objects == s.objects && j.bubbleCenter == s.bubbleCenter
            && j.bubbleRadius == s.bubbleRadius && AllAlive(j.actors)
  {
    hide HandleHello;
    HelloFrame(s, e.conn, e.request.guid, e.request.profile);
  }

  lemma {:induction false} ReceivedHas(sends: seq<Send>, conn: nat, k: nat)
    requires k < |sends| && sends[k].conn == conn
    ensures sends[k].msg in Received(sends, conn)
  {
    if k < |sends| - 1 { ReceivedHas(sends[..|sends| - 1], conn, k); }
  }

  lemma {:induction false} ReceivedBrings(sends: seq<Send>, conn: nat, id: nat)
    ensures NoneBringsActor(sends, id) ==>
              forall k :: 0 <= k < |Received(sends, conn)| ==> !BringsActor(Received(sends, conn)[k], id)
    ensures NoneBringsObject(sends, id) ==>
              forall k :: 0 <= k < |Received(sends, conn)| ==> !BringsObject(Received(sends, conn)[k], id)
  {
    hide BringsActor, BringsObject;
    if sends != [] {
      var n := |sends| - 1;
      assert NoneBringsActor(sends, id) ==> NoneBringsActor(sends[..n], id) && !BringsActor(sends[n].msg, id);
      assert NoneBringsObject(sends, id) ==> NoneBringsObject(sends[..n], id) && !BringsObject(sends[n].msg, id);
      ReceivedBrings(sends[..n], conn, id);
    }
  }

  /** Whatever spawn the queue takes, a fresh client ends up holding, if the session still has it. */
  lemma TakenSpawnIsHeld(env: Env, s: Session, e: Envelope, k: nat)
    requires HeadOk(env, s) && k < |Transmitted(env, s, e)| && Transmitted(env, s, e)[k].conn == e.conn
    ensures var msg, after := Transmitted(env, s, e)[k].msg, ClientAfter(env, s, e, e.conn, EmptyTables());
            && (msg.ActorSpawn? && HasActor(Turn(env, s, e), msg.actorId) ==> HoldsActor(after, msg.actorId))
            && (msg.ObjectSpawn? && HasObject(Turn(env, s, e), msg.objectId) ==> HoldsObject(after, msg.objectId))
  {
    hide Turn, HeadOk, HoldsActor, HoldsObject, HasActor, HasObject, AllHarmless, EmptyTables, ApplyAll, Transmitted,
         Received;
    TransmittedSize(env, s, e);
    var sends, u := Transmitted(env, s, e), Turn(env, s, e);
    var msg := sends[k].msg;
    ReceivedHas(sends, e.conn, k);
    ReceivedSize(sends, e.conn);
    FreshHolds(Received(sends, e.conn), msg);
    TurnIsHarmless(env, s, e);
    if msg.ActorSpawn? { ReceivedIsHarmless(sends, e.conn, u, msg.actorId); }
    if msg.ObjectSpawn? { ReceivedIsHarmless(sends, e.conn, u, msg.objectId); }
  }

  lemma FreshHolds(msgs: seq<Message>, msg: Message)
    requires msg in msgs && |msgs| <= MAX_OUTPUTS
    ensures var after := ApplyAll(EmptyTables(), msgs);
            && (msg.ActorSpawn? && ActorDespawn(msg.actorId) !in msgs ==> HoldsActor(after, msg.actorId))
            && (msg.ObjectSpawn? && ObjectDespawn(msg.objectId) !in msgs ==> HoldsObject(after, msg.objectId))
  {
    hide HoldsActor, HoldsObject, EmptyTables, ApplyAll, Used, UsedObjects;
    var i :| 0 <= i < |msgs| && msgs[i] == msg;
    EmptyIsUnused();
    EmptyObjects();
    SpawnedIsHeld(EmptyTables(), msgs, i);
  }

  lemma TransmittedSize(env: Env, s: Session, e: Envelope)
    ensures |Transmitted(env, s, e)| <= MAX_OUTPUTS
  {
    hide Handle, Demand;
  }

  lemma EmptyObjects()
    ensures UsedObjects(EmptyTables().objects) == 0 && |EmptyTables().objects| == MAX_PROXY_OBJECTS
  {
    CountZero(EmptyTables().objects, (o: ProxyObject) => o.inUse);
  }

  lemma EmptyHoldsNothing(id: nat)
    ensures !HoldsActor(EmptyTables(), id) && !HoldsObject(EmptyTables(), id)
  {
  }

  lemma FitsCovers(env: Env, s: Session, e: Envelope)
    requires e.request.Hello? && HeadOk(env, s) && Handle(env, s, e).accepted && SpawnsFit(s, e)
    ensures Covers(ClientAfter(env, s, e, e.conn, EmptyTables()), s, JoinCenter(s, e), ReplayRadius(s))
  {
    hide Handle, Turn, HeadOk, HoldsActor, HoldsObject, SpawnsFit, JoinCenter, ClientAfter, ReplaysActor, ReplaysObject,
         ActorReplay, ObjectReplay, HasActor, HasObject, Demand, EmptyTables;
    var center, radius := JoinCenter(s, e), ReplayRadius(s);
    var head, tail := JoinParts(env, s, e);
    var actors, objects := ActorReplay(s.actors, e.conn, center, radius),
        ObjectReplay(s.objects, e.conn, center, radius);
    var all, sent := head + actors + objects + tail, Transmitted(env, s, e);
    assert sent == TakeQueue(all);
    forall i | 0 <= i < |s.actors| && ReplaysActor(s.actors[i], center, radius)
      ensures HoldsActor(ClientAfter(env, s, e, e.conn, EmptyTables()), s.actors[i].id)
    {
      ActorSpawnAt(s.actors, i, e.conn, center, radius);
      var k := |head| + |ActorReplay(s.actors[..i], e.conn, center, radius)|;
      assert sent[k] == all[k] == Send(e.conn, SpawnActorMsg(s.actors[i]));
      StillThere(env, s, e, center, radius, i, 0);
      TakenSpawnIsHeld(env, s, e, k);
    }
    forall i | 0 <= i < |s.objects| && ReplaysObject(s.objects[i], center, radius)
      ensures HoldsObject(ClientAfter(env, s, e, e.conn, EmptyTables()), s.objects[i].id)
    {
      ObjectSpawnAt(s.objects, i, e.conn, center, radius);
      var k := |head| + |actors| + |ObjectReplay(s.objects[..i], e.conn, center, radius)|;
      assert sent[k] == all[k] == Send(e.conn, SpawnObjectMsg(s.objects[i]));
      StillThere(env, s, e, center, radius, 0, i);
      TakenSpawnIsHeld(env, s, e, k);
    }
  }

  lemma StillThere(env: Env, s: Session, e: Envelope, center: Vec3, radius: real, i: nat, j: nat)
    requires e.request.Hello? && HeadOk(env, s)
    ensures i < |s.actors| && ReplaysActor(s.actors[i], center, radius) ==> HasActor(Turn(env, s, e), s.actors[i].id)
    ensures j < |s.objects| && ReplaysObject(s.objects[j], center, radius) ==>
              HasObject(Turn(env, s, e), s.objects[j].id)
  {
    hide Turn, HeadOk, First;
    HelloKeepsWorld(env, s, e);
  }

  /** Not every spawn fits: the last one that does not is of an actor or an object that the client never hears of. */
  lemma MissedIsUncovered(env: Env, s: Session, e: Envelope)
    requires e.request.Hello? && HeadOk(env, s) && Handle(env, s, e).accepted && !SpawnsFit(s, e)
    ensures !Covers(ClientAfter(env, s, e, e.conn, EmptyTables()), s, JoinCenter(s, e), ReplayRadius(s))
  {
    hide Handle, Turn, HoldsActor, HoldsObject, SpawnsFit, JoinCenter, ReplaysActor, ReplaysObject, ActorReplay,
         ObjectReplay, HasActor, HasObject, Demand, EmptyTables, First, BringsActor, BringsObject, Received, ApplyAll,
         HeadOk;
    var center, radius := JoinCenter(s, e), ReplayRadius(s);
    var head, tail := JoinParts(env, s, e);
    var actors, objects := ActorReplay(s.actors, e.conn, center, radius),
        ObjectReplay(s.objects, e.conn, center, radius);
    var sent := Transmitted(env, s, e);
    assert sent == TakeQueue(head + actors + objects + tail);
    if actors != [] && |head| + |actors| - 1 > MAX_OUTPUTS {
      var i := LastActor(s.actors, e.conn, center, radius);
      var front := ActorReplay(s.actors[..i], e.conn, center, radius);
      assert sent <= head + front;
      OthersBringOthers(env, s, center, radius, e.conn, i, 0);
      QuietBringsNothing(head, s.actors[i].id);
      assert NoneBringsActor(sent, s.actors[i].id);
      ReceivedBrings(sent, e.conn, s.actors[i].id);
      EmptyHoldsNothing(s.actors[i].id);
      UnspokenIsUnheld(EmptyTables(), Received(sent, e.conn), s.actors[i].id);
    } else {
      var i := LastObject(s.objects, e.conn, center, radius);
      var front := ObjectReplay(s.objects[..i], e.conn, center, radius);
      assert sent <= head + actors + front;
      OthersBringOthers(env, s, center, radius, e.conn, 0, i);
      QuietBringsNothing(head, s.objects[i].id);
      ActorReplayKinds(s.actors, e.conn, center, radius);
      ActorNewsBringsNoObject(actors, e.conn, s.objects[i].id);
      assert NoneBringsObject(sent, s.objects[i].id);
      ReceivedBrings(sent, e.conn, s.objects[i].id);
      EmptyHoldsNothing(s.objects[i].id);
      UnspokenIsUnheld(EmptyTables(), Received(sent, e.conn), s.objects[i].id);
    }
  }

  lemma QuietBringsNothing(sends: seq<Send>, id: nat)
    requires AllQuiet(sends)
    ensures NoneBringsActor(sends, id) && NoneBringsObject(sends, id)
  {
  }

  lemma ActorNewsBringsNoObject(sends: seq<Send>, conn: nat, id: nat)
    requires ActorNews(sends, conn)
    ensures NoneBringsObject(sends, id)
  {
  }

  lemma OthersBringOthers(env: Env, s: Session, center: Vec3, radius: real, conn: nat, i: nat, j: nat)
    requires HeadOk(env, s)
    ensures i < |s.actors| && ReplaysActor(s.actors[i], center, radius) ==>
              NoneBringsActor(ActorReplay(s.actors[..i], conn, center, radius), s.actors[i].id)
    ensures j < |s.objects| && ReplaysObject(s.objects[j], center, radius) ==>
              NoneBringsObject(ObjectReplay(s.objects[..j], conn, center, radius), s.objects[j].id)
  {
    hide First, NoneBringsActor, NoneBringsObject, ActorReplay, ObjectReplay;
    if i < |s.actors| && ReplaysActor(s.actors[i], center, radius) {
      var id := s.actors[i].id;
      forall k | 0 <= k < i && s.actors[k].inUse ensures s.actors[k].id != id && s.actors[k].state.actorId != id {
        assert ActorOk(s.actors[k]);
      }
      ReplayBringsOwn(s.actors[..i], conn, center, radius, id);
    }
    if j < |s.objects| && ReplaysObject(s.objects[j], center, radius) {
      ReplayBringsOwnObject(s.objects[..j], conn, center, radius, s.objects[j].id);
    }
  }

  /** A client that starts empty holds, after its HELLO, every actor and every object in range if and only if the last
      spawn of the replay is within the queue. */
  lemma JoinCoversIffFits(env: Env, s: Session, e: Envelope)
    requires e.request.Hello? && HeadOk(env, s) && Handle(env, s, e).accepted
    ensures Covers(ClientAfter(env, s, e, e.conn, EmptyTables()), s, JoinCenter(s, e), ReplayRadius(s)) <==>
              SpawnsFit(s, e)
  {
    hide Handle, HeadOk, SpawnsFit, JoinCenter, Covers, ClientAfter, EmptyTables;
    if SpawnsFit(s, e) { FitsCovers(env, s, e); } else { MissedIsUncovered(env, s, e); }
  }

  /** With 31 hostiles the first HELLO leaves one of them out: 5 + 62 messages, of which 64 are sent. */
  lemma OverflowIsReachable(env: Env, conn: nat, guid: string, profile: Profile)
    ensures var s, e := Service.Boot(Service.CrowdedConfig(31)), Envelope(conn, Hello(guid, profile));
            && Handle(env, s, e).accepted && !SpawnsFit(s, e)
            && !Covers(ClientAfter(env, s, e, conn, EmptyTables()), s, JoinCenter(s, e), ReplayRadius(s))
  {
    hide Seat, Handle, HeadOk, Service.Boot, ReplaysActor, ReplaysObject, ReplayCenter, Covers, ClientAfter;
    var s, e := Service.Boot(Service.CrowdedConfig(31)), Envelope(conn, Hello(guid, profile));
    Service.CrowdedReplay(env, conn, guid, profile, 31);
    assert JoinCenter(s, e) == ORIGIN;
    JoinCoversIffFits(env, s, e);
  }

  // ---- building -------------------------------------------------------------------------------------------

  predicate Ready(t: Tables, id: nat) { SlotForObject(t.objects, id) < |t.objects| }

  lemma ApplyKeepsReady(t: Tables, msg: Message, id: nat)
    requires Ready(t, id) && (msg.ObjectSpawn? ==> msg.objectId == id)
    ensures Ready(Apply(t, msg), id) && (BringsObject(msg, id) ==> HoldsObject(Apply(t, msg), id))
  {
    var i := SlotForObject(t.objects, id);
    var after := Apply(t, msg).objects;
    if BringsObject(msg, id) {
      assert after[i].inUse && after[i].id == id;
    } else {
      assert !after[i].inUse || after[i].id == id;
      SlotIsFound(after, i, id);
    }
  }

  lemma SlotIsFound(objects: seq<ProxyObject>, i: nat, id: nat)
    requires i < |objects| && (!objects[i].inUse || objects[i].id == id)
    ensures SlotForObject(objects, id) < |objects|
  {
  }

  /** With one free slot, an object that is the only one spawned is held. */
  lemma {:induction false} OnlySpawnIsHeld(t: Tables, msgs: seq<Message>, id: nat)
    requires Ready(t, id) && ObjectDespawn(id) !in msgs
    requires forall k :: 0 <= k < |msgs| && msgs[k].ObjectSpawn? ==> msgs[k].objectId == id
    ensures Ready(ApplyAll(t, msgs), id)
    ensures (exists k :: 0 <= k < |msgs| && BringsObject(msgs[k], id)) ==> HoldsObject(ApplyAll(t, msgs), id)
  {
    hide Apply, Ready, HoldsObject;
    if msgs != [] {
      var n := |msgs| - 1;
      assert forall m :: m in msgs[..n] ==> m in msgs;
      OnlySpawnIsHeld(t, msgs[..n], id);
      var mid := ApplyAll(t, msgs[..n]);
      ApplyKeepsReady(mid, msgs[n], id);
      if k :| 0 <= k < |msgs| && BringsObject(msgs[k], id) && k < n {
        assert BringsObject(msgs[..n][k], id);
        assert msgs[n] in msgs;
        ApplyKeepsObject(mid, msgs[n], id);
      }
    }
  }

  /** The turn built an object: the session has one under the id that was next. */
  ghost predicate Builds(env: Env, s: Session, e: Envelope) {
    e.request.Build? && HasObject(Turn(env, s, e), s.nextObjectId)
  }

  lemma BuildSends(env: Env, s: Session, e: Envelope)
    requires HeadOk(env, s) && e.request.Build? && HasObject(Handle(env, s, e).session, s.nextObjectId)
    ensures var o := Handle(env, s, e);
            && o.accepted && o.session.actors == s.actors
            && var i := FindObject(o.session.objects, s.nextObjectId);
               && i < |o.session.objects| && |o.sends| > 0 && Quiet(o.sends[0].msg)
               && o.sends[1..] == Broadcast(o.session.players, SpawnObjectMsg(o.session.objects[i]))
  {
    hide First, Broadcast, BuildValid, Adjusted, Heard, AllAlive, ActorsOk;
    assert !HasObject(s, s.nextObjectId);
    var i := FindConnection(s.players, e.conn);
    if i < |s.players| {
      HeardWorld(s, s.players[i].id);
    }
  }

  lemma HeardWorld(s: Session, id: nat)
    ensures var h := Heard(s, id); h.objects == s.objects && h.actors == s.actors && h.nextObjectId == s.nextObjectId
  {
  }

  /** An object that is built while a connected client has a free slot ends up in the client's table. */
  lemma BuildIsHeld(env: Env, s: Session, e: Envelope, client: nat, t: Tables)
    requires HeadOk(env, s) && Builds(env, s, e) && HasConn(Turn(env, s, e).players, client)
    requires UsedObjects(t.objects) < |t.objects|
    ensures HoldsObject(ClientAfter(env, s, e, client, t), s.nextObjectId)
  {
    hide Handle, Tick, HasConn, HoldsObject, Ready, ApplyAll, Broadcast, HasObject, UsedObjects, AllHarmless, First,
         Received, ActorsOk, WorkshopOk;
    var id, o := s.nextObjectId, Handle(env, s, e);
    TickKeepsObjects(o.session);
    assert HasObject(o.session, id) by { SameObjects(Turn(env, s, e), o.session, id); }
    BuildSends(env, s, e);
    TickConn(env, s, e, client);
    TurnFitsQueue(env, s, e);
    TickAliveIsQuiet(o.session, client);
    var sent := o.sends + Tick(o.session).1;
    assert Transmitted(env, s, e) == sent;
    TurnIsHarmless(env, s, e);
    ReceivedIsHarmless(sent, client, Turn(env, s, e), id);
    OneSpawn(o, Tick(o.session).1, id, client);
    RoomIsReady(t, id);
    OnlySpawnIsHeld(t, Received(sent, client), id);
  }

  lemma SameObjects(a: Session, b: Session, id: nat)
    requires a.objects == b.objects && HasObject(a, id)
    ensures HasObject(b, id)
  {
  }

  lemma RoomIsReady(t: Tables, id: nat)
    requires UsedObjects(t.objects) < |t.objects|
    ensures Ready(t, id)
  {
    if !Ready(t, id) { AllObjectsTaken(t.objects, id); }
  }

  /** A quiet message, a broadcast of one spawn and quiet messages bring exactly that object. */
  lemma OneSpawn(o: Outcome, tail: seq<Send>, id: nat, client: nat)
    requires |o.sends| > 0 && Quiet(o.sends[0].msg) && AllQuiet(tail) && HasConn(o.session.players, client)
    requires var i := FindObject(o.session.objects, id);
             i < |o.session.objects| && o.sends[1..]
                 == Broadcast(o.session.players, SpawnObjectMsg(o.session.objects[i]))
    ensures var msgs := Received(o.sends + tail, client);
            && (forall k :: 0 <= k < |msgs| && msgs[k].ObjectSpawn? ==> msgs[k].objectId == id)
            && (exists k :: 0 <= k < |msgs| && BringsObject(msgs[k], id))
  {
    hide Broadcast, HasConn, First, Received;
    var msg := SpawnObjectMsg(o.session.objects[FindObject(o.session.objects, id)]);
    var spawns := Received(Broadcast(o.session.players, msg), client);
    ReceivedBroadcast(o.session.players, msg, client);
    var first := Received([o.sends[0]], client);
    ReceivedSmall(o.sends[0].conn, client, o.sends[0].msg);
    assert [o.sends[0]] == [Send(o.sends[0].conn, o.sends[0].msg)];
    assert o.sends + tail == [o.sends[0]] + o.sends[1..] + tail;
    ReceivedAppend([o.sends[0]] + o.sends[1..], tail, client);
    ReceivedAppend([o.sends[0]], o.sends[1..], client);
    ReceivedQuiet(tail, client);
    var msgs := first + spawns + Received(tail, client);
    assert msgs[|first|] == spawns[0] == msg && BringsObject(msgs[|first|], id);
  }

  lemma {:induction false} ReceivedQuiet(sends: seq<Send>, conn: nat)
    requires AllQuiet(sends)
    ensures forall k :: 0 <= k < |Received(sends, conn)| ==> Quiet(Received(sends, conn)[k])
  {
    if sends != [] { ReceivedQuiet(sends[..|sends| - 1], conn); }
  }

  // ---- both halves over whole runs ------------------------------------------------------------------------

  lemma {:induction false} ClientRunFront(env: Env, s: Session, e: Envelope, es: seq<Envelope>, client: nat, t: Tables)
    ensures ClientRun(env, s, [e] + es, client, t)
            == ClientRun(env, Turn(env, s, e), es, client, ClientAfter(env, s, e, client, t))
  {
    hide Turn, ClientAfter;
    if es == [] {
      assert [e] + es == [e] && [e][..0] == [];
    } else {
      ClientRunFront(env, s, e, es[..|es| - 1], client, t);
      RunFront(env, s, e, es[..|es| - 1]);
      assert ([e] + es)[..|es|] == [e] + es[..|es| - 1];
    }
  }

  /** The mirror both ways: a client that joins with a replay whose spawns fit and stays attached holds, over every run,
      exactly the session's state of whatever it holds, and it holds every actor and object that was in range when it
      joined and that the session still has. */
  lemma MirrorBothWays(env: Env, s: Session, hello: Envelope, es: seq<Envelope>)
    requires hello.request.Hello? && HeadOk(env, s) && Handle(env, s, hello).accepted && SpawnsFit(s, hello)
    requires Attached(env, s, [hello] + es, hello.conn)
    ensures var t, u := ClientRun(env, s, [hello] + es, hello.conn, EmptyTables()), Run(env, s, [hello] + es);
            var center, radius := JoinCenter(s, hello), ReplayRadius(s);
            && Agree(t, u)
            && (forall i :: 0 <= i < |s.actors| && ReplaysActor(s.actors[i], center, radius) ==>
                              HasActor(u, s.actors[i].id) ==> HoldsActor(t, s.actors[i].id))
            && (forall i :: 0 <= i < |s.objects| && ReplaysObject(s.objects[i], center, radius) ==>
                              HasObject(u, s.objects[i].id) ==> HoldsObject(t, s.objects[i].id))
  {
    hide Handle, Turn, Run, ClientRun, HeadOk, SpawnsFit, JoinCenter, ClientAfter, EmptyTables, Agree, Attached,
         HoldsActor, HoldsObject, HasActor, HasObject, ReplaysActor, ReplaysObject;
    var client, center, radius := hello.conn, JoinCenter(s, hello), ReplayRadius(s);
    MirrorSimulation(env, s, [hello] + es, client);
    FitsCovers(env, s, hello);
    ClientRunFront(env, s, hello, es, client, EmptyTables());
    RunFront(env, s, hello, es);
    TurnKeepsHead(env, s, hello);
    var m, joined := Turn(env, s, hello), ClientAfter(env, s, hello, client, EmptyTables());
    var t, u := ClientRun(env, m, es, client, joined), Run(env, m, es);
    forall i | 0 <= i < |s.actors| && ReplaysActor(s.actors[i], center, radius) && HasActor(u, s.actors[i].id)
      ensures HoldsActor(t, s.actors[i].id)
    {
      RunKeepsHeld(env, m, es, client, joined, s.actors[i].id);
    }
    forall i | 0 <= i < |s.objects| && ReplaysObject(s.objects[i], center, radius) && HasObject(u, s.objects[i].id)
      ensures HoldsObject(t, s.objects[i].id)
    {
      KnownId(env, s, hello, center, radius, i);
      RunKeepsHeld(env, m, es, client, joined, s.objects[i].id);
    }
  }

  lemma KnownId(env: Env, s: Session, e: Envelope, center: Vec3, radius: real, i: nat)
    requires HeadOk(env, s) && i < |s.objects| && ReplaysObject(s.objects[i], center, radius)
    ensures s.objects[i].id < Turn(env, s, e).nextObjectId
  {
    hide Turn, First;
    GoneStaysGone(env, s, e, 0);
  }

  /** An object built while a connected client had a free slot stays in the client's table for as long as it exists. */
  lemma BuiltStaysHeld(env: Env, s: Session, e: Envelope, es: seq<Envelope>, client: nat, t: Tables)
    requires HeadOk(env, s) && Builds(env, s, e) && HasConn(Turn(env, s, e).players, client)
    requires UsedObjects(t.objects) < |t.objects|
    ensures HasObject(Run(env, s, [e] + es), s.nextObjectId) ==>
              HoldsObject(ClientRun(env, s, [e] + es, client, t), s.nextObjectId)
  {
    hide Turn, Run, ClientRun, HeadOk, Builds, ClientAfter, HoldsObject, HasObject, HasConn, UsedObjects;
    BuildIsHeld(env, s, e, client, t);
    ClientRunFront(env, s, e, es, client, t);
    RunFront(env, s, e, es);
    TurnKeepsHead(env, s, e);
    BuiltIdIsKnown(env, s, e);
    RunKeepsHeld(env, Turn(env, s, e), es, client, ClientAfter(env, s, e, client, t), s.nextObjectId);
  }

  lemma BuiltIdIsKnown(env: Env, s: Session, e: Envelope)
    requires HeadOk(env, s) && Builds(env, s, e)
    ensures s.nextObjectId < Turn(env, s, e).nextObjectId
  {
    hide Turn, First;
    TurnKeepsHead(env, s, e);
    var u := Turn(env, s, e);
    assert u.objects[FindObject(u.objects, s.nextObjectId)].inUse;
  }
}
