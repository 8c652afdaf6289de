/** What a client holds it keeps: nothing the session still has is ever taken from a client's tables. */
module Holding {
  import opened Slots
  import opened Protocol
  import opened Combat
  import opened Session
  import opened Lifecycle
  import opened Workshop
  import opened Proxy
  import opened Delivery
  import opened JoinReplay
  import opened MirrorTurns
  import opened MirrorJoin
  import StateNews

  predicate HoldsActor(t: Tables, id: nat) { HeldActor(t.actors, id) < |t.actors| }
  predicate HoldsObject(t: Tables, id: nat) { HeldObject(t.objects, id) < |t.objects| }

  predicate HasActor(s: Session, id: nat) { FindActor(s.actors, id) < |s.actors| }
  predicate HasObject(s: Session, id: nat) { FindObject(s.objects, id) < |s.objects| }

  // ---- packets -----------------------------------------------------------------------------------------------

  lemma ActorsKeepHeld(before: seq<ProxyActor>, after: seq<ProxyActor>, i: nat, id: nat)
    requires HeldActor(before, id) < |before| == |after| && i < |before| && after == before[i := after[i]]
    requires before[i].inUse && before[i].id == id ==> after[i].inUse && after[i].id == id
    ensures HeldActor(after, id) < |after|
  {
    hide First;
    var h := HeldActor(before, id);
    assert after[h].inUse && after[h].id == id;
  }

  lemma ObjectsKeepHeld(before: seq<ProxyObject>, after: seq<ProxyObject>, i: nat, id: nat)
    requires HeldObject(before, id) < |before| == |after| && i < |before| && after == before[i := after[i]]
    requires before[i].inUse && before[i].id == id ==> after[i].inUse && after[i].id == id
    ensures HeldObject(after, id) < |after|
  {
    hide First;
    var h := HeldObject(before, id);
    assert after[h].inUse && after[h].id == id;
  }

  /** Only a despawn of its own id takes an actor from the table. */
  lemma ApplyKeepsActor(t: Tables, msg: Message, id: nat)
    requires HoldsActor(t, id) && msg != ActorDespawn(id)
    ensures HoldsActor(Apply(t, msg), id)
  {
    hide First;
    var a := t.actors;
    match msg {
      case ActorSpawn(x, base, p, r, kind, flags) =>
        var i := SlotForActor(a, x);
        if i < |a| { ActorsKeepHeld(a, SpawnedActor(a, x, base, p, r, kind, flags), i, id); }
      case ActorStateMsg(state) => StateKeepsHeld(a, state, id);
      case ActorDespawn(x) =>
        var i := SlotForActor(a, x);
        if i < |a| { ActorsKeepHeld(a, DespawnedActor(a, x), i, id); }
      case DamageMsg(d) =>
        var i := SlotForActor(a, d.victim);
        if i < |a| { ActorsKeepHeld(a, DamagedActor(a, d), i, id); }
      case DeathMsg(d) =>
        var i := SlotForActor(a, d.victim);
        if i < |a| { ActorsKeepHeld(a, KilledActor(a, d.victim), i, id); }
      case _ =>
    }
  }

  lemma StateKeepsHeld(a: seq<ProxyActor>, state: ActorState, id: nat)
    requires HeldActor(a, id) < |a|
    ensures HeldActor(AppliedActorState(a, state), id) < |a|
  {
    hide First;
    var x := state.actorId;
    var i := SlotForActor(a, x);
    if HeldActor(a, x) < |a| {
      ActorsKeepHeld(a, UpdatedActor(a, state), i, id);
    } else if i < |a| {
      var spawned := SpawnedActor(a, x, 0, state.position, state.rotation, 0, 0);
      ActorsKeepHeld(a, spawned, i, id);
      var j := SlotForActor(spawned, x);
      if j < |spawned| { ActorsKeepHeld(spawned, UpdatedActor(spawned, state), j, id); }
    }
  }

  lemma ApplyKeepsObject(t: Tables, msg: Message, id: nat)
    requires HoldsObject(t, id) && msg != ObjectDespawn(id)
    ensures HoldsObject(Apply(t, msg), id)
  {
    hide First;
    var o := t.objects;
    match msg {
      case ObjectSpawn(x, _, _, _, _) =>
        var i := SlotForObject(o, x);
        if i < |o| { ObjectsKeepHeld(o, SpawnedObject(o, msg), i, id); }
      case ObjectUpdate(x, _, _, _, _) =>
        var i := SlotForObject(o, x);
        if i < |o| { ObjectsKeepHeld(o, UpdatedObject(o, msg), i, id); }
      case ObjectDespawn(x) =>
        var i := SlotForObject(o, x);
        if i < |o| { ObjectsKeepHeld(o, DespawnedObject(o, x), i, id); }
      case _ =>
    }
  }

  lemma {:induction false} ApplyAllKeepsActor(t: Tables, msgs: seq<Message>, id: nat)
    requires HoldsActor(t, id) && ActorDespawn(id) !in msgs
    ensures HoldsActor(ApplyAll(t, msgs), id)
  {
    hide Apply, HoldsActor;
    if msgs != [] {
      var n := |msgs| - 1;
      assert forall m :: m in msgs[..n] ==> m in msgs;
      ApplyAllKeepsActor(t, msgs[..n], id);
      assert msgs[n] in msgs;
      ApplyKeepsActor(ApplyAll(t, msgs[..n]), msgs[n], id);
    }
  }

  lemma {:induction false} ApplyAllKeepsObject(t: Tables, msgs: seq<Message>, id: nat)
    requires HoldsObject(t, id) && ObjectDespawn(id) !in msgs
    ensures HoldsObject(ApplyAll(t, msgs), id)
  {
    hide Apply, HoldsObject;
    if msgs != [] {
      var n := |msgs| - 1;
      assert forall m :: m in msgs[..n] ==> m in msgs;
      ApplyAllKeepsObject(t, msgs[..n], id);
      assert msgs[n] in msgs;
      ApplyKeepsObject(ApplyAll(t, msgs[..n]), msgs[n], id);
    }
  }

  // ---- turns -------------------------------------------------------------------------------------------------

  /** A despawn names something the session no longer has. */
  ghost predicate Harmless(msg: Message, s: Session) {
    && (msg.ActorDespawn? ==> !HasActor(s, msg.goneActor))
    && (msg.ObjectDespawn? ==> !HasObject(s, msg.goneObject))
  }

  ghost predicate AllHarmless(sends: seq<Send>, s: Session) {
    forall k :: 0 <= k < |sends| ==> Harmless(sends[k].msg, s)
  }

  lemma {:induction false} BroadcastHarmless(players: seq<Player>, msg: Message, s: Session)
    requires Harmless(msg, s)
    ensures AllHarmless(Broadcast(players, msg), s)
  {
    hide Harmless;
    if players != [] { BroadcastHarmless(players[..|players| - 1], msg, s); }
  }

  lemma QuietIsHarmless(sends: seq<Send>, s: Session)
    requires AllQuiet(sends)
    ensures AllHarmless(sends, s)
  {
  }

  /** What a handler sends is harmless in the session the whole turn leaves. */
  lemma HandleIsHarmless(env: Env, s: Session, e: Envelope, u: Session)
    requires HeadOk(env, s) && u.objects == Handle(env, s, e).session.objects
    ensures AllHarmless(Handle(env, s, e).sends, u)
  {
    hide HandleHello, HandleFire, HandleBuild, HandleMove, HandleScrap, First, AllAlive, Harmless;
    var i := FindConnection(s.players, e.conn);
    if e.request.Hello? {
      JoinIsHarmless(env, s, e, u);
    } else if i < |s.players| {
      var id := s.players[i].id;
      match e.request {
        case Fire(_, _, _, _) => FireIsHarmless(env, s, id, e.request, u);
        case Build(_, _, _, _, _, _, _) => BuildIsHarmless(env, s, e.conn, id, e.request, u);
        case Move(_, _, _, _) => MoveIsHarmless(s, id, e.request, u);
        case Scrap(_, _) => ScrapIsHarmless(env, s, id, e.request, u);
        case _ => PlayerRequestsAreQuiet(env, s, e); QuietIsHarmless(Handle(env, s, e).sends, u);
      }
    }
  }

  lemma JoinIsHarmless(env: Env, s: Session, e: Envelope, u: Session)
    requires HeadOk(env, s) && e.request.Hello?
    ensures AllHarmless(HandleHello(s, e.conn, e.request.guid, e.request.profile).sends, u)
  {
    hide Seat, PlayerReplay, ActorReplay, ObjectReplay, ReplayCenter, First, HeadOk, Harmless;
    var o := HandleHello(s, e.conn, e.request.guid, e.request.profile);
    if Seat(s, e.conn, e.request.guid).Some? && o.accepted {
      var id, j := Seat(s, e.conn, e.request.guid).value.0, o.session;
      var center := ReplayCenter(j.players, id, j.bubbleCenter);
      PlayerReplayShape(j.players, e.conn, id);
      ActorReplayKinds(j.actors, e.conn, center, ReplayRadius(j));
      ObjectReplayKinds(j.objects, e.conn, center, ReplayRadius(j));
      var head := [Send(e.conn, Welcome(s.sessionId, id, s.tickRate, s.rules))]
          + ProfileSends(e.conn, e.request.profile);
      var players := PlayerReplay(j.players, e.conn, id);
      var actors := ActorReplay(j.actors, e.conn, center, ReplayRadius(j));
      var objects := ObjectReplay(j.objects, e.conn, center, ReplayRadius(j));
      assert o.sends == head + (players + actors + objects);
      NewsIsHarmless(actors, objects, e.conn, u);
      assert AllQuiet(head) && AllQuiet(players);
      QuietIsHarmless(head, u);
      QuietIsHarmless(players, u);
    } else {
      StateNews.HelloRefusalSendsNothing(s, e);
    }
  }

  lemma NewsIsHarmless(actors: seq<Send>, objects: seq<Send>, conn: nat, u: Session)
    requires ActorNews(actors, conn) && ObjectNews(objects, conn)
    ensures AllHarmless(actors, u) && AllHarmless(objects, u)
  {
  }

  ghost predicate ActorNews(sends: seq<Send>, conn: nat) {
    forall k :: 0 <= k < |sends| ==> sends[k].conn == conn && (sends[k].msg.ActorSpawn? || sends[k].msg.ActorStateMsg?)
  }

  ghost predicate ObjectNews(sends: seq<Send>, conn: nat) {
    forall k :: 0 <= k < |sends| ==> sends[k].conn == conn && sends[k].msg.ObjectSpawn?
  }

  lemma {:induction false} ActorReplayKinds(actors: seq<Actor>, conn: nat, center: Vec3, radius: real)
    ensures ActorNews(ActorReplay(actors, conn, center, radius), conn)
  {
    hide ReplaysActor;
    if actors != [] { ActorReplayKinds(actors[..|actors| - 1], conn, center, radius); }
  }

  lemma {:induction false} ObjectReplayKinds(objects: seq<Object>, conn: nat, center: Vec3, radius: real)
    ensures ObjectNews(ObjectReplay(objects, conn, center, radius), conn)
  {
    hide ReplaysObject;
    if objects != [] { ObjectReplayKinds(objects[..|objects| - 1], conn, center, radius); }
  }

  lemma FireIsHarmless(env: Env, s: Session, id: nat, req: Request, u: Session)
    requires req.Fire?
    ensures AllHarmless(HandleFire(env, s, id, req).sends, u)
  {
    hide Broadcast, First, FireValid, Target, Wound;
    var h := Heard(s, id);
    forall msg: Message | !msg.ActorDespawn? && !msg.ObjectDespawn? ensures AllHarmless(Broadcast(h.players, msg), u) {
      BroadcastHarmless(h.players, msg, u);
    }
  }

  lemma BuildIsHarmless(env: Env, s: Session, conn: nat, id: nat, req: Request, u: Session)
    requires req.Build?
    ensures AllHarmless(HandleBuild(env, s, conn, id, req).sends, u)
  {
    hide Broadcast, First, BuildValid, Adjusted;
    var built := BuildStep(env, Heard(s, id), req).1;
    forall msg: Message | !msg.ActorDespawn? && !msg.ObjectDespawn?
        ensures AllHarmless(Broadcast(built.players, msg), u) {
      BroadcastHarmless(built.players, msg, u);
    }
  }

  lemma MoveIsHarmless(s: Session, id: nat, req: Request, u: Session)
    requires req.Move?
    ensures AllHarmless(HandleMove(s, id, req).sends, u)
  {
    hide Broadcast, First, MoveValid;
    forall msg: Message | !msg.ActorDespawn? && !msg.ObjectDespawn? ensures AllHarmless(Broadcast(s.players, msg), u) {
      BroadcastHarmless(s.players, msg, u);
    }
  }

  lemma ScrapIsHarmless(env: Env, s: Session, id: nat, req: Request, u: Session)
    requires req.Scrap? && WorkshopOk(env, s) && u.objects == HandleScrap(s, id, req).session.objects
    ensures AllHarmless(HandleScrap(s, id, req).sends, u)
  {
    hide Broadcast, First, Adjusted;
    if req.scrapper == id && ScrapValid(s, req) {
      var o := FindObject(s.objects, req.scrapId);
      assert forall j :: 0 <= j < |u.objects| && j != o && u.objects[j].inUse ==> u.objects[j].id != s.objects[o].id;
      BroadcastHarmless(s.players, ObjectDespawn(req.scrapId), u);
    }
  }

  lemma TickIsHarmless(env: Env, s: Session, e: Envelope)
    requires HeadOk(env, s)
    ensures var u := Handle(env, s, e).session; AllHarmless(Tick(u).1, Tick(u).0)
  {
    hide Handle, WorkshopOk, First, MarkDead, DespawnAll, DeadIds, DropAll, TickPlayers, Broadcast;
    var o := Handle(env, s, e);
    var u := o.session;
    HandleHits(env, s, e);
    if o.damage.Some? { HitKeepsActors(s.actors, o.damage.value.victim); }
    if o.damage.Some? && o.damage.value.killed {
      var i := FindActor(s.actors, o.damage.value.victim);
      TickBuries(TickPlayers(u).0, u.actors, i);
      TickPlayersIsQuiet(u, 0);
      QuietIsHarmless(TickPlayers(u).1, Tick(u).0);
      BuriedIsGone(u.actors, i);
      BroadcastHarmless(TickPlayers(u).0, ActorDespawn(u.actors[i].id), Tick(u).0);
    } else {
      TickAliveIsQuiet(u, 0);
      QuietIsHarmless(Tick(u).1, Tick(u).0);
    }
  }

  lemma BuriedIsGone(actors: seq<Actor>, i: nat)
    requires DistinctActors(actors) && i < |actors| && actors[i].inUse
    ensures FindActor(actors[i := NO_ACTOR], actors[i].id) == |actors|
  {
    hide First;
    var after := actors[i := NO_ACTOR];
    assert forall j :: 0 <= j < |after| && after[j].inUse ==> after[j].id != actors[i].id;
  }

  /** Every despawn a turn sends names something the session no longer has when the turn is over. */
  lemma TurnIsHarmless(env: Env, s: Session, e: Envelope)
    requires HeadOk(env, s)
    ensures AllHarmless(Transmitted(env, s, e), Turn(env, s, e))
  {
    hide Handle, Tick, HeadOk, Harmless;
    var o := Handle(env, s, e);
    TickKeepsObjects(o.session);
    HandleIsHarmless(env, s, e, Turn(env, s, e));
    TickIsHarmless(env, s, e);
  }

  lemma TickKeepsObjects(s: Session)
    ensures Tick(s).0.objects == s.objects
  {
  }

  lemma {:induction false} ReceivedIsHarmless(sends: seq<Send>, conn: nat, s: Session, id: nat)
    requires AllHarmless(sends, s)
    ensures HasActor(s, id) ==> ActorDespawn(id) !in Received(sends, conn)
    ensures HasObject(s, id) ==> ObjectDespawn(id) !in Received(sends, conn)
  {
    hide HasActor, HasObject;
    if sends != [] {
      ReceivedIsHarmless(sends[..|sends| - 1], conn, s, id);
      assert Harmless(sends[|sends| - 1].msg, s);
    }
  }

  /** A turn takes nothing from a client that the session still has. */
  lemma TurnKeepsHeld(env: Env, s: Session, e: Envelope, client: nat, t: Tables, id: nat)
    requires HeadOk(env, s)
    ensures var after, u := ClientAfter(env, s, e, client, t), Turn(env, s, e);
            && (HoldsActor(t, id) && HasActor(u, id) ==> HoldsActor(after, id))
            && (HoldsObject(t, id) && HasObject(u, id) ==> HoldsObject(after, id))
  {
    hide Turn, Transmitted, HeadOk, HoldsActor, HoldsObject, HasActor, HasObject, AllHarmless;
    TurnIsHarmless(env, s, e);
    ReceivedIsHarmless(Transmitted(env, s, e), client, Turn(env, s, e), id);
    var msgs := Received(Transmitted(env, s, e), client);
    if HoldsActor(t, id) && HasActor(Turn(env, s, e), id) { ApplyAllKeepsActor(t, msgs, id); }
    if HoldsObject(t, id) && HasObject(Turn(env, s, e), id) { ApplyAllKeepsObject(t, msgs, id); }
  }

  // ---- runs ------------------------------------------------------------------------------------------------------

  /** What is gone stays gone: actors are never spawned again, and an object id is never used twice. */
  lemma GoneStaysGone(env: Env, s: Session, e: Envelope, id: nat)
    requires HeadOk(env, s)
    ensures !HasActor(s, id) ==> !HasActor(Turn(env, s, e), id)
    ensures id < s.nextObjectId && !HasObject(s, id) ==> !HasObject(Turn(env, s, e), id)
    ensures s.nextObjectId <= Turn(env, s, e).nextObjectId
  {
    hide Handle, Tick, First, WorkshopOk, ActorOk;
    TurnHits(env, s, e);
    if !HasActor(s, id) {
      var after := Turn(env, s, e).actors;
      assert forall i :: 0 <= i < |after| && after[i].inUse ==> s.actors[i].inUse && s.actors[i].id == after[i].id;
    }
    HandleLeavesGone(env, s, e, id);
    TickKeepsObjects(Handle(env, s, e).session);
    TickKeepsNextId(Handle(env, s, e).session);
  }

  lemma TickKeepsNextId(s: Session)
    ensures Tick(s).0.nextObjectId == s.nextObjectId
  {
  }

  lemma HandleLeavesGone(env: Env, s: Session, e: Envelope, id: nat)
    ensures id < s.nextObjectId && !HasObject(s, id) ==> !HasObject(Handle(env, s, e).session, id)
    ensures s.nextObjectId <= Handle(env, s, e).session.nextObjectId
  {
    hide HandleHello, HandleFire, HandleBuild, HandleMove, HandleScrap, HandleDisconnect, HandlePlayerUpdate,
         HandleInput, HandleSelect, Heard, First;
    var i := FindConnection(s.players, e.conn);
    if i < |s.players| && e.request.Build? {
      BuildLeavesGone(env, s, e.conn, s.players[i].id, e.request, id);
    } else if i < |s.players| && e.request.Move? {
      MoveLeavesGone(s, s.players[i].id, e.request, id);
    } else if i < |s.players| && e.request.Scrap? {
      ScrapLeavesGone(s, s.players[i].id, e.request, id);
    } else {
      HandleFrame(env, s, e);
    }
  }

  lemma BuildLeavesGone(env: Env, s: Session, conn: nat, from: nat, req: Request, id: nat)
    requires req.Build?
    ensures var u := HandleBuild(env, s, conn, from, req).session;
            && s.nextObjectId <= u.nextObjectId
            && (id < s.nextObjectId && !HasObject(s, id) ==> !HasObject(u, id))
  {
    hide First, BuildValid, Adjusted, Broadcast;
    var u := HandleBuild(env, s, conn, from, req).session;
    assert forall i :: 0 <= i < |u.objects| ==> u.objects[i] == s.objects[i] || u.objects[i].id == s.nextObjectId;
  }

  lemma MoveLeavesGone(s: Session, from: nat, req: Request, id: nat)
    requires req.Move?
    ensures var u := HandleMove(s, from, req).session;
            u.nextObjectId == s.nextObjectId && (!HasObject(s, id) ==> !HasObject(u, id))
  {
    hide First, Inside, Broadcast;
    var u := HandleMove(s, from, req).session;
    assert forall i :: 0 <= i < |u.objects| ==>
        u.objects[i].inUse == s.objects[i].inUse && u.objects[i].id == s.objects[i].id;
  }

  lemma ScrapLeavesGone(s: Session, from: nat, req: Request, id: nat)
    requires req.Scrap?
    ensures var u := HandleScrap(s, from, req).session;
            u.nextObjectId == s.nextObjectId && (!HasObject(s, id) ==> !HasObject(u, id))
  {
    hide First, Broadcast, Adjusted;
    var u := HandleScrap(s, from, req).session;
    assert forall i :: 0 <= i < |u.objects| && u.objects[i].inUse ==> u.objects[i] == s.objects[i];
  }

  /** Over every run, a client never loses what the session still has. */
  lemma {:induction false} RunKeepsHeld(env: Env, s: Session, es: seq<Envelope>, client: nat, t: Tables, id: nat)
    requires HeadOk(env, s)
    ensures var after, u := ClientRun(env, s, es, client, t), Run(env, s, es);
            && s.nextObjectId <= u.nextObjectId
            && (HasActor(u, id) ==> HasActor(s, id)) && (id < s.nextObjectId && HasObject(u, id) ==> HasObject(s, id))
            && (HoldsActor(t, id) && HasActor(u, id) ==> HoldsActor(after, id))
            && (HoldsObject(t, id) && id < s.nextObjectId && HasObject(u, id) ==> HoldsObject(after, id))
  {
    hide Turn, HeadOk, HoldsActor, HoldsObject, HasActor, HasObject, ClientAfter;
    if es != [] {
      var before, e := es[..|es| - 1], es[|es| - 1];
      RunKeepsHeld(env, s, before, client, t, id);
      RunKeepsHead(env, s, before);
      GoneStaysGone(env, Run(env, s, before), e, id);
      TurnKeepsHeld(env, Run(env, s, before), e, client, ClientRun(env, s, before, client, t), id);
    }
  }
}
