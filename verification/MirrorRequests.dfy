/** Each request keeps the mirror of every client that stays connected. */
module MirrorRequests {
  import opened Slots
  import opened Protocol
  import opened Combat
  import opened Session
  import opened Lifecycle
  import opened Workshop
  import opened Proxy
  import opened Mirror
  import opened Delivery

  // ---- combat --------------------------------------------------------------------------------------

  /** The packets of a hit, in the order the service sends them. */
  function HitSends(players: seq<Player>, damage: DamageResult, state: ActorState,
      death: Option<DeathEvent>): seq<Send> {
    Broadcast(players, DamageMsg(damage)) + Broadcast(players, ActorStateMsg(state))
    + (if death.Some? then Broadcast(players, DeathMsg(death.value)) else [])
  }

  lemma FireSends(env: Env, s: Session, id: nat, req: Request)
    requires req.Fire? && ActorsOk(s.actors)
    ensures var o := HandleFire(env, s, id, req);
            && (o.damage.None? ==> o.sends == [])
            && (o.damage.Some? ==>
                  var i := FindActor(s.actors, o.damage.value.victim);
                  i < |s.actors|
                  && o.sends == HitSends(o.session.players, o.damage.value, Wound(s.actors[i]).state, o.death))
  {
    hide FireValid, Broadcast;
    FireHits(env, s, id, req);
    var o := HandleFire(env, s, id, req);
    if o.damage.Some? {
      HitKeepsActors(s.actors, o.damage.value.victim);
      Lifecycle.ActorSlot(o.session.actors, FindActor(s.actors, o.damage.value.victim));
    }
  }

  /** The three packets of a hit bring any client in line with the wounded actor. */
  lemma HitKeepsMirror(t: Tables, s: Session, u: Session, i: nat, damage: DamageResult, death: Option<DeathEvent>,
      conn: nat)
    requires Agree(t, s) && ActorsOk(s.actors) && i < |s.actors| && s.actors[i].inUse
    requires u.actors == s.actors[i := Wound(s.actors[i])] && u.objects == s.objects
    requires damage.victim == s.actors[i].id
    requires death.Some? ==> death.value.victim == damage.victim && Wound(s.actors[i]).state.health == 0
    requires HasConn(u.players, conn)
    ensures Agree(After(t, HitSends(u.players, damage, Wound(s.actors[i]).state, death), conn), u)
  {
    hide Agree, AgreeBut, After, ActorsOk;
    var v := damage.victim;
    var state := Wound(s.actors[i]).state;
    HitIsOk(s.actors, u.actors, i);
    ActorChangeDoubts(t, s, u, i, Wound(s.actors[i]));
    var m1, m2 := Broadcast(u.players, DamageMsg(damage)), Broadcast(u.players, ActorStateMsg(state));
    var m3 := if death.Some? then Broadcast(u.players, DeathMsg(death.value)) else [];
    var t1 := After(t, m1, conn);
    var t2 := After(t1, m2, conn);
    BroadcastKeepsAgreement(t, u, u.players, DamageMsg(damage), conn, {v}, {});
    BroadcastKeepsAgreement(t1, u, u.players, ActorStateMsg(state), conn, {v}, {});
    assert {v} - {v} == {};
    AfterAppend(t, m1, m2, conn);
    AfterAppend(t, m1 + m2, m3, conn);
    if death.Some? {
      BroadcastKeepsAgreement(t2, u, u.players, DeathMsg(death.value), conn, {}, {});
    } else {
      AfterNothing(t2, conn);
    }
    AgreeIs(After(t2, m3, conn), u);
  }

  lemma AfterNothing(t: Tables, conn: nat)
    ensures After(t, [], conn) == t
  {
  }

  lemma HitIsOk(actors: seq<Actor>, after: seq<Actor>, i: nat)
    requires ActorsOk(actors) && i < |actors| && actors[i].inUse && after == actors[i := Wound(actors[i])]
    ensures ActorsOk(after) && DistinctActors(actors)
    ensures FindActor(after, actors[i].id) == i && after[i].state.actorId == actors[i].id
  {
    Lifecycle.ActorSlot(actors, i);
    HitKeepsActors(actors, actors[i].id);
    Lifecycle.ActorSlot(after, i);
  }

  // ---- workshop ------------------------------------------------------------------------------------

  ghost predicate DistinctObjects(objects: seq<Object>) {
    forall i, j :: 0 <= i < j < |objects| && objects[i].inUse && objects[j].inUse ==> objects[i].id != objects[j].id
  }

  lemma OtherObjectsMatch(p: ProxyObject, objects: seq<Object>, i: nat, o: Object, id: nat)
    requires i < |objects| && (objects[i].inUse ==> objects[i].id == id) && (o.inUse ==> o.id == id)
    requires MatchesObject(p, objects) && p.id != id
    ensures MatchesObject(p, objects[i := o])
  {
    var f := FindObject(objects, p.id);
    var after := objects[i := o];
    assert after[f] == objects[f];
    assert forall j :: 0 <= j < f ==> !(after[j].inUse && after[j].id == p.id);
  }

  lemma ChangedObjectKeepsForm(p: ProxyObject, objects: seq<Object>, i: nat, o: Object)
    requires i < |objects| && objects[i].inUse && objects[i].id == p.id && DistinctObjects(objects)
    requires o.inUse ==> o.id == p.id && o.formId == objects[i].formId
    requires MatchesObject(p, objects)
    ensures MatchesForm(p, objects[i := o])
  {
    assert FindObject(objects, p.id) == i;
    var after := objects[i := o];
    assert forall j :: 0 <= j < |after| && j != i ==> !(after[j].inUse && after[j].id == p.id);
  }

  /** Replacing the object in one slot only puts its id in doubt; filling a free slot with a new id, nothing held. */
  lemma ObjectChangeDoubts(t: Tables, s: Session, u: Session, i: nat, o: Object, id: nat)
    requires Agree(t, s) && i < |s.objects| && u.objects == s.objects[i := o] && u.actors == s.actors
    requires DistinctObjects(s.objects) && (s.objects[i].inUse ==> s.objects[i].id == id) && (o.inUse ==> o.id == id)
    requires if s.objects[i].inUse then o.inUse ==> o.formId == s.objects[i].formId
             else FindObject(s.objects, id) == |s.objects|
    ensures AgreeBut(t, u, {}, {id})
  {
    forall k | 0 <= k < |t.objects| && t.objects[k].inUse
      ensures t.objects[k].id != id ==> MatchesObject(t.objects[k], u.objects)
      ensures MatchesForm(t.objects[k], u.objects)
    {
      assert MatchesObject(t.objects[k], s.objects);
      if t.objects[k].id != id {
        OtherObjectsMatch(t.objects[k], s.objects, i, o, id);
        MatchHasForm(t.objects[k], u.objects);
      } else {
        ChangedObjectKeepsForm(t.objects[k], s.objects, i, o);
      }
    }
  }

  /** A broadcast that settles one object settles the mirror. */
  lemma SettlingBroadcast(t: Tables, u: Session, players: seq<Player>, msg: Message, conn: nat, id: nat)
    requires AgreeBut(t, u, {}, {id}) && Honest(msg, u, {}) && HasConn(players, conn)
    requires || (msg.ObjectSpawn? && msg.objectId == id)
             || (msg.ObjectUpdate? && msg.updatedId == id)
             || (msg.ObjectDespawn? && msg.goneObject == id)
    ensures Agree(After(t, Broadcast(players, msg), conn), u)
  {
    hide AgreeBut, Agree, Honest;
    BroadcastKeepsAgreement(t, u, players, msg, conn, {}, {id});
    assert ObjectDoubt(msg, {id}) == {};
    AgreeIs(After(t, Broadcast(players, msg), conn), u);
  }

  lemma BuildKeepsMirror(env: Env, t: Tables, s: Session, conn: nat, id: nat, req: Request, client: nat)
    requires req.Build? && WorkshopOk(env, s) && Agree(t, s)
    requires HasConn(HandleBuild(env, s, conn, id, req).session.players, client)
    ensures var o := HandleBuild(env, s, conn, id, req); Agree(After(t, o.sends, client), o.session)
  {
    hide Agree, AgreeBut, After, BuildValid, Placed, CountsOk, Broadcast;
    var o := HandleBuild(env, s, conn, id, req);
    if req.builder != id {
      AfterNothing(t, client);
    } else {
      var h := Heard(s, id);
      var (answer, built) := BuildStep(env, h, req);
      var head := [Send(conn, answer)];
      QuietChangesNothing(t, head, client);
      if answer.accepted {
        var i := FreeObject(s.objects);
        var nid := s.nextObjectId;
        assert built.objects == s.objects[i := NewObject(req, nid)] && built.actors == s.actors;
        assert FindObject(s.objects, nid) == |s.objects|;
        assert FindObject(built.objects, nid) == i by {
          assert built.objects[i].inUse && built.objects[i].id == nid;
          assert forall j :: 0 <= j < i ==> built.objects[j] == s.objects[j];
        }
        var msg := SpawnObjectMsg(built.objects[i]);
        ObjectChangeDoubts(t, s, built, i, NewObject(req, nid), nid);
        SettlingBroadcast(t, built, built.players, msg, client, nid);
        AfterAppend(t, head, Broadcast(built.players, msg), client);
      } else {
        SameWorldAgrees(t, s, o.session);
        assert o.sends == head;
      }
    }
  }

  lemma MoveKeepsMirror(env: Env, t: Tables, s: Session, id: nat, req: Request, client: nat)
    requires req.Move? && WorkshopOk(env, s) && Agree(t, s) && HasConn(s.players, client)
    ensures var o := HandleMove(s, id, req); Agree(After(t, o.sends, client), o.session)
  {
    hide Agree, AgreeBut, After, Placed, CountsOk, Broadcast;
    var o := HandleMove(s, id, req);
    if req.mover != id || !MoveValid(s, req) {
      AfterNothing(t, client);
    } else {
      var i := FindObject(s.objects, req.objectId);
      var moved := MovedObject(s.objects[i], req);
      assert FindObject(o.session.objects, req.objectId) == i by {
        assert o.session.objects[i] == moved;
        assert forall j :: 0 <= j < i ==> o.session.objects[j] == s.objects[j];
      }
      ObjectChangeDoubts(t, s, o.session, i, moved, req.objectId);
      SettlingBroadcast(t, o.session, s.players, UpdateObjectMsg(moved), client, req.objectId);
    }
  }

  lemma ScrapKeepsMirror(env: Env, t: Tables, s: Session, id: nat, req: Request, client: nat)
    requires req.Scrap? && WorkshopOk(env, s) && Agree(t, s) && HasConn(s.players, client)
    ensures var o := HandleScrap(s, id, req); Agree(After(t, o.sends, client), o.session)
  {
    hide Agree, AgreeBut, After, Placed, CountsOk, Broadcast;
    var o := HandleScrap(s, id, req);
    if req.scrapper != id || !ScrapValid(s, req) {
      AfterNothing(t, client);
    } else {
      var i := FindObject(s.objects, req.scrapId);
      ObjectChangeDoubts(t, s, o.session, i, NO_OBJECT, req.scrapId);
      SettlingBroadcast(t, o.session, s.players, ObjectDespawn(req.scrapId), client, req.scrapId);
    }
  }
}
