/** The client's tables mirror the session: a simulation between the service loop and the plugin. */
module Mirror {
  import opened Protocol
  import opened Combat
  import opened Session
  import opened Proxy

  // ---- the relation --------------------------------------------------------------------------------

  ghost predicate MatchesActor(a: ProxyActor, actors: seq<Actor>) {
    var i := FindActor(actors, a.id);
    && i < |actors|
    && var s := actors[i].state;
       && a.position == s.position && a.rotation == s.rotation && a.health == s.health
       && a.animState == s.animState && a.flags == s.flags && a.targetId == s.targetId
  }

  ghost predicate MatchesForm(o: ProxyObject, objects: seq<Object>) {
    var i := FindObject(objects, o.id);
    i < |objects| ==> o.formId == objects[i].formId
  }

  ghost predicate MatchesObject(o: ProxyObject, objects: seq<Object>) {
    var i := FindObject(objects, o.id);
    && i < |objects|
    && o.formId == objects[i].formId && o.position == objects[i].position
    && o.rotation == objects[i].rotation && o.flags == objects[i].flags
  }

  /** Every held actor matches the session, except those in doubt. */
  ghost predicate ActorsAgree(held: seq<ProxyActor>, actors: seq<Actor>, doubt: set<nat>) {
    && (forall i :: 0 <= i < |held| && held[i].inUse && held[i].id !in doubt ==> MatchesActor(held[i], actors))
    && (forall i, j :: 0 <= i < j < |held| && held[i].inUse && held[j].inUse ==> held[i].id != held[j].id)
  }

  /** Every held object matches the session; those in doubt at least have the right form if they still exist. */
  ghost predicate ObjectsAgree(held: seq<ProxyObject>, objects: seq<Object>, doubt: set<nat>) {
    && (forall i :: 0 <= i < |held| && held[i].inUse && held[i].id !in doubt ==> MatchesObject(held[i], objects))
    && (forall i :: 0 <= i < |held| && held[i].inUse ==> MatchesForm(held[i], objects))
    && (forall i, j :: 0 <= i < j < |held| && held[i].inUse && held[j].inUse ==> held[i].id != held[j].id)
  }

  ghost predicate AgreeBut(t: Tables, s: Session, actors: set<nat>, objects: set<nat>) {
    ActorsAgree(t.actors, s.actors, actors) && ObjectsAgree(t.objects, s.objects, objects)
  }

  /** The mirror relation: whatever the client holds, the session has, with the same state. */
  ghost predicate Agree(t: Tables, s: Session) { AgreeBut(t, s, {}, {}) }

  // ---- one packet ----------------------------------------------------------------------------------

  /** The packet tells the truth about the session, or speaks of an actor already in doubt. */
  ghost predicate Honest(msg: Message, s: Session, doubt: set<nat>) {
    match msg
    case ActorStateMsg(a) =>
      var i := FindActor(s.actors, a.actorId); i < |s.actors| && s.actors[i].state == a
    case DamageMsg(d) =>
      || d.victim in doubt
      || var i := FindActor(s.actors, d.victim); i < |s.actors| && s.actors[i].state.health == d.healthAfter
    case DeathMsg(d) =>
      d.victim in doubt || var i := FindActor(s.actors, d.victim); i < |s.actors| && s.actors[i].state.health == 0
    case ObjectSpawn(id, _, _, _, _) =>
      var i := FindObject(s.objects, id); i < |s.objects| && msg == SpawnObjectMsg(s.objects[i])
    case ObjectUpdate(id, _, _, _, _) =>
      var i := FindObject(s.objects, id); i < |s.objects| && msg == UpdateObjectMsg(s.objects[i])
    case _ => true
  }

  /** Which actors are in doubt after the packet: a bare spawn raises doubt, a state or a despawn settles it. */
  function ActorDoubt(msg: Message, doubt: set<nat>): set<nat> {
    match msg
    case ActorSpawn(id, _, _, _, _, _) => doubt + {id}
    case ActorStateMsg(a) => doubt - {a.actorId}
    case ActorDespawn(id) => doubt - {id}
    case _ => doubt
  }

  function ObjectDoubt(msg: Message, doubt: set<nat>): set<nat> {
    match msg
    case ObjectSpawn(id, _, _, _, _) => doubt - {id}
    case ObjectUpdate(id, _, _, _, _) => doubt - {id}
    case ObjectDespawn(id) => doubt - {id}
    case _ => doubt
  }

  lemma SpawnDoubts(held: seq<ProxyActor>, actors: seq<Actor>, doubt: set<nat>, id: nat, base: nat, p: Vec3, r: Rot3,
      kind: nat, flags: nat)
    requires ActorsAgree(held, actors, doubt)
    ensures ActorsAgree(SpawnedActor(held, id, base, p, r, kind, flags), actors, doubt + {id})
  {
    hide MatchesActor;
  }

  lemma UpdateSettles(held: seq<ProxyActor>, actors: seq<Actor>, doubt: set<nat>, a: ActorState)
    requires ActorsAgree(held, actors, doubt)
    requires var i := FindActor(actors, a.actorId); i < |actors| && actors[i].state == a
    ensures ActorsAgree(UpdatedActor(held, a), actors, doubt - {a.actorId})
  {
    var i := SlotForActor(held, a.actorId);
    var after := UpdatedActor(held, a);
    if i < |held| && held[i].inUse {
      assert MatchesActor(after[i], actors);
    }
    forall k | 0 <= k < |after| && after[k].inUse && after[k].id !in doubt - {a.actorId}
      ensures MatchesActor(after[k], actors)
    {
      if after[k].id == a.actorId {
        assert k == i;
      } else {
        assert after[k] == held[k];
      }
    }
  }

  lemma StateSettles(held: seq<ProxyActor>, actors: seq<Actor>, doubt: set<nat>, a: ActorState)
    requires ActorsAgree(held, actors, doubt)
    requires var i := FindActor(actors, a.actorId); i < |actors| && actors[i].state == a
    ensures ActorsAgree(AppliedActorState(held, a), actors, doubt - {a.actorId})
  {
    if HeldActor(held, a.actorId) < |held| {
      UpdateSettles(held, actors, doubt, a);
    } else if SlotForActor(held, a.actorId) < |held| {
      SpawnDoubts(held, actors, doubt, a.actorId, 0, a.position, a.rotation, 0, 0);
      UpdateSettles(SpawnedActor(held, a.actorId, 0, a.position, a.rotation, 0, 0), actors, doubt + {a.actorId}, a);
      assert (doubt + {a.actorId}) - {a.actorId} == doubt - {a.actorId};
    }
  }

  lemma DespawnSettles(held: seq<ProxyActor>, actors: seq<Actor>, doubt: set<nat>, id: nat)
    requires ActorsAgree(held, actors, doubt)
    ensures ActorsAgree(DespawnedActor(held, id), actors, doubt - {id})
  {
    hide MatchesActor;
    var after := DespawnedActor(held, id);
    forall k | 0 <= k < |after| && after[k].inUse && after[k].id !in doubt - {id}
      ensures MatchesActor(after[k], actors)
    {
      assert after[k] == held[k] && after[k].id != id;
    }
  }

  /** A packet that only rewrites the health of one actor leaves the doubts as they are. */
  lemma HealthKeeps(held: seq<ProxyActor>, actors: seq<Actor>, doubt: set<nat>, i: nat, a: ProxyActor)
    requires ActorsAgree(held, actors, doubt) && i < |held| && held[i].inUse
    requires a == held[i].(health := a.health, isDead := a.isDead, damageFrom := a.damageFrom,
                             damageAmount := a.damageAmount)
    requires a.id in doubt || var j := FindActor(actors, a.id); j < |actors| && actors[j].state.health == a.health
    ensures ActorsAgree(held[i := a], actors, doubt)
  {
    assert a.id !in doubt ==> MatchesActor(held[i], actors);
  }

  /** Writing a truthful record into the slot for its id settles that id. */
  lemma PutSettles(held: seq<ProxyObject>, objects: seq<Object>, doubt: set<nat>, i: nat, o: ProxyObject)
    requires ObjectsAgree(held, objects, doubt)
    requires i < |held| && i == SlotForObject(held, o.id) && MatchesObject(o, objects)
    ensures ObjectsAgree(held[i := o], objects, doubt - {o.id})
  {
    hide MatchesForm, MatchesObject;
    assert MatchesForm(o, objects) by { MatchHasForm(o, objects); }
    var after := held[i := o];
    forall k | 0 <= k < |after| && after[k].inUse && after[k].id !in doubt - {o.id}
      ensures MatchesObject(after[k], objects)
    {
      assert k != i ==> after[k] == held[k] && after[k].id != o.id;
    }
  }

  lemma MatchHasForm(o: ProxyObject, objects: seq<Object>)
    requires MatchesObject(o, objects)
    ensures MatchesForm(o, objects)
  {
  }

  lemma RemovalSettles(held: seq<ProxyObject>, objects: seq<Object>, doubt: set<nat>, id: nat)
    requires ObjectsAgree(held, objects, doubt)
    ensures ObjectsAgree(DespawnedObject(held, id), objects, doubt - {id})
  {
    hide MatchesForm, MatchesObject;
    var after := DespawnedObject(held, id);
    forall k | 0 <= k < |after| && after[k].inUse && after[k].id !in doubt - {id}
      ensures MatchesObject(after[k], objects)
    {
      assert after[k] == held[k] && after[k].id != id;
    }
  }

  /** An id the client does not hold is not in doubt. */
  lemma UnheldSettles(held: seq<ProxyObject>, objects: seq<Object>, doubt: set<nat>, id: nat)
    requires ObjectsAgree(held, objects, doubt) && HeldObject(held, id) == |held|
    ensures ObjectsAgree(held, objects, doubt - {id})
  {
    hide MatchesForm, MatchesObject;
  }

  lemma SpawnObjectSettles(held: seq<ProxyObject>, s: Session, doubt: set<nat>, msg: Message)
    requires ObjectsAgree(held, s.objects, doubt) && msg.ObjectSpawn? && Honest(msg, s, {})
    ensures ObjectsAgree(SpawnedObject(held, msg), s.objects, doubt - {msg.objectId})
  {
    hide ObjectsAgree;
    var i := SlotForObject(held, msg.objectId);
    if i < |held| {
      PutSettles(held, s.objects, doubt, i, SpawnedObject(held, msg)[i]);
    } else {
      UnheldSettles(held, s.objects, doubt, msg.objectId);
    }
  }

  lemma UpdateObjectSettles(held: seq<ProxyObject>, s: Session, doubt: set<nat>, msg: Message)
    requires ObjectsAgree(held, s.objects, doubt) && msg.ObjectUpdate? && Honest(msg, s, {})
    ensures ObjectsAgree(UpdatedObject(held, msg), s.objects, doubt - {msg.updatedId})
  {
    var i := SlotForObject(held, msg.updatedId);
    if i < |held| && held[i].inUse {
      assert MatchesForm(held[i], s.objects);
      PutSettles(held, s.objects, doubt, i, UpdatedObject(held, msg)[i]);
    } else {
      UnheldSettles(held, s.objects, doubt, msg.updatedId);
    }
  }

  /** Applying an honest packet keeps the relation, with the doubts it leaves. */
  lemma ApplyKeepsAgreement(t: Tables, s: Session, msg: Message, da: set<nat>, dbt: set<nat>)
    requires AgreeBut(t, s, da, dbt) && Honest(msg, s, da)
    ensures AgreeBut(Apply(t, msg), s, ActorDoubt(msg, da), ObjectDoubt(msg, dbt))
  {
    hide ActorsAgree, ObjectsAgree;
    match msg {
      case ActorSpawn(id, base, p, r, kind, flags) => SpawnDoubts(t.actors, s.actors, da, id, base, p, r, kind, flags);
      case ActorStateMsg(a) => StateSettles(t.actors, s.actors, da, a);
      case ActorDespawn(id) => DespawnSettles(t.actors, s.actors, da, id);
      case DamageMsg(d) =>
        var i := SlotForActor(t.actors, d.victim);
        if i < |t.actors| && t.actors[i].inUse {
          HealthKeeps(t.actors, s.actors, da, i, Apply(t, msg).actors[i]);
        }
      case DeathMsg(d) =>
        var i := SlotForActor(t.actors, d.victim);
        if i < |t.actors| && t.actors[i].inUse {
          HealthKeeps(t.actors, s.actors, da, i, Apply(t, msg).actors[i]);
        }
      case ObjectSpawn(_, _, _, _, _) => SpawnObjectSettles(t.objects, s, dbt, msg);
      case ObjectUpdate(_, _, _, _, _) => UpdateObjectSettles(t.objects, s, dbt, msg);
      case ObjectDespawn(id) => RemovalSettles(t.objects, s.objects, dbt, id);
      case _ =>
    }
  }
}
