/** The life of a hostile actor: wounded by quarters, dead at zero, despawned within the same turn. */
module Lifecycle {
  import opened Slots
  import opened Protocol
  import opened Combat
  import opened Session

  /** Which requests can touch which tables; everything else in the session is fixed after boot. */
  ghost predicate SameSetup(s: Session, t: Session) {
    t == s.(players := t.players, registry := t.registry, actors := t.actors, objects := t.objects,
            settlements := t.settlements, nextObjectId := t.nextObjectId, dialogue := t.dialogue, tick := t.tick)
  }

  ghost predicate SameWorkshop(s: Session, t: Session) {
    t.objects == s.objects && t.settlements == s.settlements && t.nextObjectId == s.nextObjectId
  }

  lemma HandleFrame(env: Env, s: Session, e: Envelope)
    ensures var o := Handle(env, s, e);
            && (!e.request.Fire? ==> o.session.actors == s.actors && o.damage.None? && o.death.None?)
            && (!e.request.Build? && !e.request.Move? && !e.request.Scrap? ==> SameWorkshop(s, o.session))
            && SameSetup(s, o.session) && o.session.tick == s.tick
  {
    hide HandleHello, HandleFire, HandleBuild, First, Broadcast, FindObject, Adjusted;
    var i := FindConnection(s.players, e.conn);
    if e.request.Hello? {
      HelloFrame(s, e.conn, e.request.guid, e.request.profile);
    } else if i < |s.players| {
      if e.request.Fire? {
        FireFrame(env, s, s.players[i].id, e.request);
      } else if e.request.Build? {
        BuildFrame(env, s, e.conn, s.players[i].id, e.request);
      }
    }
  }

  lemma HelloFrame(s: Session, conn: nat, guid: string, profile: Profile)
    ensures var o := HandleHello(s, conn, guid, profile);
            && o.session.actors == s.actors && o.damage.None? && o.death.None?
            && SameWorkshop(s, o.session) && SameSetup(s, o.session) && o.session.tick == s.tick
  {
  }

  lemma FireFrame(env: Env, s: Session, id: nat, req: Request)
    requires req.Fire?
    ensures var t := HandleFire(env, s, id, req).session;
            SameWorkshop(s, t) && SameSetup(s, t) && t.tick == s.tick
  {
  }

  lemma BuildFrame(env: Env, s: Session, conn: nat, id: nat, req: Request)
    requires req.Build?
    ensures var o := HandleBuild(env, s, conn, id, req);
            && o.session.actors == s.actors && o.damage.None? && o.death.None?
            && SameSetup(s, o.session) && o.session.tick == s.tick
  {
  }

  // ---- one shot --------------------------------------------------------------------------------

  ghost predicate ActorOk(a: Actor) {
    a.inUse ==>
      && a.id != 0 && a.state.actorId == a.id
      && Hostile in a.state.flags
      && a.state.health <= FULL_HEALTH
      && (Dead in a.state.flags <==> a.state.health == 0)
      && !a.pendingDespawn
  }

  ghost predicate DistinctActors(actors: seq<Actor>) {
    forall i, j :: 0 <= i < j < |actors| && actors[i].inUse && actors[j].inUse ==> actors[i].id != actors[j].id
  }

  ghost predicate ActorsOk(actors: seq<Actor>) {
    && |actors| == MAX_ACTORS
    && (forall i :: 0 <= i < |actors| ==> ActorOk(actors[i]))
    && DistinctActors(actors)
  }

  ghost predicate AllAlive(actors: seq<Actor>) {
    forall i :: 0 <= i < |actors| ==> !IsDead(actors[i])
  }

  lemma ActorSlot(actors: seq<Actor>, i: nat)
    requires DistinctActors(actors) && i < |actors| && actors[i].inUse
    ensures FindActor(actors, actors[i].id) == i
  {
  }

  /** The actors after the actor with id `v` took one hit. */
  ghost function Hit(actors: seq<Actor>, v: nat): seq<Actor> {
    var t := FindActor(actors, v);
    if t == |actors| then actors else actors[t := Wound(actors[t])]
  }

  /** A fire intent that comes from its own player and is valid. */
  ghost predicate Fires(env: Env, s: Session, id: nat, req: Request)
    requires req.Fire?
  {
    req.player == id && FireValid(env, Heard(s, id), req)
  }

  /** What a fire intent reports is what it did: nothing, or one quarter off one live hostile. A valid intent hits the
      first best-scoring one in the cone, and misses only if there is none. */
  lemma FireHits(env: Env, s: Session, id: nat, req: Request)
    requires req.Fire? && ActorsOk(s.actors)
    ensures var o := HandleFire(env, s, id, req);
            && (o.damage.None? ==> o.session.actors == s.actors && o.death.None?)
            && (o.damage.Some? ==>
                  var v := o.damage.value.victim;
                  var t := FindActor(s.actors, v);
                  && o.accepted
                  && t < |s.actors| && Shootable(s.actors[t]) && v != 0
                  && o.session.actors == Hit(s.actors, v)
                  && o.damage.value.amount == 1
                  && o.damage.value.healthAfter == s.actors[t].state.health - 1
                  && o.damage.value.killed == o.death.Some? == (s.actors[t].state.health == 1)
                  && (o.death.Some? ==> o.death.value.victim == v))
            && var dir := Normalize(env.root, req.direction);
               && (o.damage.Some? ==>
                     && Fires(env, s, id, req)
                     && FirstBest(Scores(env.root, req.origin, dir, s.actors),
                            FindActor(s.actors, o.damage.value.victim)))
               && (o.damage.None? && Fires(env, s, id, req) ==>
                     forall j :: 0 <= j < |s.actors| ==> ScoreOf(env.root, req.origin, dir, s.actors[j]).None?)
  {
    hide First, Scan, ConeScore, LengthSq, Broadcast;
    var h := Heard(s, id);
    var dir := Normalize(env.root, req.direction);
    var t := Target(env.root, req.origin, dir, h.actors);
    TargetIsFirstBest(env.root, req.origin, dir, h.actors);
    if t.Some? {
      ActorSlot(s.actors, t.value);
    }
  }

  lemma HitKeepsActors(actors: seq<Actor>, v: nat)
    requires ActorsOk(actors)
    ensures ActorsOk(Hit(actors, v))
  {
  }

  // ---- the tick --------------------------------------------------------------------------------

  lemma {:induction false} MarkDeadNone(actors: seq<Actor>, i: nat)
    requires i <= |actors| && forall j :: i <= j < |actors| ==> !IsDead(actors[j])
    ensures MarkDead(actors, i) == actors
    decreases |actors| - i
  {
    if i < |actors| { MarkDeadNone(actors, i + 1); }
  }

  lemma {:induction false} MarkDeadOne(actors: seq<Actor>, i: nat, t: nat)
    requires i <= t < |actors| && IsDead(actors[t]) && !actors[t].pendingDespawn
    requires forall j :: i <= j < |actors| && j != t ==> !IsDead(actors[j])
    ensures MarkDead(actors, i) == actors[t := actors[t].(pendingDespawn := true)]
    decreases |actors| - i
  {
    if i == t {
      MarkDeadNone(actors[t := actors[t].(pendingDespawn := true)], t + 1);
    } else {
      MarkDeadOne(actors, i + 1, t);
    }
  }

  lemma {:induction false} DeadIdsNone(actors: seq<Actor>)
    requires AllAlive(actors)
    ensures DeadIds(actors) == []
  {
    if actors != [] { DeadIdsNone(actors[..|actors| - 1]); }
  }

  lemma {:induction false} DeadIdsOne(actors: seq<Actor>, t: nat)
    requires t < |actors| && IsDead(actors[t]) && actors[t].pendingDespawn
    requires forall j :: 0 <= j < |actors| && j != t ==> !IsDead(actors[j])
    ensures DeadIds(actors) == [actors[t].id]
  {
    if t == |actors| - 1 {
      DeadIdsNone(actors[..t]);
    } else {
      DeadIdsOne(actors[..|actors| - 1], t);
    }
  }

  /** A tick over live actors does nothing to them. */
  lemma TickAlive(players: seq<Player>, actors: seq<Actor>)
    requires AllAlive(actors)
    ensures TickActors(players, actors) == (actors, [])
  {
    MarkDeadNone(actors, 0);
    DeadIdsNone(actors);
  }

  /** A tick that finds one freshly dead actor marks, announces and removes it. */
  lemma TickBuries(players: seq<Player>, actors: seq<Actor>, t: nat)
    requires DistinctActors(actors) && t < |actors| && IsDead(actors[t]) && !actors[t].pendingDespawn
    requires forall j :: 0 <= j < |actors| && j != t ==> !IsDead(actors[j])
    ensures TickActors(players, actors) == (actors[t := NO_ACTOR], Broadcast(players, ActorDespawn(actors[t].id)))
  {
    hide MarkDead, DeadIds, DespawnAll, Broadcast, First;
    var marked := actors[t := actors[t].(pendingDespawn := true)];
    MarkDeadOne(actors, 0, t);
    DeadIdsOne(marked, t);
    DespawnOne(players, marked, t);
    assert marked[t := NO_ACTOR] == actors[t := NO_ACTOR];
  }

  lemma DespawnOne(players: seq<Player>, actors: seq<Actor>, t: nat)
    requires DistinctActors(actors) && t < |actors| && actors[t].inUse
    ensures DespawnAll(players, actors, [actors[t].id])
         == (actors[t := NO_ACTOR], Broadcast(players, ActorDespawn(actors[t].id)))
  {
    hide Broadcast, First;
    var id := actors[t].id;
    ActorSlot(actors, t);
    assert [id][..0] == [];
    assert DespawnAll(players, actors, []) == (actors, []);
    assert [] + Broadcast(players, ActorDespawn(id)) == Broadcast(players, ActorDespawn(id));
  }

  // ---- one turn --------------------------------------------------------------------------------

  /** The actor table after a turn whose handler reported `damage`. */
  ghost function AfterTurn(actors: seq<Actor>, damage: Option<DamageResult>): seq<Actor> {
    if damage.None? then actors
    else
      var t := FindActor(actors, damage.value.victim);
      if t == |actors| then actors
      else if damage.value.killed then actors[t := NO_ACTOR]
      else actors[t := Wound(actors[t])]
  }

  lemma AfterTurnKeepsActors(actors: seq<Actor>, damage: DamageResult)
    requires ActorsOk(actors) && AllAlive(actors)
    requires var t := FindActor(actors, damage.victim);
             t < |actors| && (damage.killed <==> actors[t].state.health == 1)
    ensures ActorsOk(AfterTurn(actors, Some(damage))) && AllAlive(AfterTurn(actors, Some(damage)))
  {
  }

  /** The handler's part: what it reports determines the actors it leaves. */
  lemma HandleHits(env: Env, s: Session, e: Envelope)
    requires ActorsOk(s.actors) && AllAlive(s.actors)
    ensures var o := Handle(env, s, e);
            && (o.damage.None? ==> o.session.actors == s.actors && o.death.None?)
            && (o.damage.Some? ==>
                  var v := o.damage.value.victim;
                  var t := FindActor(s.actors, v);
                  && o.accepted && t < |s.actors| && o.session.actors == Hit(s.actors, v)
                  && o.damage.value.amount == 1
                  && o.damage.value.healthAfter == s.actors[t].state.health - 1
                  && o.damage.value.killed == o.death.Some? == (s.actors[t].state.health == 1)
                  && (o.death.Some? ==> o.death.value.victim == v))
  {
    hide HandleHello, HandleFire, HandleBuild;
    if e.request.Fire? {
      var i := FindConnection(s.players, e.conn);
      if i < |s.players| {
        FireHits(env, s, s.players[i].id, e.request);
      }
    } else {
      HandleFrame(env, s, e);
    }
  }

  /** A turn buries whom it kills: no dead actor is in use when the next turn starts. */
  lemma TurnHits(env: Env, s: Session, e: Envelope)
    requires ActorsOk(s.actors) && AllAlive(s.actors)
    ensures var t := Turn(env, s, e);
            && t.actors == AfterTurn(s.actors, Handle(env, s, e).damage)
            && ActorsOk(t.actors) && AllAlive(t.actors)
  {
    HandleHits(env, s, e);
    var o := Handle(env, s, e);
    if o.damage.Some? {
      var v := o.damage.value.victim;
      var t := FindActor(s.actors, v);
      AfterTurnKeepsActors(s.actors, o.damage.value);
      HitKeepsActors(s.actors, v);
      if o.damage.value.killed {
        TickBuries(TickPlayers(o.session).0, o.session.actors, t);
      } else {
        TickAlive(TickPlayers(o.session).0, o.session.actors);
      }
    } else {
      TickAlive(TickPlayers(o.session).0, o.session.actors);
    }
  }

  // ---- whole runs ------------------------------------------------------------------------------

  /** Quarters of health reported as damage against an actor over a run. */
  function DamageDealt(env: Env, s: Session, es: seq<Envelope>, id: nat): nat {
    if es == [] then 0
    else
      var before := es[..|es| - 1];
      var d := Handle(env, Run(env, s, before), es[|es| - 1]).damage;
      DamageDealt(env, s, before, id) + (if d.Some? && d.value.victim == id then d.value.amount else 0)
  }

  /** Death events reported for an actor over a run. */
  function Deaths(env: Env, s: Session, es: seq<Envelope>, id: nat): nat {
    if es == [] then 0
    else
      var before := es[..|es| - 1];
      var d := Handle(env, Run(env, s, before), es[|es| - 1]).death;
      Deaths(env, s, before, id) + (if d.Some? && d.value.victim == id then 1 else 0)
  }

  /** An actor that is in use, or gone for good. */
  ghost predicate Accounts(actors: seq<Actor>, id: nat, dealt: nat, deaths: nat) {
    var t := FindActor(actors, id);
    if t < |actors| then dealt == FULL_HEALTH - actors[t].state.health && deaths == 0
    else dealt == FULL_HEALTH && deaths == 1
  }

  lemma AfterTurnAccounts(actors: seq<Actor>, id: nat, dealt: nat, deaths: nat, damage: DamageResult)
    requires ActorsOk(actors) && AllAlive(actors) && Accounts(actors, id, dealt, deaths)
    requires var t := FindActor(actors, damage.victim);
             t < |actors| && damage.amount == 1 && (damage.killed <==> actors[t].state.health == 1)
    ensures var mine := damage.victim == id;
            Accounts(AfterTurn(actors, Some(damage)), id, dealt + (if mine then 1 else 0),
                     deaths + (if mine && damage.killed then 1 else 0))
  {
    var t := FindActor(actors, damage.victim);
    var after := AfterTurn(actors, Some(damage));
    var u := FindActor(actors, id);
    if u < |actors| && !(damage.victim == id && damage.killed) {
      assert after[u].inUse && after[u].id == id;
      assert DistinctActors(after);
      ActorSlot(after, u);
    } else {
      assert forall i :: 0 <= i < |after| ==> !(after[i].inUse && after[i].id == id);
    }
  }

  /** Over every run a hostile spawned at full health stays alive while in use with exactly the damage reported
      against it missing, or was reported dead exactly once after exactly full damage and is gone for good. */
  lemma {:induction false} CombatLifecycle(env: Env, s: Session, es: seq<Envelope>, id: nat)
    requires ActorsOk(s.actors) && AllAlive(s.actors)
    requires FindActor(s.actors, id) < |s.actors| && s.actors[FindActor(s.actors, id)].state.health == FULL_HEALTH
    ensures var t := Run(env, s, es);
            ActorsOk(t.actors) && AllAlive(t.actors)
            && Accounts(t.actors, id, DamageDealt(env, s, es, id), Deaths(env, s, es, id))
  {
    if es != [] {
      var before := es[..|es| - 1];
      var r := Run(env, s, before);
      var e := es[|es| - 1];
      CombatLifecycle(env, s, before, id);
      TurnHits(env, r, e);
      HandleHits(env, r, e);
      var d := Handle(env, r, e).damage;
      if d.Some? {
        AfterTurnAccounts(r.actors, id, DamageDealt(env, s, before, id), Deaths(env, s, before, id), d.value);
      }
    }
  }
}
