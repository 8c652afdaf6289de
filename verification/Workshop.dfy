/** Workshop conservation: object counts, budgets, bounds and ids over every run. */
module Workshop {
  import opened Slots
  import opened Protocol
  import opened Session
  import opened Lifecycle

  /** How many in-use objects belong to a settlement. */
  function ObjectsIn(objects: seq<Object>, settlementId: nat): nat {
    Count(objects, (o: Object) => o.inUse && o.settlementId == settlementId)
  }

  /** The object is whitelisted and lies inside the settlement it belongs to. */
  ghost predicate Placed(whitelist: set<nat>, settlements: seq<Settlement>, o: Object) {
    && o.formId in whitelist
    && var t := FindSettlement(settlements, o.settlementId);
       t < |settlements| && Inside(settlements[t], o.position)
  }

  ghost predicate ObjectsOk(whitelist: set<nat>, objects: seq<Object>, settlements: seq<Settlement>, nextId: nat) {
    && |objects| == MAX_OBJECTS
    && (forall i :: 0 <= i < |objects| && objects[i].inUse ==> 0 < objects[i].id < nextId)
    && (forall i :: 0 <= i < |objects| && objects[i].inUse ==> Placed(whitelist, settlements, objects[i]))
    && (forall i, j :: 0 <= i < j < |objects| && objects[i].inUse && objects[j].inUse ==>
          objects[i].id != objects[j].id)
  }

  ghost predicate DistinctSettlements(settlements: seq<Settlement>) {
    forall i, j :: 0 <= i < j < |settlements| && settlements[i].inUse && settlements[j].inUse ==>
                     settlements[i].id != settlements[j].id
  }

  /** Every settlement counts exactly its objects and stays within its budget. */
  ghost predicate CountsOk(objects: seq<Object>, settlements: seq<Settlement>) {
    && |settlements| == MAX_SETTLEMENTS
    && DistinctSettlements(settlements)
    && (forall t :: 0 <= t < |settlements| && settlements[t].inUse ==>
          settlements[t].count == ObjectsIn(objects, settlements[t].id) <= settlements[t].budget)
  }

  ghost predicate WorkshopOk(env: Env, s: Session) {
    && ObjectsOk(env.whitelist, s.objects, s.settlements, s.nextObjectId)
    && CountsOk(s.objects, s.settlements)
    && s.nextObjectId >= FIRST_OBJECT_ID
  }

  lemma ObjectSlot(objects: seq<Object>, i: nat)
    requires i < |objects| && objects[i].inUse
    requires forall i, j :: 0 <= i < j < |objects| && objects[i].inUse && objects[j].inUse ==>
               objects[i].id != objects[j].id
    ensures FindObject(objects, objects[i].id) == i
  {
  }

  lemma SettlementSlot(settlements: seq<Settlement>, t: nat)
    requires DistinctSettlements(settlements) && t < |settlements| && settlements[t].inUse
    ensures FindSettlement(settlements, settlements[t].id) == t
  {
  }

  /** Adjusting a count moves no settlement. */
  lemma AdjustedKeepsPlaces(settlements: seq<Settlement>, id: nat, delta: int, whitelist: set<nat>, o: Object)
    ensures Placed(whitelist, Adjusted(settlements, id, delta), o) <==> Placed(whitelist, settlements, o)
  {
    var after := Adjusted(settlements, id, delta);
    assert forall i :: 0 <= i < |settlements| ==> after[i] == settlements[i].(count := after[i].count);
    assert FindSettlement(after, o.settlementId) == FindSettlement(settlements, o.settlementId);
  }

  /** Replacing one object and adjusting its settlement's count by the difference keeps all counts exact. */
  lemma ReplaceKeepsCounts(objects: seq<Object>, settlements: seq<Settlement>, i: nat, o: Object, id: nat, delta: int)
    requires CountsOk(objects, settlements) && i < |objects|
    requires FindSettlement(settlements, id) < |settlements|
    requires var t := FindSettlement(settlements, id);
             0 <= settlements[t].count + delta <= settlements[t].budget
    requires forall sid: nat {:trigger ObjectsIn(objects, sid)} ::
               (if o.inUse && o.settlementId == sid then 1 else 0)
               - (if objects[i].inUse && objects[i].settlementId == sid then 1 else 0)
               == (if sid == id then delta else 0)
    ensures CountsOk(objects[i := o], Adjusted(settlements, id, delta))
  {
    var after := Adjusted(settlements, id, delta);
    forall t | 0 <= t < |after| && after[t].inUse
      ensures after[t].count == ObjectsIn(objects[i := o], after[t].id) <= after[t].budget
    {
      var sid := after[t].id;
      assert settlements[t].inUse && settlements[t].id == sid;
      SettlementSlot(settlements, t);
      assert ObjectsIn(objects, sid) == settlements[t].count;
      CountUpdate(objects, i, o, (x: Object) => x.inUse && x.settlementId == sid);
    }
  }

  // ---- the three requests ------------------------------------------------------------------------

  lemma BuildKeepsWorkshop(env: Env, s: Session, req: Request)
    requires req.Build? && WorkshopOk(env, s)
    ensures WorkshopOk(env, BuildStep(env, s, req).1)
  {
    if BuildValid(env, s, req) {
      var i := FreeObject(s.objects);
      if i < |s.objects| {
        var o := NewObject(req, s.nextObjectId);
        var after := Adjusted(s.settlements, req.settlementId, 1);
        ReplaceKeepsCounts(s.objects, s.settlements, i, o, req.settlementId, 1);
        forall x: Object ensures Placed(env.whitelist, after, x) <==> Placed(env.whitelist, s.settlements, x) {
          AdjustedKeepsPlaces(s.settlements, req.settlementId, 1, env.whitelist, x);
        }
      }
    }
  }

  lemma MoveKeepsWorkshop(env: Env, s: Session, id: nat, req: Request)
    requires req.Move? && WorkshopOk(env, s)
    ensures WorkshopOk(env, HandleMove(s, id, req).session)
  {
    if req.mover == id && MoveValid(s, req) {
      var i := FindObject(s.objects, req.objectId);
      var o := MovedObject(s.objects[i], req);
      forall t | 0 <= t < |s.settlements| && s.settlements[t].inUse
        ensures ObjectsIn(s.objects[i := o], s.settlements[t].id) == ObjectsIn(s.objects, s.settlements[t].id)
      {
        var sid := s.settlements[t].id;
        CountUpdate(s.objects, i, o, (x: Object) => x.inUse && x.settlementId == sid);
      }
    }
  }

  lemma ScrapKeepsWorkshop(env: Env, s: Session, id: nat, req: Request)
    requires req.Scrap? && WorkshopOk(env, s)
    ensures WorkshopOk(env, HandleScrap(s, id, req).session)
  {
    if req.scrapper == id && ScrapValid(s, req) {
      var i := FindObject(s.objects, req.scrapId);
      var sid := s.objects[i].settlementId;
      assert Placed(env.whitelist, s.settlements, s.objects[i]);
      CountHit(s.objects, (x: Object) => x.inUse && x.settlementId == sid, i);
      ReplaceKeepsCounts(s.objects, s.settlements, i, NO_OBJECT, sid, -1);
      forall x: Object ensures Placed(env.whitelist, Adjusted(s.settlements, sid, -1), x) <==>
          Placed(env.whitelist, s.settlements, x) {
        AdjustedKeepsPlaces(s.settlements, sid, -1, env.whitelist, x);
      }
    }
  }

  lemma RequestKeepsWorkshop(env: Env, s: Session, conn: nat, id: nat, req: Request)
    requires WorkshopOk(env, s)
    ensures req.Build? ==> WorkshopOk(env, HandleBuild(env, s, conn, id, req).session)
    ensures req.Move? ==> WorkshopOk(env, HandleMove(s, id, req).session)
    ensures req.Scrap? ==> WorkshopOk(env, HandleScrap(s, id, req).session)
  {
    match req {
      case Build(_, _, _, _, _, _, _) => BuildKeepsWorkshop(env, Heard(s, id), req);
      case Move(_, _, _, _) => MoveKeepsWorkshop(env, s, id, req);
      case Scrap(_, _) => ScrapKeepsWorkshop(env, s, id, req);
      case _ =>
    }
  }

  lemma HandleKeepsWorkshop(env: Env, s: Session, e: Envelope)
    requires WorkshopOk(env, s)
    ensures WorkshopOk(env, Handle(env, s, e).session)
  {
    hide HandleFire, HandleHello, HandleBuild, HandleMove, HandleScrap, HandleDisconnect, HandlePlayerUpdate,
         HandleInput, HandleSelect, Heard, First;
    var i := FindConnection(s.players, e.conn);
    if e.request.Build? || e.request.Move? || e.request.Scrap? {
      if i < |s.players| {
        RequestKeepsWorkshop(env, s, e.conn, s.players[i].id, e.request);
      }
    } else {
      HandleFrame(env, s, e);
    }
  }

  lemma TurnKeepsWorkshop(env: Env, s: Session, e: Envelope)
    requires WorkshopOk(env, s)
    ensures WorkshopOk(env, Turn(env, s, e))
  {
    HandleKeepsWorkshop(env, s, e);
    assert SameWorkshop(Handle(env, s, e).session, Turn(env, s, e));
  }

  /** In every reachable state each settlement counts exactly its in-use objects, within budget; object ids
      are unique; every object is whitelisted and inside its settlement. */
  lemma {:induction false} WorkshopConservation(env: Env, s: Session, es: seq<Envelope>)
    requires WorkshopOk(env, s)
    ensures WorkshopOk(env, Run(env, s, es))
  {
    if es != [] {
      WorkshopConservation(env, s, es[..|es| - 1]);
      TurnKeepsWorkshop(env, Run(env, s, es[..|es| - 1]), es[|es| - 1]);
    }
  }
}
