/** The service has seven player ids and the scene eight slots: a state from the service always finds room. */
module StageRoom {
  import opened Slots
  import opened Protocol
  import opened Stage
  import opened StageAgreement
  import opened StageRelay
  import Convergence

  // ---- which ids the scene may hold ---------------------------------------------------------------------------

  /** The scene holds no id it did not hold before, but perhaps this one. */
  ghost predicate AddsOnly(before: Stage, after: Stage, id: nat) {
    && |after.scene| == |before.scene|
    && forall i :: 0 <= i < |after.scene| && after.scene[i].inUse ==>
         (before.scene[i].inUse && before.scene[i].id == after.scene[i].id) || after.scene[i].id == id
  }

  lemma AddsOnlyChain(a: Stage, b: Stage, c: Stage, id: nat)
    requires AddsOnly(a, b, id) && AddsOnly(b, c, id)
    ensures AddsOnly(a, c, id)
  {
  }

  lemma PresentAdds(st: Stage, i: nat, u: UpdateSpec, id: nat)
    requires i < |st.scene|
    ensures AddsOnly(st, Present(st, i, u).1, id)
  {
    hide First;
  }

  lemma StandAdds(st: Stage, i: nat, id: nat, position: Vec3, rotation: Rot3, equipped: nat)
    requires i < |st.scene|
    ensures AddsOnly(st, Stand(st, i, id, position, rotation, equipped).1, id)
  {
    hide First;
  }

  lemma UpdateAdds(st: Stage, u: UpdateSpec)
    ensures AddsOnly(st, SceneUpdate(st, u).1, u.id)
  {
    hide Stand, Present, First;
    var i := SceneSlot(st.scene, u.id);
    if i < |st.scene| {
      StandAdds(st, i, u.id, u.position, u.rotation, u.equipped);
      var ready := if st.scene[i].inUse then (true, st) else Stand(st, i, u.id, u.position, u.rotation, u.equipped);
      if ready.0 {
        var st1 := ready.1.(scene := ready.1.scene[i := Retarget(ready.1.scene[i], u, ready.1.interp)]);
        var st2 := RuntimeUpdate(st1, u).1;
        assert AddsOnly(ready.1, st1, u.id) && st2.scene == st1.scene;
        AddsOnlyChain(st, ready.1, st2, u.id);
        PresentAdds(st2, i, u, u.id);
        AddsOnlyChain(st, st2, Present(st2, i, u).1, u.id);
      }
    }
  }

  lemma NoteAdds(st: Stage, id: nat, teleported: bool)
    ensures AddsOnly(st, NotePolicy(st, id, teleported), id)
  {
    hide Present, First;
    var i := SceneSlot(st.scene, id);
    if i < |st.scene| {
      var s := st.scene[i].(teleported := teleported);
      var snapped := st.(scene := st.scene[i := s.(presentedAt := s.targetAt, presentedTurn := s.targetTurn,
                                                   pending := false)]);
      PresentAdds(snapped, i, s.lastUpdate, id);
    }
  }

  lemma UpdateHeldAdds(st: Stage, k: nat, msg: PlayerState)
    requires k < |st.runtime|
    ensures AddsOnly(st, UpdateHeld(st, k, msg).1, msg.playerId)
  {
    hide SceneUpdate, NotePolicy, Teleports, LerpVec, LerpRot, First;
    var r := st.runtime[k];
    var u := Smoothed(st.policy, r.position, r.rotation, SpecOf(msg));
    var noted := NotePolicy(st, msg.playerId, Teleports(st.policy, r.position, msg.position));
    NoteAdds(st, msg.playerId, Teleports(st.policy, r.position, msg.position));
    UpdateAdds(noted, u);
    AddsOnlyChain(st, noted, SceneUpdate(noted, u).1, msg.playerId);
  }

  lemma StateAdds(st: Stage, msg: PlayerState)
    ensures AddsOnly(st, ApplyState(st, msg).1, msg.playerId)
  {
    hide UpdateHeld, SceneUpdate, Stand, First;
    var id, k := msg.playerId, HeldRuntime(st.runtime, msg.playerId);
    if k < |st.runtime| {
      UpdateHeldAdds(st, k, msg);
    } else {
      var i := SceneSlot(st.scene, id);
      if i < |st.scene| { StandAdds(st, i, id, msg.position, msg.rotation, msg.equipped); }
      var st1 := SceneSpawn(st, id, msg.position, msg.rotation, msg.equipped).1;
      assert AddsOnly(st, st1, id);
      var j := HeldRuntime(st1.runtime, id);
      if j < |st1.runtime| {
        UpdateHeldAdds(st1, j, msg);
        AddsOnlyChain(st, st1, UpdateHeld(st1, j, msg).1, id);
      }
      UpdateAdds(st1, SpecOf(msg));
      AddsOnlyChain(st, st1, SceneUpdate(st1, SpecOf(msg)).1, id);
    }
  }

  lemma {:induction false} StepAdds(st: Stage, i: nat)
    requires i <= |st.scene|
    ensures AddsOnly(st, StepFrom(st, i), 0)
    decreases |st.scene| - i
  {
    hide Present, LerpVec, LerpRot;
    if i < |st.scene| {
      var s := Advanced(st.scene[i], st.interp);
      var posed := st.(scene := st.scene[i := s]);
      PresentAdds(posed, i, s.lastUpdate, 0);
      assert AddsOnly(st, posed, 0);
      AddsOnlyChain(st, posed, Present(posed, i, s.lastUpdate).1, 0);
      var next := if Animates(st.scene[i], st.interp) then Present(posed, i, s.lastUpdate).1 else st;
      StepAdds(next, i + 1);
      AddsOnlyChain(st, next, StepFrom(next, i + 1), 0);
    }
  }

  // ---- seven ids, eight slots -----------------------------------------------------------------------------------

  /** Every state is about one of the ids the service gives away, or about nobody. */
  ghost predicate FromService(es: seq<Event>) {
    forall n :: 0 <= n < |es| && es[n].State? ==> es[n].msg.playerId < MAX_PLAYERS
  }

  ghost predicate ServiceIds(st: Stage) {
    forall i :: 0 <= i < |st.scene| && st.scene[i].inUse ==> st.scene[i].id < MAX_PLAYERS
  }

  lemma NextKeepsIds(st: Stage, e: Event)
    requires ServiceIds(st) && (e.State? ==> e.msg.playerId < MAX_PLAYERS)
    ensures ServiceIds(Next(st, e))
  {
    hide ApplyState, SceneDespawn, StepFrom;
    match e {
      case State(msg) => StateAdds(st, msg);
      case Left(id) => LeftKeepsIds(st, id);
      case Step => StepAdds(st, 0);
      case _ =>
    }
  }

  lemma LeftKeepsIds(st: Stage, id: nat)
    requires ServiceIds(st)
    ensures ServiceIds(SceneDespawn(st, id).1)
  {
    hide First;
  }

  lemma {:induction false} RunKeepsIds(c: Contract, localId: nat, es: seq<Event>)
    requires FromService(es)
    ensures ServiceIds(Run(Cleared(c, localId), es))
  {
    hide Next;
    if es != [] {
      RunKeepsIds(c, localId, es[..|es| - 1]);
      NextKeepsIds(Run(Cleared(c, localId), es[..|es| - 1]), es[|es| - 1]);
    }
  }

  lemma {:induction false} Pigeonhole(ids: seq<nat>, m: nat)
    requires forall i :: 0 <= i < |ids| ==> 1 <= ids[i] <= m
    requires forall i, j :: 0 <= i < j < |ids| ==> ids[i] != ids[j]
    ensures |ids| <= m
    decreases m
  {
    assert ids == [] || 1 <= ids[0] <= m;
    if p :| 0 <= p < |ids| && ids[p] == m {
      var rest := ids[..p] + ids[p + 1..];
      assert forall i :: 0 <= i < |rest| ==> rest[i] == if i < p then ids[i] else ids[i + 1];
      Pigeonhole(rest, m - 1);
    } else if m > 0 {
      Pigeonhole(ids, m - 1);
    }
  }

  lemma StageHasRoom(st: Stage, id: nat)
    requires StageOk(st) && ServiceIds(st)
    ensures HasRoom(st, id)
  {
    hide First, SameLive, DistinctRuntime;
    if SceneSlot(st.scene, id) == |st.scene| {
      forall i | 0 <= i < |st.scene| ensures st.scene[i].inUse && st.scene[i].id != 0 {
        assert Twin(st.scene[i], st.driver[i]);
      }
      var ids := seq(|st.scene|, i requires 0 <= i < |st.scene| => st.scene[i].id);
      Pigeonhole(ids, MAX_PLAYERS - 1);
    }
  }

  /** After any run on what the service sends, the scene has room for every player. */
  lemma ServiceFindsRoom(c: Contract, localId: nat, es: seq<Event>, id: nat)
    requires ContractFits(c, localId) && FromService(es)
    ensures Roomy(Cleared(c, localId), es, id)
  {
    hide Run, Cleared, StageOk, ServiceIds, HasRoom, ContractFits;
    forall n | 0 <= n < |es| ensures HasRoom(Run(Cleared(c, localId), es[..n]), id) {
      RunKeepsStage(c, localId, es[..n]);
      assert FromService(es[..n]);
      RunKeepsIds(c, localId, es[..n]);
      StageHasRoom(Run(Cleared(c, localId), es[..n]), id);
    }
  }

  // ---- the local player ------------------------------------------------------------------------------------------

  lemma NextKeepsOut(st: Stage, e: Event, id: nat)
    requires StageOk(st) && ContractFits(st.contract, st.localId) && !Live(st, id) && (id == 0 || id == st.localId)
    ensures !Live(Next(st, e), id)
  {
    hide First, StageOk, SceneDespawn, StepFrom, ContractFits;
    match e {
      case State(msg) => if msg.playerId != id { OthersStateKeepsAbsent(st, msg, id); }
      case Left(gone) =>
        DespawnKeepsStage(st, gone);
        if gone != st.localId && Live(st, gone) {
          DespawnMatches(st, gone);
          RuntimeOthersSame(st.runtime, HeldRuntime(st.runtime, gone), NO_RUNTIME, id);
        } else if gone != st.localId {
          DespawnUnknown(st, gone);
        }
      case Step => StepKeepsStage(st, 0);
      case _ =>
    }
  }

  /** Neither the local player nor nobody is ever put on stage. */
  lemma {:induction false} LocalStaysOut(c: Contract, localId: nat, es: seq<Event>, id: nat)
    requires ContractFits(c, localId) && (id == 0 || id == localId)
    ensures !Live(Run(Cleared(c, localId), es), id)
  {
    hide Next, StageOk, Cleared, ContractFits, Live;
    if es == [] {
      ClearedIsEmpty(c, localId, id);
    } else {
      var before := es[..|es| - 1];
      LocalStaysOut(c, localId, before, id);
      RunKeepsStage(c, localId, before);
      NextKeepsOut(Run(Cleared(c, localId), before), es[|es| - 1], id);
    }
  }

  // ---- a departure forgets -----------------------------------------------------------------------------------------

  /** Two states, a departure, and a delayed copy of the first. */
  function LateCopy(older: PlayerState, newer: PlayerState): seq<Event> {
    [State(older), State(newer), Left(older.playerId), State(older)]
  }

  lemma ClearedIsEmpty(c: Contract, localId: nat, id: nat)
    ensures !Live(Cleared(c, localId), id)
  {
    hide First;
  }

  lemma LateCopySince(older: PlayerState, newer: PlayerState)
    requires older.playerId == newer.playerId
    ensures var es, id := LateCopy(older, newer), older.playerId;
            Since(es[..2], id) == [older, newer] && Since(es[..3], id) == [] && Since(es, id) == [older]
  {
    var es, id := LateCopy(older, newer), older.playerId;
    assert es[..3][..2] == es[..2] && es[..2][..1] == es[..1] && es[..1][..0] == [];
    assert Since(es[..1], id) == [older];
  }

  lemma TwoRecords(older: PlayerState, newer: PlayerState)
    requires 1 <= older.stateSequence < newer.stateSequence && 1 <= older.observedTick < newer.observedTick
    ensures Convergence.ClientAfter([older]) == Convergence.Record(older.stateSequence, older.observedTick)
    ensures Convergence.ClientAfter([older, newer]) == Convergence.Record(newer.stateSequence, newer.observedTick)
  {
    assert [older, newer][..1] == [older] && [older][..0] == [];
  }

  /** A departure forgets what was known: a delayed copy of an older state puts a player that left back on stage, behind
      what the client had already seen of it. */
  lemma OldStateReturns(c: Contract, localId: nat, older: PlayerState, newer: PlayerState)
    requires ContractFits(c, localId) && older.playerId == newer.playerId
    requires 1 <= older.playerId < MAX_PLAYERS && older.playerId != localId
    requires 1 <= older.stateSequence < newer.stateSequence && 1 <= older.observedTick < newer.observedTick
    ensures var id, es, st := older.playerId, LateCopy(older, newer), Cleared(c, localId);
            && Live(Run(st, es[..2]), id) && !Live(Run(st, es[..3]), id) && Live(Run(st, es), id)
            && RecordOf(Run(st, es[..2]), id) == Convergence.Record(newer.stateSequence, newer.observedTick)
            && RecordOf(Run(st, es), id) == Convergence.Record(older.stateSequence, older.observedTick)
  {
    hide Run, Cleared, StageOk, Roomy, ContractFits, Since, Live, RecordOf, Convergence.ClientAfter;
    var id, es, st := older.playerId, LateCopy(older, newer), Cleared(c, localId);
    ClearedIsOk(c, localId);
    ClearedConfig(c, localId);
    ClearedIsEmpty(c, localId, id);
    LateCopySince(older, newer);
    TwoRecords(older, newer);
    ServiceFindsRoom(c, localId, es[..2], id);
    RecordIsSinceLeft(st, es[..2], id);
    ServiceFindsRoom(c, localId, es[..3], id);
    RecordIsSinceLeft(st, es[..3], id);
    ServiceFindsRoom(c, localId, es, id);
    RecordIsSinceLeft(st, es, id);
  }
}
