/** The session's mirrored quest and the policy that guards its updates. */
module Quest {
  import opened Slots

  const MAX_OBJECTIVES: nat := 16
  const MAX_TEXT: nat := 255
  const ACTIVE: nat := 0
  const COMPLETED: nat := 1
  const FAILED: nat := 2

  datatype Objective = Objective(id: nat, state: nat, text: string)
  datatype State = State(loaded: bool, questId: nat, stage: nat, tracked: nat, objectives: seq<Objective>)
  datatype Update = Update(questId: nat, stage: nat, tracked: nat, objectives: seq<Objective>)

  const ACCEPTED: nat := 0
  const RULE_OFF: nat := 2
  const TOO_MANY: nat := 3
  const OTHER_QUEST: nat := 4
  const BAD_STATE: nat := 5
  const STAGE_BACK: nat := 6
  const BAD_TRANSITION: nat := 7

  predicate StateValid(s: nat) { s == ACTIVE || s == COMPLETED || s == FAILED }

  predicate TransitionValid(from: nat, to: nat) {
    from == to || (from == ACTIVE && (to == COMPLETED || to == FAILED))
  }

  function ObjectiveIndex(objectives: seq<Objective>, id: nat): (r: nat)
    ensures r <= |objectives|
    ensures r < |objectives| ==> objectives[r].id == id
    ensures forall i :: 0 <= i < r ==> objectives[i].id != id
  {
    First(objectives, (o: Objective) => o.id == id)
  }

  /** The reason code one new objective earns against the stored quest. */
  function Judge(q: State, questId: nat, o: Objective): nat {
    if !StateValid(o.state) then BAD_STATE
    else if q.loaded && q.questId == questId
            && var j := ObjectiveIndex(q.objectives, o.id);
               j < |q.objectives| && !TransitionValid(q.objectives[j].state, o.state) then BAD_TRANSITION
    else ACCEPTED
  }

  /** The first reason code other than acceptance, in the order of the objectives. */
  function JudgeAll(q: State, questId: nat, objectives: seq<Objective>): nat {
    if objectives == [] then ACCEPTED
    else
      var r := JudgeAll(q, questId, objectives[..|objectives| - 1]);
      if r != ACCEPTED then r else Judge(q, questId, objectives[|objectives| - 1])
  }

  /** `qmp_validate_update`: the reason code, zero when accepted. */
  function Validate(mirrorEnabled: bool, q: State, u: Update): nat {
    if !mirrorEnabled then RULE_OFF
    else if |u.objectives| > MAX_OBJECTIVES then TOO_MANY
    else if q.loaded && q.questId != 0 && q.questId != u.questId then OTHER_QUEST
    else if q.loaded && q.questId == u.questId && u.stage < q.stage then STAGE_BACK
    else JudgeAll(q, u.questId, u.objectives)
  }

  /** The stored copy of the objectives, with texts cut to their buffer. */
  function Stored(objectives: seq<Objective>): (r: seq<Objective>)
    ensures |r| == |objectives|
    ensures forall i :: 0 <= i < |r| ==> r[i].id == objectives[i].id && r[i].state == objectives[i].state
  {
    seq(|objectives|, i requires 0 <= i < |objectives| =>
      objectives[i].(text := if |objectives[i].text| <= MAX_TEXT then objectives[i].text
          else objectives[i].text[..MAX_TEXT]))
  }

  /** `hem_quest_update`: an accepted update replaces the mirrored quest, a rejected one changes nothing. */
  function Step(mirrorEnabled: bool, q: State, u: Update): State {
    if Validate(mirrorEnabled, q, u) == ACCEPTED
    then State(true, u.questId, u.stage, u.tracked, Stored(u.objectives)) else q
  }

  function Run(mirrorEnabled: bool, q: State, updates: seq<Update>): State {
    if updates == [] then q
    else Step(mirrorEnabled, Run(mirrorEnabled, q, updates[..|updates| - 1]), updates[|updates| - 1])
  }

  /** Once a quest with a non-zero id is mirrored, the rest of the run keeps its id and never lowers its stage. */
  lemma {:induction false} QuestNeverRegresses(mirrorEnabled: bool, q: State, updates: seq<Update>)
    requires q.loaded && q.questId != 0
    ensures var r := Run(mirrorEnabled, q, updates);
            r.loaded && r.questId == q.questId && r.stage >= q.stage
  {
    if updates != [] {
      QuestNeverRegresses(mirrorEnabled, q, updates[..|updates| - 1]);
    }
  }

  lemma {:induction false} JudgeAllAccepts(q: State, questId: nat, objectives: seq<Objective>)
    ensures JudgeAll(q, questId, objectives) == ACCEPTED
            <==> forall o :: o in objectives ==> Judge(q, questId, o) == ACCEPTED
  {
    if objectives != [] {
      var n := |objectives| - 1;
      JudgeAllAccepts(q, questId, objectives[..n]);
      assert objectives == objectives[..n] + [objectives[n]];
    }
  }

  ghost predicate DistinctIds(objectives: seq<Objective>) {
    forall i, j :: 0 <= i < j < |objectives| ==> objectives[i].id != objectives[j].id
  }

  predicate Settled(o: Objective) { o.state == COMPLETED || o.state == FAILED }

  /** The update moves some objective out of Completed or Failed. */
  ghost predicate Unsettles(q: State, u: Update) {
    exists i, k :: 0 <= i < |q.objectives| && 0 <= k < |u.objectives|
                   && q.objectives[i].id == u.objectives[k].id
                   && Settled(q.objectives[i]) && u.objectives[k].state != q.objectives[i].state
  }

  /** With distinct objective ids, an accepted update of the mirrored quest leaves every settled objective settled. */
  lemma AcceptedUpdateKeepsSettled(q: State, u: Update)
    requires q.loaded && q.questId == u.questId && DistinctIds(q.objectives)
    requires Validate(true, q, u) == ACCEPTED
    ensures !Unsettles(q, u)
  {
    JudgeAllAccepts(q, u.questId, u.objectives);
    forall i, k | 0 <= i < |q.objectives| && 0 <= k < |u.objectives|
                  && q.objectives[i].id == u.objectives[k].id && Settled(q.objectives[i])
      ensures u.objectives[k].state == q.objectives[i].state
    {
      assert Judge(q, u.questId, u.objectives[k]) == ACCEPTED;
      assert ObjectiveIndex(q.objectives, u.objectives[k].id) == i;
    }
  }

  const UNLOADED := State(false, 0, 0, 0, [])

  /** Distinctness is needed: only the first of two objectives with the same id is compared. The first update of a run
      brings such a pair in, the second moves the objective that was Completed to Failed. */
  lemma DuplicateIdsUnsettle()
    ensures var us := [Update(7, 0, 1, [Objective(1, ACTIVE, ""), Objective(1, COMPLETED, "")]),
                       Update(7, 0, 1, [Objective(1, FAILED, "")])];
            var q := Run(true, UNLOADED, us[..1]);
            && q.loaded && Validate(true, q, us[1]) == ACCEPTED && Unsettles(q, us[1])
            && Run(true, UNLOADED, us).objectives == [Objective(1, FAILED, "")]
  {
    var pair := [Objective(1, ACTIVE, ""), Objective(1, COMPLETED, "")];
    var us := [Update(7, 0, 1, pair), Update(7, 0, 1, [Objective(1, FAILED, "")])];
    assert us[..1][..0] == [] && us[..1][0] == us[0];
    JudgeAllAccepts(UNLOADED, 7, pair);
    var q := Run(true, UNLOADED, us[..1]);
    assert q == Step(true, Run(true, UNLOADED, us[..1][..0]), us[0]) == Step(true, UNLOADED, us[0]);
    assert Stored(pair) == pair;
    assert q == State(true, 7, 0, 1, pair);
    assert ObjectiveIndex(q.objectives, 1) == 0;
    JudgeAllAccepts(q, 7, us[1].objectives);
    assert q.objectives[1].id == us[1].objectives[0].id && Settled(q.objectives[1]);
  }

  /** A settled objective stands behind an earlier one with its id and another valid state. */
  ghost predicate Shadowed(objectives: seq<Objective>) {
    exists i :: 0 <= i < |objectives| && Shadows(objectives, i)
  }

  predicate Shadows(objectives: seq<Objective>, i: nat)
    requires i < |objectives|
  {
    var first := objectives[ObjectiveIndex(objectives, objectives[i].id)];
    && Settled(objectives[i])
    && StateValid(first.state) && first.state != objectives[i].state
  }

  /** The update that repeats the state of the first objective with the id of objective `i`. */
  function Repeat(q: State, i: nat): Update
    requires i < |q.objectives|
  {
    Update(q.questId, q.stage, q.tracked, [q.objectives[ObjectiveIndex(q.objectives, q.objectives[i].id)]])
  }

  /** No accepted update can unsettle an objective of the mirrored quest if and only if none is shadowed. */
  lemma SettledIsSafeIffUnshadowed(q: State)
    requires q.loaded
    ensures (forall u: Update :: u.questId == q.questId && Validate(true, q, u) == ACCEPTED ==> !Unsettles(q, u)) <==>
              !Shadowed(q.objectives)
  {
    forall u: Update | u.questId == q.questId && Validate(true, q, u) == ACCEPTED && Unsettles(q, u)
      ensures Shadowed(q.objectives)
    {
      JudgeAllAccepts(q, u.questId, u.objectives);
      var i, k :| 0 <= i < |q.objectives| && 0 <= k < |u.objectives|
                  && q.objectives[i].id == u.objectives[k].id
                  && Settled(q.objectives[i]) && u.objectives[k].state != q.objectives[i].state;
      assert Judge(q, u.questId, u.objectives[k]) == ACCEPTED;
      assert Shadows(q.objectives, i);
    }
    if i :| 0 <= i < |q.objectives| && Shadows(q.objectives, i) {
      var u := Repeat(q, i);
      var first := u.objectives[0];
      assert Judge(q, q.questId, first) == ACCEPTED;
      JudgeAllAccepts(q, q.questId, u.objectives);
      assert q.objectives[i].id == u.objectives[0].id && Settled(q.objectives[i]);
      assert Validate(true, q, u) == ACCEPTED && Unsettles(q, u);
    }
  }

  // ---- settled for how long -------------------------------------------------------------------------------

  ghost predicate Carries(u: Update, id: nat) {
    exists k :: 0 <= k < |u.objectives| && u.objectives[k].id == id
  }

  /** Wherever the update speaks of the objective, it leaves its state as it is. */
  ghost predicate Respects(u: Update, o: Objective) {
    forall k :: 0 <= k < |u.objectives| && u.objectives[k].id == o.id ==> u.objectives[k].state == o.state
  }

  /** An update of the same quest that reopens or turns the objective. */
  function Turned(q: State, o: Objective): Update {
    Update(q.questId, q.stage, q.tracked, [Objective(o.id, ACTIVE, "")])
  }

  lemma CarriedIsStored(q: State, u: Update, i: nat)
    requires q.loaded && u.questId == q.questId && DistinctIds(q.objectives) && DistinctIds(u.objectives)
    requires Validate(true, q, u) == ACCEPTED && i < |q.objectives| && Settled(q.objectives[i])
    requires Carries(u, q.objectives[i].id)
    ensures var after := Step(true, q, u);
            && DistinctIds(after.objectives)
            && var j := ObjectiveIndex(after.objectives, q.objectives[i].id);
               j < |after.objectives| && after.objectives[j].state == q.objectives[i].state
  {
    AcceptedUpdateKeepsSettled(q, u);
    var o, after := q.objectives[i], Step(true, q, u);
    var k :| 0 <= k < |u.objectives| && u.objectives[k].id == o.id;
    assert after.objectives[k].id == o.id;
    var j := ObjectiveIndex(after.objectives, o.id);
    assert u.objectives[j].id == q.objectives[i].id;
  }

  /** After an accepted update, every further accepted update of the quest respects a settled objective if and only if
      the first one carried it: an update that omits an objective forgets it. */
  lemma SettledIsSafeIffCarried(q: State, u: Update, i: nat)
    requires q.loaded && u.questId == q.questId && DistinctIds(q.objectives) && DistinctIds(u.objectives)
    requires Validate(true, q, u) == ACCEPTED && i < |q.objectives| && Settled(q.objectives[i])
    ensures var o, after := q.objectives[i], Step(true, q, u);
            (forall v: Update :: v.questId == q.questId && Validate(true, after, v) == ACCEPTED ==> Respects(v, o))
            <==> Carries(u, o.id)
  {
    var o, after := q.objectives[i], Step(true, q, u);
    if Carries(u, o.id) {
      CarriedIsStored(q, u, i);
      var j := ObjectiveIndex(after.objectives, o.id);
      forall v: Update | v.questId == q.questId && Validate(true, after, v) == ACCEPTED ensures Respects(v, o) {
        AcceptedRespects(after, v, j);
      }
    } else {
      var v := Turned(after, o);
      assert ObjectiveIndex(after.objectives, o.id) == |after.objectives|;
      JudgeAllAccepts(after, v.questId, v.objectives);
      assert Judge(after, v.questId, v.objectives[0]) == ACCEPTED;
      assert v.objectives[0].id == o.id && v.objectives[0].state != o.state;
      assert Validate(true, after, v) == ACCEPTED && !Respects(v, o);
    }
  }

  /** Three accepted updates from the unloaded state: complete an objective, omit it, and find it active again. */
  lemma OmissionForgets(id: nat, questId: nat)
    ensures var us := [Update(questId, 0, 1, [Objective(id, COMPLETED, "")]), Update(questId, 0, 1, []),
                       Update(questId, 0, 1, [Objective(id, ACTIVE, "")])];
            && Run(true, UNLOADED, us[..1]).objectives == [Objective(id, COMPLETED, "")]
            && Run(true, UNLOADED, us).objectives == [Objective(id, ACTIVE, "")]
  {
    var us := [Update(questId, 0, 1, [Objective(id, COMPLETED, "")]), Update(questId, 0, 1, []),
               Update(questId, 0, 1, [Objective(id, ACTIVE, "")])];
    assert us[..2][..1] == us[..1] && us[..1][..0] == [];
    JudgeAllAccepts(UNLOADED, questId, us[0].objectives);
    var q1 := Step(true, UNLOADED, us[0]);
    assert Run(true, UNLOADED, us[..1]) == Step(true, Run(true, UNLOADED, us[..1][..0]), us[0]) == q1;
    JudgeAllAccepts(q1, questId, []);
    var q2 := Step(true, q1, us[1]);
    assert Run(true, UNLOADED, us[..2]) == q2;
    JudgeAllAccepts(q2, questId, us[2].objectives);
  }

  lemma AcceptedRespects(q: State, u: Update, i: nat)
    requires q.loaded && u.questId == q.questId && DistinctIds(q.objectives) && Validate(true, q, u) == ACCEPTED
    requires i < |q.objectives| && Settled(q.objectives[i])
    ensures Respects(u, q.objectives[i])
  {
    AcceptedUpdateKeepsSettled(q, u);
  }

  /** Every update the run accepts has distinct ids and carries the objective. */
  ghost predicate AlwaysCarried(enabled: bool, q: State, updates: seq<Update>, id: nat) {
    forall n :: 0 <= n < |updates| && Validate(enabled, Run(enabled, q, updates[..n]), updates[n]) == ACCEPTED ==>
                  DistinctIds(updates[n].objectives) && Carries(updates[n], id)
  }

  /** An objective that every accepted update carries never leaves Completed or Failed, over the whole run. */
  lemma {:induction false} CarriedStaysSettled(enabled: bool, q: State, updates: seq<Update>, i: nat)
    requires q.loaded && q.questId != 0 && DistinctIds(q.objectives) && i < |q.objectives| && Settled(q.objectives[i])
    requires AlwaysCarried(enabled, q, updates, q.objectives[i].id)
    ensures var r := Run(enabled, q, updates);
            && DistinctIds(r.objectives)
            && var j := ObjectiveIndex(r.objectives, q.objectives[i].id);
               j < |r.objectives| && r.objectives[j].state == q.objectives[i].state
    decreases |updates|
  {
    hide Validate, Step, Stored;
    var id := q.objectives[i].id;
    if updates == [] {
      assert ObjectiveIndex(q.objectives, id) == i;
    } else {
      var n := |updates| - 1;
      var before := updates[..n];
      forall m | 0 <= m < n ensures before[..m] == updates[..m] && before[m] == updates[m] {}
      CarriedStaysSettled(enabled, q, before, i);
      QuestNeverRegresses(enabled, q, before);
      var m := Run(enabled, q, before);
      StepCarries(enabled, m, updates[n], ObjectiveIndex(m.objectives, id));
    }
  }

  lemma StepCarries(enabled: bool, q: State, u: Update, i: nat)
    requires q.loaded && q.questId != 0 && DistinctIds(q.objectives) && i < |q.objectives| && Settled(q.objectives[i])
    requires Validate(enabled, q, u) == ACCEPTED ==> DistinctIds(u.objectives) && Carries(u, q.objectives[i].id)
    ensures var r := Step(enabled, q, u);
            && DistinctIds(r.objectives)
            && var j := ObjectiveIndex(r.objectives, q.objectives[i].id);
               j < |r.objectives| && r.objectives[j].state == q.objectives[i].state
  {
    hide JudgeAll;
    if Validate(enabled, q, u) == ACCEPTED {
      CarriedIsStored(q, u, i);
    } else {
      assert ObjectiveIndex(q.objectives, q.objectives[i].id) == i;
    }
  }

  method JudgeObjective(q: State, questId: nat, o: Objective) returns (reason: nat)
    ensures reason == Judge(q, questId, o)
  {
    if !StateValid(o.state) { return BAD_STATE; }
    if q.loaded && q.questId == questId {
      var j := FirstMatch(q.objectives, (x: Objective) => x.id == o.id);
      if j < |q.objectives| && !TransitionValid(q.objectives[j].state, o.state) { return BAD_TRANSITION; }
    }
    reason := ACCEPTED;
  }

  /** The nested loops of `qmp_validate_update`. */
  method ValidateUpdate(mirrorEnabled: bool, q: State, u: Update) returns (reason: nat)
    ensures reason == Validate(mirrorEnabled, q, u)
  {
    hide Judge;
    if !mirrorEnabled { return RULE_OFF; }
    if |u.objectives| > MAX_OBJECTIVES { return TOO_MANY; }
    if q.loaded && q.questId != 0 && q.questId != u.questId { return OTHER_QUEST; }
    if q.loaded && q.questId == u.questId && u.stage < q.stage { return STAGE_BACK; }
    var i := 0;
    while i < |u.objectives|
      invariant i <= |u.objectives|
      invariant JudgeAll(q, u.questId, u.objectives[..i]) == ACCEPTED
    {
      reason := JudgeObjective(q, u.questId, u.objectives[i]);
      assert u.objectives[..i + 1][..i] == u.objectives[..i];
      if reason != ACCEPTED {
        JudgeAllStops(q, u.questId, u.objectives, i + 1);
        return;
      }
      i := i + 1;
    }
    assert u.objectives[..i] == u.objectives;
    reason := ACCEPTED;
  }

  /** The session's quest record as the service updates it in place. */
  class QuestMirror {
    var state: State

    constructor ()
      ensures state == UNLOADED
    {
      state := UNLOADED;
    }

    method OnUpdate(mirrorEnabled: bool, u: Update) returns (ok: bool)
      modifies this
      ensures ok <==> Validate(mirrorEnabled, old(state), u) == ACCEPTED
      ensures state == Step(mirrorEnabled, old(state), u)
    {
      hide JudgeAll;
      var reason := ValidateUpdate(mirrorEnabled, state, u);
      if reason != ACCEPTED { return false; }
      var count := if |u.objectives| < MAX_OBJECTIVES then |u.objectives| else MAX_OBJECTIVES;
      var copied: seq<Objective> := [];
      while |copied| < count
        invariant |copied| <= count && copied == Stored(u.objectives)[..|copied|]
      {
        var o := u.objectives[|copied|];
        copied := copied + [o.(text := if |o.text| <= MAX_TEXT then o.text else o.text[..MAX_TEXT])];
      }
      state := State(true, u.questId, u.stage, u.tracked, copied);
      ok := true;
    }
  }

  /** Once a prefix is refused, the rest of the list does not change the reason. */
  lemma {:induction false} JudgeAllStops(q: State, questId: nat, objectives: seq<Objective>, n: nat)
    requires n <= |objectives|
    requires JudgeAll(q, questId, objectives[..n]) != ACCEPTED
    ensures JudgeAll(q, questId, objectives) == JudgeAll(q, questId, objectives[..n])
    decreases |objectives|
  {
    if n == |objectives| {
      assert objectives[..n] == objectives;
    } else {
      var front := objectives[..|objectives| - 1];
      assert front[..n] == objectives[..n];
      JudgeAllStops(q, questId, front, n);
    }
  }
}
