/** Smoothing as the running client does it: interpolation steps of the scene and repeated updates of a record. */
module SmoothStage {
  import opened Slots
  import opened Protocol
  import opened Stage
  import opened StageAgreement
  import opened Smoothing

  // ---- the alphas are clamped --------------------------------------------------------------------------------

  /** Every alpha lies between zero and one. */
  predicate Clamped(st: Stage) {
    && 0.0 <= st.interp.positionAlpha <= 1.0 && 0.0 <= st.interp.rotationAlpha <= 1.0
    && 0.0 <= st.policy.positionAlpha <= 1.0 && 0.0 <= st.policy.rotationAlpha <= 1.0
  }

  predicate SameSettings(a: Stage, b: Stage) { a.interp == b.interp && a.policy == b.policy }

  lemma PresentKeepsSettings(st: Stage, i: nat, u: UpdateSpec)
    requires i < |st.scene|
    ensures SameSettings(st, Present(st, i, u).1)
  {
  }

  lemma StandKeepsSettings(st: Stage, i: nat, id: nat, position: Vec3, rotation: Rot3, equipped: nat)
    requires i < |st.scene|
    ensures SameSettings(st, Stand(st, i, id, position, rotation, equipped).1)
  {
  }

  lemma SceneUpdateKeepsSettings(st: Stage, u: UpdateSpec)
    ensures SameSettings(st, SceneUpdate(st, u).1)
  {
    hide Stand, Present, Retarget;
    var i := SceneSlot(st.scene, u.id);
    if i < |st.scene| {
      StandKeepsSettings(st, i, u.id, u.position, u.rotation, u.equipped);
      var ready := if st.scene[i].inUse then (true, st) else Stand(st, i, u.id, u.position, u.rotation, u.equipped);
      if ready.0 {
        var st1 := ready.1.(scene := ready.1.scene[i := Retarget(ready.1.scene[i], u, ready.1.interp)]);
        var st2 := RuntimeUpdate(st1, u).1;
        PresentKeepsSettings(st2, i, u);
      }
    }
  }

  lemma NoteKeepsSettings(st: Stage, id: nat, teleported: bool)
    ensures SameSettings(st, NotePolicy(st, id, teleported))
  {
    hide Present;
    var i := SceneSlot(st.scene, id);
    if i < |st.scene| {
      var s := st.scene[i].(teleported := teleported);
      var snapped := s.(presentedAt := s.targetAt, presentedTurn := s.targetTurn, pending := false);
      PresentKeepsSettings(st.(scene := st.scene[i := snapped]), i, s.lastUpdate);
    }
  }

  lemma UpdateHeldKeepsSettings(st: Stage, k: nat, msg: PlayerState)
    requires k < |st.runtime|
    ensures SameSettings(st, UpdateHeld(st, k, msg).1)
  {
    hide SceneUpdate, NotePolicy, Smoothed, Teleports;
    var r := st.runtime[k];
    var teleported := Teleports(st.policy, r.position, msg.position);
    NoteKeepsSettings(st, msg.playerId, teleported);
    SceneUpdateKeepsSettings(NotePolicy(st, msg.playerId, teleported),
                             Smoothed(st.policy, r.position, r.rotation, SpecOf(msg)));
  }

  lemma StateKeepsSettings(st: Stage, msg: PlayerState)
    ensures SameSettings(st, ApplyState(st, msg).1)
  {
    hide UpdateHeld, SceneUpdate, Stand, First;
    var k := HeldRuntime(st.runtime, msg.playerId);
    if k < |st.runtime| {
      UpdateHeldKeepsSettings(st, k, msg);
    } else {
      var i := SceneSlot(st.scene, msg.playerId);
      if i < |st.scene| { StandKeepsSettings(st, i, msg.playerId, msg.position, msg.rotation, msg.equipped); }
      var st1 := SceneSpawn(st, msg.playerId, msg.position, msg.rotation, msg.equipped).1;
      var j := HeldRuntime(st1.runtime, msg.playerId);
      if j < |st1.runtime| { UpdateHeldKeepsSettings(st1, j, msg); }
      SceneUpdateKeepsSettings(st1, SpecOf(msg));
    }
  }

  lemma {:induction false} StepKeepsSettings(st: Stage, i: nat)
    requires i <= |st.scene|
    ensures SameSettings(st, StepFrom(st, i))
    decreases |st.scene| - i
  {
    hide Present, Advanced;
    if i < |st.scene| {
      var s := Advanced(st.scene[i], st.interp);
      var posed := st.(scene := st.scene[i := s]);
      PresentKeepsSettings(posed, i, s.lastUpdate);
      StepKeepsSettings(if Animates(st.scene[i], st.interp) then Present(posed, i, s.lastUpdate).1 else st, i + 1);
    }
  }

  lemma NextKeepsClamped(st: Stage, e: Event)
    requires Clamped(st)
    ensures Clamped(Next(st, e))
  {
    hide ApplyState, StepFrom;
    match e {
      case State(msg) => StateKeepsSettings(st, msg);
      case Step => StepKeepsSettings(st, 0);
      case _ =>
    }
  }

  /** The setters clamp, so the alphas of every state the manager can reach lie between zero and one. */
  lemma {:induction false} RunKeepsClamped(c: Contract, localId: nat, es: seq<Event>)
    ensures Clamped(Run(Cleared(c, localId), es))
  {
    hide Next;
    if es != [] {
      RunKeepsClamped(c, localId, es[..|es| - 1]);
      NextKeepsClamped(Run(Cleared(c, localId), es[..|es| - 1]), es[|es| - 1]);
    }
  }

  /** A number brought into the unit interval. */
  ghost predicate UnitOf(a: real, p: real) {
    (p <= 0.0 ==> a == 0.0) && (0.0 <= p <= 1.0 ==> a == p) && (p >= 1.0 ==> a == 1.0)
  }

  ghost predicate SetsInterpolation(interp: Interpolation, e: Event)
    requires e.SetInterpolation?
  {
    interp.enabled == e.enabled && UnitOf(interp.positionAlpha, e.positionAlpha)
        && UnitOf(interp.rotationAlpha, e.rotationAlpha)
  }

  ghost predicate SetsPolicy(p: Policy, e: Event)
    requires e.SetPolicy?
  {
    && p.enabled == e.policy.enabled && p.teleportDistance == e.policy.teleportDistance
    && UnitOf(p.positionAlpha, e.policy.positionAlpha) && UnitOf(p.rotationAlpha, e.policy.rotationAlpha)
  }

  lemma NextOnSettings(st: Stage, e: Event)
    ensures if e.SetInterpolation? then SetsInterpolation(Next(st, e).interp, e) else Next(st, e).interp == st.interp
    ensures if e.SetPolicy? then SetsPolicy(Next(st, e).policy, e) else Next(st, e).policy == st.policy
  {
    hide ApplyState, StepFrom;
    match e {
      case State(msg) => StateKeepsSettings(st, msg);
      case Step => StepKeepsSettings(st, 0);
      case _ =>
    }
  }

  /** The interpolation in force is the one last set, each alpha brought into the unit interval; before one is set it is
      on, with a quarter and 0.35 of the way per step. */
  lemma {:induction false} LastInterpolationStands(c: Contract, localId: nat, es: seq<Event>, k: nat)
    requires k <= |es| && (k == 0 || es[k - 1].SetInterpolation?)
    requires forall j :: k <= j < |es| ==> !es[j].SetInterpolation?
    ensures var interp := Run(Cleared(c, localId), es).interp;
            if k == 0 then interp == Interpolation(true, 0.25, 0.35) else SetsInterpolation(interp, es[k - 1])
  {
    hide Next, SetsInterpolation, SetsPolicy;
    if es != [] {
      var n := |es| - 1;
      NextOnSettings(Run(Cleared(c, localId), es[..n]), es[n]);
      if k <= n { LastInterpolationStands(c, localId, es[..n], k); }
    }
  }

  /** And so is the smoothing policy; before one is set it is on, with teleports beyond eight units. */
  lemma {:induction false} LastPolicyStands(c: Contract, localId: nat, es: seq<Event>, k: nat)
    requires k <= |es| && (k == 0 || es[k - 1].SetPolicy?)
    requires forall j :: k <= j < |es| ==> !es[j].SetPolicy?
    ensures var p := Run(Cleared(c, localId), es).policy;
            if k == 0 then p == Policy(true, 8.0, 0.25, 0.35) else SetsPolicy(p, es[k - 1])
  {
    hide Next, SetsInterpolation, SetsPolicy;
    if es != [] {
      var n := |es| - 1;
      NextOnSettings(Run(Cleared(c, localId), es[..n]), es[n]);
      if k <= n { LastPolicyStands(c, localId, es[..n], k); }
    }
  }

  // ---- interpolation steps -----------------------------------------------------------------------------------

  function Steps(st: Stage, n: nat): Stage {
    if n == 0 then st else Next(Steps(st, n - 1), Step)
  }

  /** After `n` steps every animating slot has been advanced `n` times and every other slot is as it was. */
  lemma {:induction false} StepsAdvance(st: Stage, n: nat)
    requires StageOk(st)
    ensures var after := Steps(st, n);
            && StageOk(after) && after == st.(scene := after.scene, driver := after.driver)
                  && |after.scene| == |st.scene|
            && forall j :: 0 <= j < |st.scene| ==>
                 after.scene[j] == if Animates(st.scene[j], st.interp) then Stepped(st.scene[j], st.interp, n)
                     else st.scene[j]
  {
    hide StageOk, StepFrom, Advanced;
    if n > 0 {
      StepsAdvance(st, n - 1);
      var before := Steps(st, n - 1);
      StepKeepsStage(before, 0);
      forall j | 0 <= j < |st.scene| ensures Animates(before.scene[j], st.interp) <==>
          Animates(st.scene[j], st.interp) {
        SteppedAnimates(st.scene[j], st.interp, n - 1);
      }
    }
  }

  lemma {:induction false} SteppedAnimates(s: Scene, interp: Interpolation, n: nat)
    ensures Animates(Stepped(s, interp, n), interp) <==> Animates(s, interp)
  {
    hide LerpVec, LerpRot;
    if n > 0 { SteppedAnimates(s, interp, n - 1); }
  }

  lemma StepsFromAreGeometric(st: Stage, n: nat, j: nat)
    requires StageOk(st) && Clamped(st) && j < |st.scene| && Animates(st.scene[j], st.interp)
    ensures var after := Steps(st, n);
            && |after.scene| == |after.driver| == |st.scene|
            && var s, t, d := st.scene[j], after.scene[j], after.driver[j];
               && t.targetAt == s.targetAt && t.targetTurn == s.targetTurn
               && LeavesOf(t.presentedAt, s.presentedAt, s.targetAt, Pow(1.0 - st.interp.positionAlpha, n))
               && LeavesOfTurn(t.presentedTurn, s.presentedTurn, s.targetTurn, Pow(1.0 - st.interp.rotationAlpha, n))
               && d.position == t.presentedAt && d.rotation == t.presentedTurn
  {
    hide Steps, Stepped, Pow, LeavesOf, LeavesOfTurn, DistinctScene, DistinctRuntime, SameLive;
    StepsAdvance(st, n);
    StepsAreGeometric(st.scene[j], st.interp, n);
    var after := Steps(st, n);
    assert Twin(after.scene[j], after.driver[j]);
    SteppedKeepsUse(st.scene[j], st.interp, n);
  }

  lemma {:induction false} SteppedKeepsUse(s: Scene, interp: Interpolation, n: nat)
    ensures Stepped(s, interp, n).inUse == s.inUse && Stepped(s, interp, n).visible == s.visible
  {
    hide LerpVec, LerpRot;
    if n > 0 { SteppedKeepsUse(s, interp, n - 1); }
  }

  // ---- repeated updates ----------------------------------------------------------------------------------------

  /** Newer and newer messages of one player that all ask for the same pose. */
  ghost predicate Insists(msgs: seq<PlayerState>, u: UpdateSpec, sequence: nat) {
    && (forall k :: 0 <= k < |msgs| ==> SpecOf(msgs[k]) == u && msgs[k].stateSequence > sequence)
    && (forall j, k :: 0 <= j < k < |msgs| ==> msgs[j].stateSequence < msgs[k].stateSequence)
  }

  lemma {:induction false} StatesPursue(st: Stage, msgs: seq<PlayerState>, u: UpdateSpec)
    requires StageOk(st) && !Ignored(st, u.id) && Live(st, u.id)
    requires Insists(msgs, u, st.runtime[HeldRuntime(st.runtime, u.id)].lastSequence)
    ensures var after := ApplyStates(st, msgs);
            var k := HeldRuntime(st.runtime, u.id);
            && StageOk(after) && after.localId == st.localId && after.policy == st.policy
            && HeldRuntime(after.runtime, u.id) == k < |after.runtime|
            && after.runtime[k].lastSequence
               == (if msgs == [] then st.runtime[k].lastSequence else msgs[|msgs| - 1].stateSequence)
            && var pose := Pursuit(st.policy, st.runtime[k].position, st.runtime[k].rotation, u, |msgs|);
               after.runtime[k].position == pose.position && after.runtime[k].rotation == pose.rotation
  {
    hide StageOk, UpdateHeld, HeldRuntime, Smoothed;
    if msgs != [] {
      var n := |msgs| - 1;
      var msg := msgs[n];
      StatesPursue(st, msgs[..n], u);
      var mid := ApplyStates(st, msgs[..n]);
      var k := HeldRuntime(st.runtime, u.id);
      assert n > 0 ==> msgs[n - 1].stateSequence < msg.stateSequence;
      UpdateKeepsStage(mid, k, msg);
      var after := ApplyStates(st, msgs);
      assert after == UpdateHeld(mid, k, msg).1;
      HeldStays(mid.runtime, k, after.runtime[k], u.id);
    }
  }

  lemma HeldStays(runtime: seq<Runtime>, k: nat, r: Runtime, id: nat)
    requires k == HeldRuntime(runtime, id) < |runtime| && r.inUse && r.id == id
    ensures HeldRuntime(runtime[k := r], id) == k
  {
    RuntimeLookupSame(runtime, runtime[k := r], id);
  }

  lemma StatesPursueGeometrically(st: Stage, msgs: seq<PlayerState>, u: UpdateSpec)
    requires StageOk(st) && Clamped(st) && !Ignored(st, u.id) && Live(st, u.id) && st.policy.enabled
    requires var r := st.runtime[HeldRuntime(st.runtime, u.id)];
             Insists(msgs, u, r.lastSequence) && !Teleports(st.policy, r.position, u.position)
    ensures var after := ApplyStates(st, msgs);
            var k := HeldRuntime(st.runtime, u.id);
            && HeldRuntime(after.runtime, u.id) == k < |after.runtime|
            && LeavesOf(after.runtime[k].position, st.runtime[k].position, u.position,
                  Pow(1.0 - st.policy.positionAlpha, |msgs|))
            && LeavesOfTurn(after.runtime[k].rotation, st.runtime[k].rotation, u.rotation,
                  Pow(1.0 - st.policy.rotationAlpha, |msgs|))
            && !Teleports(st.policy, after.runtime[k].position, u.position)
  {
    hide StageOk, HeldRuntime, ApplyStates, Pursuit, Pow, LeavesOf, LeavesOfTurn, Teleports, Insists;
    var r := st.runtime[HeldRuntime(st.runtime, u.id)];
    StatesPursue(st, msgs, u);
    PursuitIsGeometric(st.policy, r.position, r.rotation, u, |msgs|);
  }

  // ---- in every state the manager can reach ----------------------------------------------------------------------

  /** After any run of the manager, `n` interpolation steps leave exactly (1 - alpha)^n of the way between the presented
      and the target pose of every animating player, in every component; the driver shows just that. */
  lemma StageStepsAreGeometric(c: Contract, localId: nat, es: seq<Event>, n: nat, j: nat)
    requires ContractFits(c, localId)
    requires var st := Run(Cleared(c, localId), es); j < |st.scene| && Animates(st.scene[j], st.interp)
    ensures var st := Run(Cleared(c, localId), es);
            var after := Steps(st, n);
            && |after.scene| == |after.driver| == |st.scene|
            && var s, t, d := st.scene[j], after.scene[j], after.driver[j];
               && t.targetAt == s.targetAt && t.targetTurn == s.targetTurn
               && LeavesOf(t.presentedAt, s.presentedAt, s.targetAt, Pow(1.0 - st.interp.positionAlpha, n))
               && LeavesOfTurn(t.presentedTurn, s.presentedTurn, s.targetTurn, Pow(1.0 - st.interp.rotationAlpha, n))
               && d.position == t.presentedAt && d.rotation == t.presentedTurn
  {
    hide Run, Cleared, Steps, Pow, LeavesOf, LeavesOfTurn, StageOk, Clamped, Animates;
    RunKeepsStage(c, localId, es);
    RunKeepsClamped(c, localId, es);
    StepsFromAreGeometric(Run(Cleared(c, localId), es), n, j);
  }

  /** In particular those of every player on stage, unless interpolation is off or its last message was a teleport; then
      nothing moves. */
  lemma PlayerSteps(c: Contract, localId: nat, es: seq<Event>, n: nat, id: nat)
    requires ContractFits(c, localId) && Live(Run(Cleared(c, localId), es), id)
    ensures var st := Run(Cleared(c, localId), es);
            var after, j := Steps(st, n), HeldScene(st.scene, id);
            && j < |st.scene| == |after.scene| == |after.driver|
            && var s, t, d := st.scene[j], after.scene[j], after.driver[j];
               && d.position == t.presentedAt && d.rotation == t.presentedTurn
               && (if st.interp.enabled && !s.teleported
                   then LeavesOf(t.presentedAt, s.presentedAt, s.targetAt, Pow(1.0 - st.interp.positionAlpha, n))
                        && LeavesOfTurn(t.presentedTurn, s.presentedTurn, s.targetTurn,
                                        Pow(1.0 - st.interp.rotationAlpha, n))
                   else t == s)
  {
    hide Run, Cleared, Steps, Pow, LeavesOf, LeavesOfTurn, StageOk, Clamped, HeldScene, HeldRuntime, Stepped;
    var st := Run(Cleared(c, localId), es);
    RunKeepsStage(c, localId, es);
    RunKeepsClamped(c, localId, es);
    LiveIsVisible(st, id);
    StepsAdvance(st, n);
    var after, j := Steps(st, n), HeldScene(st.scene, id);
    if st.interp.enabled && !st.scene[j].teleported { StepsFromAreGeometric(st, n, j); }
    SteppedKeepsUse(st.scene[j], st.interp, n);
    ShownPose(after, j);
  }

  lemma LiveIsVisible(st: Stage, id: nat)
    requires StageOk(st) && Live(st, id)
    ensures var j := HeldScene(st.scene, id);
            j < |st.scene| && st.scene[j].inUse && st.scene[j].visible && !st.scene[j].despawned
  {
    hide First;
    LiveIsShown(st, id);
    assert Twin(st.scene[HeldScene(st.scene, id)], st.driver[HeldScene(st.scene, id)]);
  }

  lemma ShownPose(st: Stage, j: nat)
    requires StageOk(st) && j < |st.scene| && st.scene[j].inUse
    ensures |st.driver| == |st.scene|
    ensures st.driver[j].position == st.scene[j].presentedAt && st.driver[j].rotation == st.scene[j].presentedTurn
  {
    assert Twin(st.scene[j], st.driver[j]);
  }

  /** After any run of the manager, `n` newer messages that insist on a pose within teleport range leave the player's
      record exactly (1 - alpha)^n of the way short of it, in every component, and none counts as a teleport. */
  lemma StagePursuitIsGeometric(c: Contract, localId: nat, es: seq<Event>, msgs: seq<PlayerState>, u: UpdateSpec)
    requires ContractFits(c, localId) && u.id != 0 && u.id != localId
    requires var st := Run(Cleared(c, localId), es);
             && st.policy.enabled && Live(st, u.id)
             && var r := st.runtime[HeldRuntime(st.runtime, u.id)];
                Insists(msgs, u, r.lastSequence) && !Teleports(st.policy, r.position, u.position)
    ensures var st := Run(Cleared(c, localId), es);
            var after, k := ApplyStates(st, msgs), HeldRuntime(st.runtime, u.id);
            && HeldRuntime(after.runtime, u.id) == k < |after.runtime|
            && var r, t := st.runtime[k], after.runtime[k];
               && LeavesOf(t.position, r.position, u.position, Pow(1.0 - st.policy.positionAlpha, |msgs|))
               && LeavesOfTurn(t.rotation, r.rotation, u.rotation, Pow(1.0 - st.policy.rotationAlpha, |msgs|))
               && !Teleports(st.policy, t.position, u.position)
  {
    hide Run, Cleared, ApplyStates, Pow, LeavesOf, LeavesOfTurn, StageOk, Clamped, HeldRuntime, Teleports, Insists;
    RunKeepsStage(c, localId, es);
    RunKeepsClamped(c, localId, es);
    StatesPursueGeometrically(Run(Cleared(c, localId), es), msgs, u);
  }
}
