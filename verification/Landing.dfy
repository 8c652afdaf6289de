/** Where a state lands: what one message leaves in the record, the scene and the driver of its player. */
module Landing {
  import opened Slots
  import opened Protocol
  import opened Stage
  import opened StageAgreement
  import opened Smoothing
  import opened SmoothStage
  import StageRelay

  /** The message is further from the recorded position than the policy smooths over. */
  predicate Far(p: Policy, from: Vec3, to: Vec3) {
    p.enabled && Sq(from.x - to.x) + Sq(from.y - to.y) + Sq(from.z - to.z) > Sq(p.teleportDistance)
  }

  /** The record takes over everything from the message but the pose, which it approaches: a message that is far, or a
      policy that is off, puts it there at once; otherwise all but the alphas of the way is left. */
  ghost predicate RecordLands(p: Policy, r: Runtime, after: Runtime, msg: PlayerState) {
    && after.inUse && after.id == msg.playerId && after.velocity == msg.velocity && after.stance == msg.stance
    && after.animState == msg.animState && after.equipped == msg.equipped
    && after.lastSequence == msg.stateSequence && after.lastTick == msg.observedTick
    && (if !p.enabled || Far(p, r.position, msg.position)
        then after.position == msg.position && after.rotation == msg.rotation
        else
          && LeavesOf(after.position, r.position, msg.position, 1.0 - p.positionAlpha)
          && LeavesOfTurn(after.rotation, r.rotation, msg.rotation, 1.0 - p.rotationAlpha))
  }

  /** The scene aims at the record's pose. It jumps there after a far message or without interpolation, and otherwise
      goes on presenting what it did. */
  ghost predicate SceneLands(interp: Interpolation, s: Scene, after: Scene, record: Runtime, far: bool) {
    && after.inUse && after.id == s.id && after.handle == s.handle && after.visible && !after.despawned
    && after.targetAt == record.position && after.targetTurn == record.rotation && after.teleported == far
    && (if far || !interp.enabled then after.presentedAt == record.position && after.presentedTurn == record.rotation
        else after.presentedAt == s.presentedAt && after.presentedTurn == s.presentedTurn)
    && (after.pending <==> after.presentedAt != after.targetAt || after.presentedTurn != after.targetTurn)
  }

  /** The driver shows what the scene presents, and the rest of the message. */
  ghost predicate DriverLands(after: Driver, shown: Scene, msg: PlayerState) {
    && after.inUse && after.id == msg.playerId && after.handle == shown.handle && after.visible && !after.despawned
    && after.position == shown.presentedAt && after.rotation == shown.presentedTurn
    && after.velocity == msg.velocity && after.stance == msg.stance && after.animState == msg.animState
    && after.equipped == msg.equipped
  }

  /** The message landed in slot `k` of the runtime and slot `i` of scene and driver, and touched nothing else. */
  ghost predicate Lands(st: Stage, after: Stage, k: nat, i: nat, msg: PlayerState)
    requires Sized(st) && Sized(after) && k < MAX_STAGE && i < MAX_STAGE
  {
    && RecordLands(st.policy, st.runtime[k], after.runtime[k], msg)
    && SceneLands(st.interp, st.scene[i], after.scene[i], after.runtime[k],
                  Far(st.policy, st.runtime[k].position, msg.position))
    && DriverLands(after.driver[i], after.scene[i], msg)
    && after == st.(runtime := st.runtime[k := after.runtime[k]], scene := st.scene[i := after.scene[i]],
                    driver := st.driver[i := after.driver[i]])
  }

  // ---- the parts of an update ----------------------------------------------------------------------------------

  lemma SmoothedLands(p: Policy, r: Runtime, msg: PlayerState)
    requires 0.0 <= p.positionAlpha <= 1.0 && 0.0 <= p.rotationAlpha <= 1.0
    ensures var u := Smoothed(p, r.position, r.rotation, SpecOf(msg));
            && u == SpecOf(msg).(position := u.position, rotation := u.rotation)
            && (Teleports(p, r.position, msg.position) <==> Far(p, r.position, msg.position))
            && if !p.enabled || Far(p, r.position, msg.position)
               then u.position == msg.position && u.rotation == msg.rotation
               else
                 && LeavesOf(u.position, r.position, msg.position, 1.0 - p.positionAlpha)
                 && LeavesOfTurn(u.rotation, r.rotation, msg.rotation, 1.0 - p.rotationAlpha)
  {
    hide Lerp;
    LerpResidual(r.position.x, msg.position.x, p.positionAlpha);
    LerpResidual(r.position.y, msg.position.y, p.positionAlpha);
    LerpResidual(r.position.z, msg.position.z, p.positionAlpha);
    LerpResidual(r.rotation.pitch, msg.rotation.pitch, p.rotationAlpha);
    LerpResidual(r.rotation.yaw, msg.rotation.yaw, p.rotationAlpha);
    LerpResidual(r.rotation.roll, msg.rotation.roll, p.rotationAlpha);
  }

  /** What noting the policy's verdict leaves in the scene slot. */
  ghost predicate Notes(s: Scene, after: Scene, teleported: bool) {
    && after == s.(teleported := teleported, presentedAt := after.presentedAt, presentedTurn := after.presentedTurn,
                   pending := after.pending)
    && (!teleported ==> after.presentedAt == s.presentedAt && after.presentedTurn == s.presentedTurn)
  }

  lemma NoteLands(st: Stage, id: nat, teleported: bool)
    requires StageOk(st) && Live(st, id)
    ensures var after, i := NotePolicy(st, id, teleported), HeldScene(st.scene, id);
            && i < |st.scene| == |after.scene| == |st.driver| == |after.driver| && StageOk(after) && Live(after, id)
            && Notes(st.scene[i], after.scene[i], teleported)
            && after == st.(scene := st.scene[i := after.scene[i]], driver := st.driver[i := after.driver[i]])
  {
    hide Present, StageOk, First;
    NoteKeepsStage(st, id, teleported);
    LiveIsShown(st, id);
    SceneSize(st);
    var i := HeldScene(st.scene, id);
    var s := st.scene[i].(teleported := teleported);
    if teleported {
      ShownIsVisible(st, i);
      ReposeKeepsStage(st, i, s.(presentedAt := s.targetAt, presentedTurn := s.targetTurn, pending := false),
          s.lastUpdate);
    } else {
      assert st.driver == st.driver[i := st.driver[i]];
    }
  }

  lemma SceneSize(st: Stage)
    requires StageOk(st)
    ensures Sized(st)
  {
  }

  lemma ShownIsVisible(st: Stage, i: nat)
    requires StageOk(st) && i < |st.scene| && st.scene[i].inUse && st.scene[i].visible
    ensures !st.scene[i].despawned && |st.driver| == |st.scene|
    ensures st.driver[i].inUse && st.driver[i].id == st.scene[i].id && st.driver[i].handle == st.scene[i].handle
  {
    assert Twin(st.scene[i], st.driver[i]);
  }

  lemma SceneUpdateLands(st: Stage, u: UpdateSpec)
    requires StageOk(st) && Live(st, u.id)
    ensures var after, i, k := SceneUpdate(st, u).1, HeldScene(st.scene, u.id), HeldRuntime(st.runtime, u.id);
            && Sized(st) && Sized(after) && i < MAX_STAGE && k < MAX_STAGE
            && after == st.(runtime := st.runtime[k := after.runtime[k]], scene := st.scene[i := after.scene[i]],
                            driver := st.driver[i := after.driver[i]])
            && after.scene[i] == Retarget(st.scene[i], u, st.interp)
            && after.driver[i] == DriverShowing(st.driver[i], after.scene[i], u)
            && after.runtime[k] == st.runtime[k].(
                 position := u.position, rotation := u.rotation, velocity := u.velocity, stance := u.stance,
                 animState := u.animState, equipped := u.equipped, lastSequence := 0, lastTick := 0)
  {
    hide Present, StageOk, First;
    SceneSize(st);
    LiveIsShown(st, u.id);
    var i, k := HeldScene(st.scene, u.id), HeldRuntime(st.runtime, u.id);
    ShownIsVisible(st, i);
    var r := RuntimeUpdate(st, u).1.runtime[k];
    RuntimeTouchKeepsStage(st, k, r);
    ReposeKeepsStage(st.(runtime := st.runtime[k := r]), i, Retarget(st.scene[i], u, st.interp), u);
  }

  lemma UpdateLands(st: Stage, msg: PlayerState)
    requires StageOk(st) && Clamped(st) && Live(st, msg.playerId)
    requires !StaleFor(st.runtime[HeldRuntime(st.runtime, msg.playerId)], msg)
    ensures var k, i := HeldRuntime(st.runtime, msg.playerId), HeldScene(st.scene, msg.playerId);
            var after := UpdateHeld(st, k, msg).1;
            && Sized(st) && Sized(after) && k < MAX_STAGE && i < MAX_STAGE && StageOk(after)
            && Lands(st, after, k, i, msg)
  {
    hide Present, StageOk, First, NotePolicy, SceneUpdate, Smoothed, Teleports, Far, LeavesOf, LeavesOfTurn;
    var id := msg.playerId;
    var k, i := HeldRuntime(st.runtime, id), HeldScene(st.scene, id);
    var r := st.runtime[k];
    SceneSize(st);
    UpdateKeepsStage(st, k, msg);
    SmoothedLands(st.policy, r, msg);
    var u := Smoothed(st.policy, r.position, r.rotation, SpecOf(msg));
    var far := Teleports(st.policy, r.position, msg.position);
    NoteLands(st, id, far);
    var noted := NotePolicy(st, id, far);
    SceneLookupSame(st.scene, noted.scene, id);
    LiveIsShown(noted, id);
    ShownIsVisible(noted, i);
    SceneUpdateKeepsStage(noted, u);
    SceneUpdateLands(noted, u);
    var st1 := SceneUpdate(noted, u).1;
    RuntimeLookupSame(st.runtime, st1.runtime, id);
  }

  // ---- one state ---------------------------------------------------------------------------------------------------

  /** A state that is not stale lands, whatever the stage did before: near messages move the record by the alphas, and a
      far one, or any one while the policy is off, puts it where the message says. After a far one scene and driver show
      it there at once and nothing is pending. */
  lemma StateLands(c: Contract, localId: nat, es: seq<Event>, msg: PlayerState)
    requires ContractFits(c, localId) && msg.playerId != 0 && msg.playerId != localId
    requires var st := Run(Cleared(c, localId), es);
             && Live(st, msg.playerId)
             && !StaleFor(st.runtime[HeldRuntime(st.runtime, msg.playerId)], msg)
    ensures var st := Run(Cleared(c, localId), es);
            var after, k, i := Next(st, State(msg)), HeldRuntime(st.runtime, msg.playerId),
                HeldScene(st.scene, msg.playerId);
            && Sized(st) && Sized(after) && k < MAX_STAGE && i < MAX_STAGE && Lands(st, after, k, i, msg)
  {
    hide Run, Cleared, StageOk, UpdateHeld, Lands, Clamped, StaleFor;
    RunKeepsStage(c, localId, es);
    RunKeepsClamped(c, localId, es);
    UpdateLands(Run(Cleared(c, localId), es), msg);
  }

  /** The far case spelled out. */
  lemma FarStateShowsAtOnce(c: Contract, localId: nat, es: seq<Event>, msg: PlayerState)
    requires ContractFits(c, localId) && msg.playerId != 0 && msg.playerId != localId
    requires var st := Run(Cleared(c, localId), es);
             && Live(st, msg.playerId)
             && var r := st.runtime[HeldRuntime(st.runtime, msg.playerId)];
                !StaleFor(r, msg) && Far(st.policy, r.position, msg.position)
    ensures var st := Run(Cleared(c, localId), es);
            var after, k, i := Next(st, State(msg)), HeldRuntime(st.runtime, msg.playerId),
                HeldScene(st.scene, msg.playerId);
            && Sized(after) && k < MAX_STAGE && i < MAX_STAGE
            && var r, s, d := after.runtime[k], after.scene[i], after.driver[i];
               && r.position == s.targetAt == s.presentedAt == d.position == msg.position
               && r.rotation == s.targetTurn == s.presentedTurn == d.rotation == msg.rotation
               && !s.pending
  {
    hide Run, Cleared, StaleFor, Next, HeldRuntime, HeldScene, Far;
    StateLands(c, localId, es, msg);
  }

  /** A message is counted as stale if and only if its player is on stage and has shown a newer state, or the same one
      from that tick or a later one. It then changes nothing. */
  lemma StaleIff(st: Stage, msg: PlayerState)
    ensures CountsStale(st, msg) <==>
              && msg.playerId != 0 && msg.playerId != st.localId && Live(st, msg.playerId)
              && var r := st.runtime[HeldRuntime(st.runtime, msg.playerId)];
                 || 0 < msg.stateSequence < r.lastSequence
                 || (msg.stateSequence == r.lastSequence && 0 < msg.observedTick <= r.lastTick)
    ensures CountsStale(st, msg) ==> ApplyState(st, msg) == (true, st)
  {
    hide First;
  }

  // ---- a player's first state ------------------------------------------------------------------------------------

  /** A first state, or the first after a departure, puts the player on stage just where the message says, in all three
      tables, if there is room. */
  lemma FirstStateLands(c: Contract, localId: nat, es: seq<Event>, msg: PlayerState)
    requires ContractFits(c, localId) && msg.playerId != 0 && msg.playerId != localId
    requires var st := Run(Cleared(c, localId), es);
             !Live(st, msg.playerId) && StageRelay.HasRoom(st, msg.playerId)
    ensures var after := Next(Run(Cleared(c, localId), es), State(msg));
            var k, i := HeldRuntime(after.runtime, msg.playerId), HeldScene(after.scene, msg.playerId);
            && Sized(after) && k < MAX_STAGE && i < MAX_STAGE
            && var r, s, d := after.runtime[k], after.scene[i], after.driver[i];
               && r.position == s.targetAt == s.presentedAt == d.position == msg.position
               && r.rotation == s.targetTurn == s.presentedTurn == d.rotation == msg.rotation
               && r.velocity == d.velocity == msg.velocity && r.stance == d.stance == msg.stance
               && r.animState == d.animState == msg.animState && r.equipped == d.equipped == msg.equipped
               && s.visible && d.visible && !s.pending
  {
    hide Run, Cleared, StageOk, UpdateHeld, Clamped, SceneSpawn, First, SceneUpdate;
    RunKeepsStage(c, localId, es);
    RunKeepsClamped(c, localId, es);
    var st := Run(Cleared(c, localId), es);
    var id := msg.playerId;
    SpawnKeepsStage(st, id, msg.position, msg.rotation, msg.equipped);
    SpawnedSlots(st, msg);
    var st1 := SceneSpawn(st, id, msg.position, msg.rotation, msg.equipped).1;
    UpdateLands(st1, msg);
    var k, i := HeldRuntime(st1.runtime, id), HeldScene(st1.scene, id);
    var after := UpdateHeld(st1, k, msg).1;
    RuntimeLookupSame(st1.runtime, after.runtime, id);
    SceneLookupSame(st1.scene, after.scene, id);
    NearIsNotFar(st1.policy, msg.position);
    NothingLeft(after.runtime[k].position, msg.position, 1.0 - st1.policy.positionAlpha);
    NothingLeftToTurn(after.runtime[k].rotation, msg.rotation, 1.0 - st1.policy.rotationAlpha);
  }

  lemma SpawnedSlots(st: Stage, msg: PlayerState)
    requires StageOk(st) && Clamped(st) && !Live(st, msg.playerId) && ContractAccepts(st.contract, msg.playerId)
    requires StageRelay.HasRoom(st, msg.playerId)
    ensures var st1 := SceneSpawn(st, msg.playerId, msg.position, msg.rotation, msg.equipped).1;
            var k, i := HeldRuntime(st1.runtime, msg.playerId), HeldScene(st1.scene, msg.playerId);
            && StageOk(st1) && Clamped(st1) && k < |st1.runtime| && i < |st1.scene|
            && st1.runtime[k].position == msg.position && st1.runtime[k].rotation == msg.rotation
            && !StaleFor(st1.runtime[k], msg)
            && st1.scene[i].presentedAt == msg.position && st1.scene[i].presentedTurn == msg.rotation
  {
    hide StageOk, First, Stand;
    var id := msg.playerId;
    SceneSize(st);
    SpawnKeepsStage(st, id, msg.position, msg.rotation, msg.equipped);
    StandMatches(st, id, msg.position, msg.rotation, msg.equipped);
    RoomInScene(st, id);
    var st1 := SceneSpawn(st, id, msg.position, msg.rotation, msg.equipped).1;
    var k, i := RuntimeSlot(st.runtime, id), SceneSlot(st.scene, id);
    StageRelay.Distinctness(st1);
    StageRelay.OwnSlotFound(st.runtime, k, st1.runtime[k]);
    SceneDistinct(st1);
    SceneIndex(st1.scene, st1.nextHandle, i);
  }

  lemma SceneDistinct(st: Stage)
    requires StageOk(st)
    ensures DistinctScene(st.scene, st.nextHandle)
  {
  }

  lemma NearIsNotFar(p: Policy, at: Vec3)
    ensures !Far(p, at, at)
  {
    assert Sq(p.teleportDistance) >= 0.0;
  }

  lemma NothingLeft(p: Vec3, at: Vec3, f: real)
    requires LeavesOf(p, at, at, f)
    ensures p == at
  {
  }

  lemma NothingLeftToTurn(p: Rot3, at: Rot3, f: real)
    requires LeavesOfTurn(p, at, at, f)
    ensures p == at
  {
  }
}
