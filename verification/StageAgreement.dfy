/** The three player tables of the client agree in every run in which the spawn contract accepts. */
module StageAgreement {
  import opened Slots
  import opened Protocol
  import opened Stage

  // ---- the invariant -----------------------------------------------------------------------------------

  /** A scene slot and the driver slot with the same index speak of the same actor. */
  ghost predicate SameActor(s: Scene, d: Driver) {
    s.inUse == d.inUse && (s.inUse ==> s.id == d.id && s.id != 0 && s.handle == d.handle && s.handle != 0)
  }

  /** ... and the driver shows it exactly as the scene presents it. */
  ghost predicate Twin(s: Scene, d: Driver) {
    && SameActor(s, d)
    && (s.inUse ==>
          && s.visible == d.visible == !s.despawned == !d.despawned
          && s.presentedAt == d.position && s.presentedTurn == d.rotation
          && (s.pending <==> Unsettled(s)))
  }

  ghost predicate DistinctScene(scene: seq<Scene>, next: nat) {
    && (forall i, j :: 0 <= i < j < |scene| && scene[i].inUse && scene[j].inUse ==>
          scene[i].id != scene[j].id && scene[i].handle != scene[j].handle)
    && (forall i :: 0 <= i < |scene| && scene[i].inUse ==> scene[i].handle <= next)
  }

  ghost predicate DistinctRuntime(runtime: seq<Runtime>) {
    forall i, j :: 0 <= i < j < |runtime| && runtime[i].inUse && runtime[j].inUse ==> runtime[i].id != runtime[j].id
  }

  predicate Live(st: Stage, id: nat) { HeldRuntime(st.runtime, id) < |st.runtime| }

  predicate Shown(scene: seq<Scene>, id: nat) {
    var i := HeldScene(scene, id); i < |scene| && scene[i].visible
  }

  predicate Driven(st: Stage, id: nat) {
    var i := HeldDriver(st.driver, id); i < |st.driver| && st.driver[i].visible
  }

  function LiveCount(runtime: seq<Runtime>): nat { Count(runtime, (r: Runtime) => r.inUse) }
  function ShownCount(scene: seq<Scene>): nat { Count(scene, (s: Scene) => s.inUse && s.visible) }

  ghost predicate Sized(st: Stage) { |st.runtime| == |st.scene| == |st.driver| == MAX_STAGE }

  ghost predicate Twins(scene: seq<Scene>, driver: seq<Driver>)
    requires |scene| == |driver|
  {
    forall i :: 0 <= i < |scene| ==> Twin(scene[i], driver[i])
  }

  ghost predicate SameActors(scene: seq<Scene>, driver: seq<Driver>)
    requires |scene| == |driver|
  {
    forall i :: 0 <= i < |scene| ==> SameActor(scene[i], driver[i])
  }

  /** Live in the runtime is visible in the scene, as sets and as counts. */
  ghost predicate SameLive(runtime: seq<Runtime>, scene: seq<Scene>) {
    && (forall id: nat :: HeldRuntime(runtime, id) < |runtime| <==> Shown(scene, id))
    && LiveCount(runtime) == ShownCount(scene)
  }

  ghost predicate StageOk(st: Stage) {
    && Sized(st) && Twins(st.scene, st.driver) && DistinctScene(st.scene, st.nextHandle)
    && DistinctRuntime(st.runtime) && SameLive(st.runtime, st.scene)
  }

  // ---- presenting ----------------------------------------------------------------------------------------

  lemma SlotsCoincide(scene: seq<Scene>, driver: seq<Driver>, id: nat)
    requires |scene| == |driver| && SameActors(scene, driver)
    ensures HeldScene(scene, id) == HeldDriver(driver, id) && SceneSlot(scene, id) == DriverSlot(driver, id)
  {
    var i, j := HeldScene(scene, id), HeldDriver(driver, id);
    assert i < |scene| ==> SameActor(scene[i], driver[i]);
    assert j < |driver| ==> SameActor(scene[j], driver[j]);
    var a, b := SceneSlot(scene, id), DriverSlot(driver, id);
    assert a < |scene| ==> SameActor(scene[a], driver[a]);
    assert b < |driver| ==> SameActor(scene[b], driver[b]);
  }

  lemma TwinsAreSame(scene: seq<Scene>, driver: seq<Driver>)
    requires |scene| == |driver| && Twins(scene, driver)
    ensures SameActors(scene, driver)
  {
    forall j | 0 <= j < |scene| ensures SameActor(scene[j], driver[j]) { assert Twin(scene[j], driver[j]); }
  }

  lemma SceneIndex(scene: seq<Scene>, next: nat, i: nat)
    requires DistinctScene(scene, next) && i < |scene| && scene[i].inUse
    ensures HeldScene(scene, scene[i].id) == i
  {
  }

  /** The driver record that presents a scene slot. */
  function DriverShowing(d: Driver, s: Scene, u: UpdateSpec): Driver {
    d.(position := s.presentedAt, rotation := s.presentedTurn, velocity := u.velocity, stance := u.stance,
       animState := u.animState, equipped := u.equipped, despawned := false, visible := true)
  }

  /** Presenting a slot succeeds and changes only the driver record with the same index. */
  lemma PresentMatches(st: Stage, i: nat, u: UpdateSpec)
    requires Sized(st) && SameActors(st.scene, st.driver) && DistinctScene(st.scene, st.nextHandle)
    requires i < |st.scene| && st.scene[i].inUse
    ensures Present(st, i, u) == (true, st.(driver := st.driver[i := DriverShowing(st.driver[i], st.scene[i], u)]))
  {
    var s := st.scene[i];
    assert SameActor(s, st.driver[i]);
    SceneIndex(st.scene, st.nextHandle, i);
    SlotsCoincide(st.scene, st.driver, s.id);
    var st1 := DriverMove(st, s.id, s.handle, s.presentedAt, u).1;
    assert st1.driver == st.driver[i := st1.driver[i]];
    assert SameActors(st1.scene, st1.driver) by {
      forall j | 0 <= j < |st.scene| ensures SameActor(st1.scene[j], st1.driver[j]) {
        assert SameActor(st.scene[j], st.driver[j]);
      }
    }
    SlotsCoincide(st1.scene, st1.driver, s.id);
    var st2 := DriverRotate(st1, s.id, s.handle, s.presentedTurn).1;
    assert st2.driver == st.driver[i := DriverShowing(st.driver[i], s, u)];
    assert SameActors(st2.scene, st2.driver) by {
      forall j | 0 <= j < |st.scene| ensures SameActor(st2.scene[j], st2.driver[j]) {
        assert SameActor(st.scene[j], st.driver[j]);
      }
    }
    SlotsCoincide(st2.scene, st2.driver, s.id);
    assert st2.scene[i := st2.scene[i].(handle := st2.driver[i].handle)] == st2.scene;
  }

  /** The slot shows the same actor, still visible, in another pose. */
  ghost predicate Repose(s: Scene, t: Scene) {
    && t.inUse && s.inUse && t.id == s.id && t.handle == s.handle
    && t.visible && s.visible && !t.despawned
    && (t.pending <==> Unsettled(t))
  }

  /** Lookups depend on ids and use only. */
  lemma SceneLookupSame(a: seq<Scene>, b: seq<Scene>, id: nat)
    requires |a| == |b| && forall i :: 0 <= i < |a| ==> a[i].inUse == b[i].inUse && a[i].id == b[i].id
    ensures HeldScene(a, id) == HeldScene(b, id)
  {
    var i, j := HeldScene(a, id), HeldScene(b, id);
    assert i < |a| ==> b[i].inUse && b[i].id == id;
    assert j < |b| ==> a[j].inUse && a[j].id == id;
  }

  lemma DriverLookupSame(a: seq<Driver>, b: seq<Driver>, id: nat)
    requires |a| == |b| && forall i :: 0 <= i < |a| ==> a[i].inUse == b[i].inUse && a[i].id == b[i].id
    ensures HeldDriver(a, id) == HeldDriver(b, id)
  {
    var i, j := HeldDriver(a, id), HeldDriver(b, id);
    assert i < |a| ==> b[i].inUse && b[i].id == id;
    assert j < |b| ==> a[j].inUse && a[j].id == id;
  }

  lemma RuntimeLookupSame(a: seq<Runtime>, b: seq<Runtime>, id: nat)
    requires |a| == |b| && forall i :: 0 <= i < |a| ==> a[i].inUse == b[i].inUse && a[i].id == b[i].id
    ensures HeldRuntime(a, id) == HeldRuntime(b, id)
  {
    var i, j := HeldRuntime(a, id), HeldRuntime(b, id);
    assert i < |a| ==> b[i].inUse && b[i].id == id;
    assert j < |b| ==> a[j].inUse && a[j].id == id;
  }

  lemma ReposeKeepsScene(scene: seq<Scene>, next: nat, runtime: seq<Runtime>, i: nat, t: Scene)
    requires DistinctScene(scene, next) && SameLive(runtime, scene) && i < |scene| && Repose(scene[i], t)
    ensures DistinctScene(scene[i := t], next) && SameLive(runtime, scene[i := t])
  {
    var after := scene[i := t];
    forall id: nat ensures Shown(after, id) <==> Shown(scene, id) {
      SceneLookupSame(scene, after, id);
    }
    CountUpdate(scene, i, t, (s: Scene) => s.inUse && s.visible);
  }

  /** Changing the pose of a visible slot and presenting it keeps the invariant. */
  lemma ReposeKeepsStage(st: Stage, i: nat, t: Scene, u: UpdateSpec)
    requires StageOk(st) && i < |st.scene| && Repose(st.scene[i], t)
    ensures var posed := st.(scene := st.scene[i := t]);
            var r := Present(posed, i, u);
            && r.0 && StageOk(r.1)
            && |st.driver| == |st.scene|
            && r.1 == posed.(driver := st.driver[i := DriverShowing(st.driver[i], t, u)])
  {
    var posed := st.(scene := st.scene[i := t]);
    ReposeKeepsScene(st.scene, st.nextHandle, st.runtime, i, t);
    assert SameActors(posed.scene, posed.driver) by {
      forall j | 0 <= j < |st.scene| ensures SameActor(posed.scene[j], posed.driver[j]) {
        assert Twin(st.scene[j], st.driver[j]);
      }
    }
    PresentMatches(posed, i, u);
    var after := Present(posed, i, u).1;
    forall j | 0 <= j < |st.scene| ensures Twin(after.scene[j], after.driver[j]) {
      assert Twin(st.scene[j], st.driver[j]);
    }
  }

  lemma RuntimeTouchKeepsStage(st: Stage, k: nat, r: Runtime)
    requires StageOk(st) && k < |st.runtime| && r.inUse && st.runtime[k].inUse && r.id == st.runtime[k].id
    ensures StageOk(st.(runtime := st.runtime[k := r]))
  {
    var after := st.runtime[k := r];
    forall id: nat ensures HeldRuntime(after, id) == HeldRuntime(st.runtime, id) {
      RuntimeLookupSame(st.runtime, after, id);
    }
    CountUpdate(st.runtime, k, r, (x: Runtime) => x.inUse);
  }

  // ---- spawning ------------------------------------------------------------------------------------------

  /** If every runtime slot is taken, every scene slot is visible: there is no slot for another id. */
  lemma RoomInScene(st: Stage, id: nat)
    requires StageOk(st) && !Live(st, id) && SceneSlot(st.scene, id) < |st.scene|
    ensures RuntimeSlot(st.runtime, id) < |st.runtime|
  {
    if RuntimeSlot(st.runtime, id) == |st.runtime| {
      FullRuntime(st.runtime);
      var i := SceneSlot(st.scene, id);
      assert !Shown(st.scene, id);
      CountMiss(st.scene, (s: Scene) => s.inUse && s.visible, i);
    }
  }

  lemma {:induction false} FullRuntime(runtime: seq<Runtime>)
    requires forall i :: 0 <= i < |runtime| ==> runtime[i].inUse
    ensures LiveCount(runtime) == |runtime|
  {
    if runtime != [] { FullRuntime(runtime[..|runtime| - 1]); }
  }

  function NewScene(id: nat, handle: nat, position: Vec3, rotation: Rot3): Scene {
    Scene(true, id, handle, true, false, position, rotation, position, rotation, false, false, NO_UPDATE)
  }

  /** An accepted spawn writes the scene slot and the driver slot with the same index. */
  lemma StandMatches(st: Stage, id: nat, position: Vec3, rotation: Rot3, equipped: nat)
    requires StageOk(st) && ContractAccepts(st.contract, id)
    requires SceneSlot(st.scene, id) < |st.scene|
    ensures var i := SceneSlot(st.scene, id);
            var h := st.nextHandle + 1;
            Stand(st, i, id, position, rotation, equipped)
            == (true, st.(nextHandle := h, scene := st.scene[i := NewScene(id, h, position, rotation)],
                          driver := st.driver[i :=
                              Driver(true, id, h, true, false, position, rotation, ORIGIN, 0, 0, equipped)]))
  {
    var i := SceneSlot(st.scene, id);
    var h := st.nextHandle + 1;
    TwinsAreSame(st.scene, st.driver);
    SlotsCoincide(st.scene, st.driver, id);
    var scene := st.scene[i := NewScene(id, h, position, rotation)];
    var driver := st.driver[i := Driver(true, id, h, true, false, position, rotation, ORIGIN, 0, 0, equipped)];
    assert SameActors(scene, driver) by {
      forall j | 0 <= j < |scene| ensures SameActor(scene[j], driver[j]) {
        assert SameActor(st.scene[j], st.driver[j]);
      }
    }
    assert HeldDriver(driver, id) == i by {
      assert forall j :: 0 <= j < i ==> !(st.driver[j].inUse && st.driver[j].id == id);
      assert forall j :: 0 <= j < i ==> driver[j] == st.driver[j];
    }
    assert scene[i := scene[i].(handle := h)] == scene;
  }

  /** Filling one runtime slot and one scene slot for a new id keeps live and shown the same. */
  lemma SpawnKeepsLive(st: Stage, i: nat, k: nat, id: nat, s: Scene, r: Runtime)
    requires StageOk(st) && !Live(st, id) && i == SceneSlot(st.scene, id) < |st.scene|
               && k == RuntimeSlot(st.runtime, id) < |st.runtime|
    requires s.inUse && s.visible && s.id == id && r.inUse && r.id == id
    ensures SameLive(st.runtime[k := r], st.scene[i := s])
  {
    hide Twins, DistinctScene, DistinctRuntime;
    var scene, runtime := st.scene[i := s], st.runtime[k := r];
    assert !Shown(st.scene, id);
    forall x: nat ensures HeldRuntime(runtime, x) < |runtime| <==> Shown(scene, x) {
      if x == id {
        assert runtime[k].inUse && runtime[k].id == id;
        assert scene[i].inUse && scene[i].id == id;
        assert forall j :: 0 <= j < i ==> scene[j] == st.scene[j];
        assert HeldScene(scene, id) == i;
      } else {
        SceneOthersSame(st.scene, i, s, x);
        RuntimeOthersSame(st.runtime, k, r, x);
      }
    }
    CountUpdate(st.scene, i, s, (x: Scene) => x.inUse && x.visible);
    CountUpdate(st.runtime, k, r, (x: Runtime) => x.inUse);
  }

  lemma SpawnKeepsDistinct(st: Stage, i: nat, k: nat, id: nat, s: Scene, r: Runtime)
    requires StageOk(st) && !Live(st, id) && i == SceneSlot(st.scene, id) < |st.scene|
               && k == RuntimeSlot(st.runtime, id) < |st.runtime|
    requires s.inUse && s.id == id && s.handle == st.nextHandle + 1 && r.inUse && r.id == id
    ensures DistinctScene(st.scene[i := s], st.nextHandle + 1) && DistinctRuntime(st.runtime[k := r])
  {
    hide SameLive, Twins;
    assert forall j :: 0 <= j < |st.scene| && j != i ==> !(st.scene[j].inUse && st.scene[j].id == id);
  }

  /** Writing one slot does not disturb what other ids find. */
  lemma SceneOthersSame(scene: seq<Scene>, i: nat, s: Scene, x: nat)
    requires i < |scene| && (scene[i].inUse ==> scene[i].id != x) && (s.inUse ==> s.id != x)
    ensures Shown(scene[i := s], x) <==> Shown(scene, x)
  {
    var after := scene[i := s];
    var a, b := HeldScene(scene, x), HeldScene(after, x);
    assert a < |scene| ==> after[a] == scene[a];
    assert b < |after| ==> after[b] == scene[b];
  }

  lemma RuntimeOthersSame(runtime: seq<Runtime>, k: nat, r: Runtime, x: nat)
    requires k < |runtime| && (runtime[k].inUse ==> runtime[k].id != x) && (r.inUse ==> r.id != x)
    ensures HeldRuntime(runtime[k := r], x) < |runtime| <==> HeldRuntime(runtime, x) < |runtime|
  {
    var after := runtime[k := r];
    var a, b := HeldRuntime(runtime, x), HeldRuntime(after, x);
    assert a < |runtime| ==> after[a] == runtime[a];
    assert b < |after| ==> after[b] == runtime[b];
  }

  /** A spawn that the contract accepts either finds no scene slot and changes nothing, or adds the player to all
      three tables. */
  lemma SpawnKeepsStage(st: Stage, id: nat, position: Vec3, rotation: Rot3, equipped: nat)
    requires StageOk(st) && !Live(st, id) && ContractAccepts(st.contract, id)
    ensures var (ok, after) := SceneSpawn(st, id, position, rotation, equipped);
            && StageOk(after) && (ok <==> SceneSlot(st.scene, id) < |st.scene|) && (ok ==> Live(after, id))
            && (!ok ==> after == st)
            && (ok ==> after.runtime == RuntimeSpawn(st, id, position, rotation, equipped).1.runtime)
            && after.contract == st.contract && after.localId == st.localId
  {
    hide First, SameLive, DistinctRuntime, DistinctScene;
    var i := SceneSlot(st.scene, id);
    if i < |st.scene| {
      StandMatches(st, id, position, rotation, equipped);
      RoomInScene(st, id);
      var k := RuntimeSlot(st.runtime, id);
      var after := SceneSpawn(st, id, position, rotation, equipped).1;
      SpawnKeepsLive(st, i, k, id, after.scene[i], after.runtime[k]);
      SpawnKeepsDistinct(st, i, k, id, after.scene[i], after.runtime[k]);
      forall j | 0 <= j < |st.scene| ensures Twin(after.scene[j], after.driver[j]) {
        assert Twin(st.scene[j], st.driver[j]);
      }
      assert after.runtime[k].inUse && after.runtime[k].id == id;
    }
  }

  // ---- updating ------------------------------------------------------------------------------------------

  /** A live player has a visible scene slot. */
  lemma LiveIsShown(st: Stage, id: nat)
    requires StageOk(st) && Live(st, id)
    ensures Shown(st.scene, id) && SceneSlot(st.scene, id) == HeldScene(st.scene, id)
  {
    assert HeldRuntime(st.runtime, id) < |st.runtime| <==> Shown(st.scene, id);
  }

  lemma NoteKeepsStage(st: Stage, id: nat, teleported: bool)
    requires StageOk(st) && Live(st, id)
    ensures var after := NotePolicy(st, id, teleported);
            StageOk(after) && after == st.(scene := after.scene, driver := after.driver)
  {
    LiveIsShown(st, id);
    var i := HeldScene(st.scene, id);
    assert Twin(st.scene[i], st.driver[i]);
    var s := st.scene[i].(teleported := teleported);
    if teleported {
      ReposeKeepsStage(st, i, s.(presentedAt := s.targetAt, presentedTurn := s.targetTurn, pending := false),
          s.lastUpdate);
    } else {
      var t := s.(pending := Unsettled(s));
      ReposeKeepsScene(st.scene, st.nextHandle, st.runtime, i, t);
      forall j | 0 <= j < |st.scene| ensures Twin(st.scene[i := t][j], st.driver[j]) {
        assert Twin(st.scene[j], st.driver[j]);
      }
    }
  }

  lemma SceneUpdateKeepsStage(st: Stage, u: UpdateSpec)
    requires StageOk(st) && Live(st, u.id)
    ensures var (ok, after) := SceneUpdate(st, u);
            && ok && StageOk(after) && Live(after, u.id) && after.contract == st.contract && after.localId == st.localId
            && after.runtime == RuntimeUpdate(st, u).1.runtime && after.policy == st.policy
  {
    hide Present;
    LiveIsShown(st, u.id);
    var i, k := HeldScene(st.scene, u.id), HeldRuntime(st.runtime, u.id);
    assert Twin(st.scene[i], st.driver[i]);
    var t := Retarget(st.scene[i], u, st.interp);
    var r := RuntimeUpdate(st, u).1.runtime[k];
    RuntimeTouchKeepsStage(st, k, r);
    ReposeKeepsStage(st.(runtime := st.runtime[k := r]), i, t, u);
    var after := SceneUpdate(st, u).1;
    assert after.runtime == st.runtime[k := r];
    RuntimeLookupSame(st.runtime, after.runtime, u.id);
  }

  /** The runtime record of the message's player remembers the message and carries its equipment. */
  predicate Noted(r: Runtime, msg: PlayerState) {
    && r.inUse && r.id == msg.playerId && r.lastSequence == msg.stateSequence && r.lastTick == msg.observedTick
    && r.equipped == msg.equipped
  }

  lemma UpdateKeepsStage(st: Stage, k: nat, msg: PlayerState)
    requires StageOk(st) && Live(st, msg.playerId) && k == HeldRuntime(st.runtime, msg.playerId)
    ensures var (ok, after) := UpdateHeld(st, k, msg);
            && ok && StageOk(after) && after.contract == st.contract && after.localId == st.localId
                  && after.policy == st.policy
            && (if StaleFor(st.runtime[k], msg) then after == st
                else
                  && |after.runtime| == |st.runtime| && after.runtime == st.runtime[k := after.runtime[k]]
                  && Noted(after.runtime[k], msg)
                  && var u := Smoothed(st.policy, st.runtime[k].position, st.runtime[k].rotation, SpecOf(msg));
                     after.runtime[k].position == u.position && after.runtime[k].rotation == u.rotation)
  {
    hide SceneUpdate, NotePolicy, StageOk, Teleports, LerpVec, LerpRot;
    var r := st.runtime[k];
    if !StaleFor(r, msg) {
      var u := Smoothed(st.policy, r.position, r.rotation, SpecOf(msg));
      var teleported := Teleports(st.policy, r.position, msg.position);
      NoteKeepsStage(st, msg.playerId, teleported);
      var noted := NotePolicy(st, msg.playerId, teleported);
      SceneUpdateKeepsStage(noted, u);
      var st1 := SceneUpdate(noted, u).1;
      RuntimeLookupSame(st.runtime, st1.runtime, msg.playerId);
      var i := HeldRuntime(st1.runtime, msg.playerId);
      RuntimeTouchKeepsStage(st1, i, st1.runtime[i].(lastSequence := msg.stateSequence, lastTick := msg.observedTick));
    }
  }

  // ---- one state message: exactly when agreement survives --------------------------------------------------

  /** The message makes the manager spawn a player that the contract refuses. */
  predicate Refused(st: Stage, msg: PlayerState) {
    && !Ignored(st, msg.playerId) && !Live(st, msg.playerId)
    && SceneSlot(st.scene, msg.playerId) < |st.scene|
    && !ContractAccepts(st.contract, msg.playerId)
  }

  lemma AcceptedStateKeepsStage(st: Stage, msg: PlayerState)
    requires StageOk(st) && !Refused(st, msg)
    ensures var after := ApplyState(st, msg).1;
            StageOk(after) && after.contract == st.contract && after.localId == st.localId
  {
    hide UpdateHeld, StageOk, SceneUpdate;
    if !Ignored(st, msg.playerId) {
      if Live(st, msg.playerId) {
        UpdateKeepsStage(st, HeldRuntime(st.runtime, msg.playerId), msg);
      } else if SceneSlot(st.scene, msg.playerId) < |st.scene| {
        SpawnKeepsStage(st, msg.playerId, msg.position, msg.rotation, msg.equipped);
        var st1 := SceneSpawn(st, msg.playerId, msg.position, msg.rotation, msg.equipped).1;
        UpdateKeepsStage(st1, HeldRuntime(st1.runtime, msg.playerId), msg);
      }
    }
  }

  /** A refused spawn leaves the player visible in the scene, unknown to the runtime and the driver. */
  lemma RefusedStateDisagrees(st: Stage, msg: PlayerState)
    requires StageOk(st) && Refused(st, msg)
    ensures var after := ApplyState(st, msg).1;
            Shown(after.scene, msg.playerId) && !Live(after, msg.playerId) && !Driven(after, msg.playerId)
  {
    AgreementOf(st, msg.playerId, msg.playerId);
    var i := SceneSlot(st.scene, msg.playerId);
    var after := ApplyState(st, msg).1;
    assert after.scene[i].inUse && after.scene[i].id == msg.playerId && after.scene[i].visible;
    assert forall j :: 0 <= j < i ==> after.scene[j] == st.scene[j];
    assert HeldScene(after.scene, msg.playerId) == i;
  }

  /** Applying a state keeps the three tables in agreement if and only if it does not provoke a refused spawn. */
  lemma StateKeepsAgreementIff(st: Stage, msg: PlayerState)
    requires StageOk(st)
    ensures StageOk(ApplyState(st, msg).1) <==> !Refused(st, msg)
  {
    hide ApplyState;
    if Refused(st, msg) {
      RefusedStateDisagrees(st, msg);
      var after := ApplyState(st, msg).1;
      assert Shown(after.scene, msg.playerId) && !(HeldRuntime(after.runtime, msg.playerId) < |after.runtime|);
    } else {
      AcceptedStateKeepsStage(st, msg);
    }
  }

  // ---- removal and interpolation -----------------------------------------------------------------------------

  /** Removing a live player hides its scene and driver slots and frees its runtime slot. */
  lemma DespawnMatches(st: Stage, id: nat)
    requires StageOk(st) && Live(st, id)
    ensures var i, k := HeldScene(st.scene, id), HeldRuntime(st.runtime, id);
            && i < |st.scene|
            && SceneDespawn(st, id)
               == (true, st.(scene := st.scene[i := st.scene[i].(visible := false, despawned := true)],
                             driver := st.driver[i := st.driver[i].(visible := false, despawned := true)],
                             runtime := st.runtime[k := NO_RUNTIME]))
  {
    LiveIsShown(st, id);
    var i := HeldScene(st.scene, id);
    TwinsAreSame(st.scene, st.driver);
    SlotsCoincide(st.scene, st.driver, id);
    assert SameActor(st.scene[i], st.driver[i]);
    var d := st.driver[i].(visible := false, despawned := true);
    DriverLookupSame(st.driver, st.driver[i := d], id);
    assert st.scene[i := st.scene[i].(handle := d.handle)] == st.scene;
  }

  /** Removing a player that is not live changes nothing. */
  lemma DespawnUnknown(st: Stage, id: nat)
    requires !Live(st, id)
    ensures SceneDespawn(st, id) == (false, st)
  {
    var k := RuntimeSlot(st.runtime, id);
    assert k == |st.runtime| || !st.runtime[k].inUse;
  }

  lemma DespawnKeepsStage(st: Stage, id: nat)
    requires StageOk(st)
    ensures var (ok, after) := SceneDespawn(st, id);
            && StageOk(after) && (ok <==> Live(st, id)) && !Live(after, id)
            && after.contract == st.contract && after.localId == st.localId
  {
    hide SceneDespawn, SameLive, DistinctRuntime;
    if Live(st, id) {
      LiveIsShown(st, id);
      DespawnMatches(st, id);
      var i, k := HeldScene(st.scene, id), HeldRuntime(st.runtime, id);
      RemovalKeepsLive(st.runtime, st.scene, k, i, id);
      var after := SceneDespawn(st, id).1;
      forall j | 0 <= j < |st.scene| ensures Twin(after.scene[j], after.driver[j]) {
        assert Twin(st.scene[j], st.driver[j]);
      }
    } else {
      DespawnUnknown(st, id);
    }
  }

  lemma RemovalKeepsLive(runtime: seq<Runtime>, scene: seq<Scene>, k: nat, i: nat, id: nat)
    requires SameLive(runtime, scene) && DistinctRuntime(runtime) && Shown(scene, id)
    requires i == HeldScene(scene, id) && k == HeldRuntime(runtime, id) < |runtime|
    ensures SameLive(runtime[k := NO_RUNTIME], scene[i := scene[i].(visible := false, despawned := true)])
    ensures HeldRuntime(runtime[k := NO_RUNTIME], id) == |runtime|
    ensures DistinctRuntime(runtime[k := NO_RUNTIME])
  {
    var r, s := runtime[k := NO_RUNTIME], scene[i := scene[i].(visible := false, despawned := true)];
    assert forall j :: 0 <= j < |r| ==> !(r[j].inUse && r[j].id == id);
    forall x: nat ensures HeldRuntime(r, x) < |r| <==> Shown(s, x) {
      SceneLookupSame(scene, s, x);
      if x != id {
        RuntimeOthersSame(runtime, k, NO_RUNTIME, x);
        assert HeldRuntime(runtime, x) < |runtime| <==> Shown(scene, x);
      }
    }
    CountUpdate(scene, i, s[i], (x: Scene) => x.inUse && x.visible);
    CountUpdate(runtime, k, NO_RUNTIME, (x: Runtime) => x.inUse);
  }

  /** An interpolation step advances exactly the slots that animate. */
  lemma {:induction false} StepKeepsStage(st: Stage, i: nat)
    requires StageOk(st) && i <= |st.scene|
    ensures var after := StepFrom(st, i);
            && StageOk(after) && after == st.(scene := after.scene, driver := after.driver)
            && forall j :: 0 <= j < |st.scene| ==>
                 after.scene[j] == if i <= j && Animates(st.scene[j], st.interp) then Advanced(st.scene[j], st.interp)
                     else st.scene[j]
    decreases |st.scene| - i
  {
    hide Present, LerpVec, LerpRot;
    if i < |st.scene| {
      if Animates(st.scene[i], st.interp) {
        var s := Advanced(st.scene[i], st.interp);
        ReposeKeepsStage(st, i, s, s.lastUpdate);
        StepKeepsStage(Present(st.(scene := st.scene[i := s]), i, s.lastUpdate).1, i + 1);
      } else {
        StepKeepsStage(st, i + 1);
      }
    }
  }

  // ---- whole runs ----------------------------------------------------------------------------------------------

  /** A contract that wants a base form and has none refuses every player, so the first message breaks the agreement. */
  lemma RefusalIsReachable(c: Contract, localId: nat, msg: PlayerState)
    requires c.requireForm && c.defaultForm == 0 && msg.playerId != 0 && msg.playerId != localId
    ensures var st := Cleared(c, localId); Refused(st, msg) && !StageOk(ApplyState(st, msg).1)
  {
    hide StageOk, ApplyState;
    ClearedIsOk(c, localId);
    StateKeepsAgreementIff(Cleared(c, localId), msg);
  }

  /** The contract never refuses a player the manager does not ignore. */
  predicate ContractFits(c: Contract, localId: nat) {
    && (c.suppressSelf ==> c.localId == 0 || c.localId == localId)
    && !(c.requireForm && c.defaultForm == 0)
  }

  /** The contract fits if and only if it refuses nobody but the local player and nobody at all. */
  lemma FitsIffRefusesNobody(c: Contract, localId: nat)
    ensures ContractFits(c, localId) <==> forall id: nat :: id != 0 && id != localId ==> ContractAccepts(c, id)
  {
    if c.suppressSelf && c.localId != 0 && c.localId != localId {
      assert !ContractAccepts(c, c.localId);
    } else if c.requireForm && c.defaultForm == 0 {
      assert !ContractAccepts(c, localId + 1);
    }
  }

  lemma NextKeepsStage(st: Stage, e: Event)
    requires StageOk(st) && ContractFits(st.contract, st.localId)
    ensures var after := Next(st, e); StageOk(after) && after.contract == st.contract && after.localId == st.localId
  {
    hide ApplyState, SceneDespawn, StepFrom;
    match e {
      case State(msg) => AcceptedStateKeepsStage(st, msg);
      case Left(id) => DespawnKeepsStage(st, id);
      case Step => StepKeepsStage(st, 0);
      case _ =>
    }
  }

  lemma ClearedIsOk(c: Contract, localId: nat)
    ensures StageOk(Cleared(c, localId))
  {
    var st := Cleared(c, localId);
    CountZero(st.runtime, (r: Runtime) => r.inUse);
    CountZero(st.scene, (s: Scene) => s.inUse && s.visible);
  }

  lemma {:induction false} RunFromKeepsStage(st: Stage, es: seq<Event>)
    requires StageOk(st) && ContractFits(st.contract, st.localId)
    ensures var after := Run(st, es); StageOk(after) && after.contract == st.contract && after.localId == st.localId
  {
    hide StageOk, Next;
    if es != [] {
      RunFromKeepsStage(st, es[..|es| - 1]);
      NextKeepsStage(Run(st, es[..|es| - 1]), es[|es| - 1]);
    }
  }

  lemma RunKeepsStage(c: Contract, localId: nat, es: seq<Event>)
    requires ContractFits(c, localId)
    ensures var st := Run(Cleared(c, localId), es); StageOk(st) && st.contract == c && st.localId == localId
  {
    hide StageOk, Run, Cleared;
    ClearedIsOk(c, localId);
    ClearedConfig(c, localId);
    RunFromKeepsStage(Cleared(c, localId), es);
  }

  lemma ClearedConfig(c: Contract, localId: nat)
    ensures Cleared(c, localId).contract == c && Cleared(c, localId).localId == localId
  {
  }

  /** In every run the same players are live in the runtime, visible in the scene and visible in the driver; for each,
      scene and driver agree on handle and pose, no two share a handle, and interpolation is pending exactly when the
      presented pose differs from the target. */
  lemma TablesAgree(c: Contract, localId: nat, es: seq<Event>, id: nat, other: nat)
    requires ContractFits(c, localId)
    ensures var st := Run(Cleared(c, localId), es);
            && (Live(st, id) <==> Shown(st.scene, id)) && (Shown(st.scene, id) <==> Driven(st, id))
            && (Live(st, id) ==>
                  && HeldDriver(st.driver, id) == HeldScene(st.scene, id) < |st.scene|
                  && var s, d := st.scene[HeldScene(st.scene, id)], st.driver[HeldDriver(st.driver, id)];
                     && s.handle == d.handle && s.presentedAt == d.position && s.presentedTurn == d.rotation
                     && (s.pending <==> Unsettled(s)))
            && (Live(st, id) && Live(st, other) && id != other ==>
                  && HeldScene(st.scene, id) < |st.scene| && HeldScene(st.scene, other) < |st.scene|
                  && st.scene[HeldScene(st.scene, id)].handle != st.scene[HeldScene(st.scene, other)].handle)
  {
    RunKeepsStage(c, localId, es);
    var st := Run(Cleared(c, localId), es);
    AgreementOf(st, id, other);
  }

  lemma AgreementOf(st: Stage, id: nat, other: nat)
    requires StageOk(st)
    ensures Live(st, id) <==> Shown(st.scene, id)
    ensures Live(st, other) <==> Shown(st.scene, other)
    ensures Shown(st.scene, id) <==> Driven(st, id)
    ensures HeldDriver(st.driver, id) == HeldScene(st.scene, id)
    ensures var i := HeldScene(st.scene, id); i < |st.scene| ==> Twin(st.scene[i], st.driver[i])
    ensures var i, j := HeldScene(st.scene, id), HeldScene(st.scene, other);
            i < |st.scene| && j < |st.scene| && i != j ==> st.scene[i].handle != st.scene[j].handle
  {
    TwinsAreSame(st.scene, st.driver);
    SlotsCoincide(st.scene, st.driver, id);
    assert HeldRuntime(st.runtime, id) < |st.runtime| <==> Shown(st.scene, id);
    assert HeldRuntime(st.runtime, other) < |st.runtime| <==> Shown(st.scene, other);
    var i := HeldScene(st.scene, id);
    assert i < |st.scene| ==> Twin(st.scene[i], st.driver[i]);
  }
}
