/** The client's remote-player manager, scene backend and driver as they mutate their tables.
    Every method is proved against the stage functions. */
module StageManager {
  import opened Slots
  import opened Protocol
  import opened Stage

  class Manager {
    const contract: Contract
    const localId: nat
    var runtime: seq<Runtime>
    var scene: seq<Scene>
    var driver: seq<Driver>
    var nextHandle: nat
    var nextDriverHandle: nat
    var interp: Interpolation
    var policy: Policy
    var rejectedStale: nat

    ghost function View(): Stage
      reads this
    {
      Stage(runtime, scene, driver, nextHandle, nextDriverHandle, interp, policy, contract, localId)
    }

    constructor (contract: Contract, localId: nat)
      ensures View() == Cleared(contract, localId) && rejectedStale == 0
    {
      this.contract, this.localId := contract, localId;
      runtime := seq(MAX_STAGE, _ => NO_RUNTIME);
      scene := seq(MAX_STAGE, _ => NO_SCENE);
      driver := seq(MAX_STAGE, _ => NO_DRIVER);
      nextHandle, nextDriverHandle := 0, 0;
      rejectedStale := 0;
      interp, policy := Interpolation(true, 0.25, 0.35), Policy(true, 8.0, 0.25, 0.35);
    }

    method FindSceneSlot(id: nat) returns (i: nat)
      ensures i == SceneSlot(scene, id)
    {
      i := FirstMatch(scene, (x: Scene) => x.inUse && x.id == id);
      if i == |scene| { i := FirstMatch(scene, (x: Scene) => !x.inUse); }
    }

    method FindDriverSlot(id: nat) returns (i: nat)
      ensures i == DriverSlot(driver, id)
    {
      i := FirstMatch(driver, (x: Driver) => x.inUse && x.id == id);
      if i == |driver| { i := FirstMatch(driver, (x: Driver) => !x.inUse); }
    }

    method FindRuntimeSlot(id: nat) returns (i: nat)
      ensures i == RuntimeSlot(runtime, id)
    {
      i := FirstMatch(runtime, (x: Runtime) => x.inUse && x.id == id);
      if i == |runtime| { i := FirstMatch(runtime, (x: Runtime) => !x.inUse); }
    }

    // ---- driver commands -----------------------------------------------------------------------------

    method CreateActor(id: nat, handle: nat, position: Vec3, rotation: Rot3, equipped: nat) returns (ok: bool)
      modifies this`driver, this`nextDriverHandle
      ensures (ok, View()) == DriverCreate(old(View()), id, handle, position, rotation, equipped)
    {
      if id == 0 { return false; }
      var i := FindDriverSlot(id);
      if i == |driver| { return false; }
      var h := handle;
      if h == 0 {
        nextDriverHandle := nextDriverHandle + 1;
        h := nextDriverHandle;
      }
      driver := driver[i := Driver(true, id, h, true, false, position, rotation, ORIGIN, 0, 0, equipped)];
      ok := true;
    }

    /** The record in slot `i`, made on the spot if the slot is free. */
    method Summon(i: nat, id: nat, handle: nat)
      requires i < |driver|
      modifies this`driver, this`nextDriverHandle
      ensures |driver| == |old(driver)| && driver == old(driver)[i := driver[i]]
      ensures if old(driver)[i].inUse then driver == old(driver) && nextDriverHandle == old(nextDriverHandle)
              else var (h, next) := Handle(handle, old(nextDriverHandle));
                   driver[i] == NO_DRIVER.(inUse := true, visible := true, id := id, handle := h)
                       && nextDriverHandle == next
    {
      if !driver[i].inUse {
        var h := handle;
        if h == 0 {
          nextDriverHandle := nextDriverHandle + 1;
          h := nextDriverHandle;
        }
        driver := driver[i := NO_DRIVER.(inUse := true, visible := true, id := id, handle := h)];
      }
    }

    method MoveActor(id: nat, handle: nat, at: Vec3, u: UpdateSpec) returns (ok: bool)
      modifies this`driver, this`nextDriverHandle
      ensures (ok, View()) == DriverMove(old(View()), id, handle, at, u)
    {
      if id == 0 { return false; }
      var i := FindDriverSlot(id);
      if i == |driver| { return false; }
      Summon(i, id, handle);
      driver := driver[i := driver[i].(position := at, velocity := u.velocity, stance := u.stance,
                                       animState := u.animState, equipped := u.equipped)];
      if handle != 0 { driver := driver[i := driver[i].(handle := handle)]; }
      driver := driver[i := driver[i].(despawned := false, visible := true)];
      assert driver == old(driver)[i := driver[i]];
      ok := true;
    }

    method TurnActor(id: nat, handle: nat, turn: Rot3) returns (ok: bool)
      modifies this`driver, this`nextDriverHandle
      ensures (ok, View()) == DriverRotate(old(View()), id, handle, turn)
    {
      if id == 0 { return false; }
      var i := FindDriverSlot(id);
      if i == |driver| { return false; }
      Summon(i, id, handle);
      driver := driver[i := driver[i].(rotation := turn)];
      if handle != 0 { driver := driver[i := driver[i].(handle := handle)]; }
      driver := driver[i := driver[i].(despawned := false, visible := true)];
      assert driver == old(driver)[i := driver[i]];
      ok := true;
    }

    method HideActor(id: nat) returns (ok: bool)
      modifies this`driver
      ensures (ok, View()) == DriverDespawn(old(View()), id)
    {
      if id == 0 { return false; }
      var i := FindDriverSlot(id);
      if i == |driver| || !driver[i].inUse || driver[i].id != id { return false; }
      driver := driver[i := driver[i].(visible := false, despawned := true)];
      ok := true;
    }

    // ---- scene ---------------------------------------------------------------------------------------

    method SyncSlot(i: nat)
      requires i < |scene|
      modifies this`scene
      ensures View() == SyncHandle(old(View()), i)
    {
      var id := scene[i].id;
      var d := FirstMatch(driver, (x: Driver) => x.inUse && x.id == id);
      if d < |driver| && driver[d].handle != 0 {
        scene := scene[i := scene[i].(handle := driver[d].handle)];
      }
    }

    method PresentSlot(i: nat, u: UpdateSpec) returns (ok: bool)
      requires i < |scene|
      modifies this`driver, this`nextDriverHandle, this`scene
      ensures (ok, View()) == Present(old(View()), i, u)
    {
      hide DriverMove, DriverRotate, SyncHandle;
      var s := scene[i];
      ok := MoveActor(s.id, s.handle, s.presentedAt, u);
      if !ok { return; }
      ok := TurnActor(s.id, s.handle, s.presentedTurn);
      if !ok { return; }
      SyncSlot(i);
    }

    method StandUp(i: nat, id: nat, position: Vec3, rotation: Rot3, equipped: nat) returns (ok: bool)
      requires i < |scene|
      modifies this`driver, this`nextDriverHandle, this`scene, this`nextHandle
      ensures (ok, View()) == Stand(old(View()), i, id, position, rotation, equipped)
    {
      hide DriverCreate, SyncHandle;
      nextHandle := nextHandle + 1;
      var handle := nextHandle;
      scene := scene[i := Scene(true, id, handle, true, false, position, rotation, position, rotation, false, false,
          NO_UPDATE)];
      if !ContractAccepts(contract, id) { return false; }
      ok := CreateActor(id, handle, position, rotation, equipped);
      if !ok { return; }
      SyncSlot(i);
    }

    method SpawnRuntime(id: nat, position: Vec3, rotation: Rot3, equipped: nat) returns (ok: bool)
      modifies this`runtime
      ensures (ok, View()) == RuntimeSpawn(old(View()), id, position, rotation, equipped)
    {
      var i := FindRuntimeSlot(id);
      if i == |runtime| { return false; }
      runtime := runtime[i := Runtime(true, id, position, rotation, ORIGIN, 0, 0, equipped, 0, 0)];
      ok := true;
    }

    method SpawnPlayer(id: nat, position: Vec3, rotation: Rot3, equipped: nat) returns (ok: bool)
      modifies this`runtime, this`driver, this`nextDriverHandle, this`scene, this`nextHandle
      ensures (ok, View()) == SceneSpawn(old(View()), id, position, rotation, equipped)
    {
      hide Stand, RuntimeSpawn;
      var i := FindSceneSlot(id);
      if i == |scene| { return false; }
      ok := StandUp(i, id, position, rotation, equipped);
      if !ok { return; }
      ok := SpawnRuntime(id, position, rotation, equipped);
    }

    method UpdateRuntime(u: UpdateSpec) returns (ok: bool)
      modifies this`runtime
      ensures (ok, View()) == RuntimeUpdate(old(View()), u)
    {
      var i := FindRuntimeSlot(u.id);
      if i == |runtime| || !runtime[i].inUse { return false; }
      runtime := runtime[i := runtime[i].(position := u.position, rotation := u.rotation, velocity := u.velocity,
                                          stance := u.stance, animState := u.animState, equipped := u.equipped,
                                          lastSequence := 0, lastTick := 0)];
      ok := true;
    }

    method UpdatePlayer(u: UpdateSpec) returns (ok: bool)
      modifies this`runtime, this`driver, this`nextDriverHandle, this`scene, this`nextHandle
      ensures (ok, View()) == SceneUpdate(old(View()), u)
    {
      hide Stand, RuntimeUpdate, Present;
      var i := FindSceneSlot(u.id);
      if i == |scene| { return false; }
      if !scene[i].inUse {
        ok := StandUp(i, u.id, u.position, u.rotation, u.equipped);
        if !ok { return; }
      }
      scene := scene[i := Retarget(scene[i], u, interp)];
      ok := UpdateRuntime(u);
      if !ok { return; }
      ok := PresentSlot(i, u);
    }

    method DespawnPlayer(id: nat) returns (ok: bool)
      modifies this`runtime, this`driver, this`scene
      ensures (ok, View()) == SceneDespawn(old(View()), id)
    {
      hide DriverDespawn, SyncHandle;
      var i := FindSceneSlot(id);
      if i == |scene| || !scene[i].inUse || scene[i].id != id { return false; }
      var k := FindRuntimeSlot(id);
      if k == |runtime| || !runtime[k].inUse || runtime[k].id != id { return false; }
      runtime := runtime[k := NO_RUNTIME];
      ok := HideActor(id);
      if !ok { return; }
      SyncSlot(i);
      assert i < |View().scene|;
      scene := scene[i := scene[i].(visible := false, despawned := true)];
    }

    method NoteResult(id: nat, teleported: bool)
      modifies this`driver, this`nextDriverHandle, this`scene
      ensures View() == NotePolicy(old(View()), id, teleported)
    {
      hide Present;
      var i := FindSceneSlot(id);
      if i == |scene| || !scene[i].inUse || scene[i].id != id { return; }
      scene := scene[i := scene[i].(teleported := teleported)];
      if teleported {
        scene := scene[i := scene[i].(presentedAt := scene[i].targetAt,
            presentedTurn := scene[i].targetTurn, pending := false)];
        assert scene == old(scene)[i := scene[i]];
        var _ := PresentSlot(i, scene[i].lastUpdate);
      } else {
        scene := scene[i := scene[i].(pending := Unsettled(scene[i]))];
        assert scene == old(scene)[i := scene[i]];
      }
    }

    // ---- manager -------------------------------------------------------------------------------------

    method UpdateKnown(k: nat, msg: PlayerState) returns (ok: bool)
      requires k < |runtime|
      modifies this`runtime, this`driver, this`nextDriverHandle, this`scene, this`nextHandle, this`rejectedStale
      ensures (ok, View()) == UpdateHeld(old(View()), k, msg)
      ensures rejectedStale == old(rejectedStale) + (if StaleFor(old(runtime)[k], msg) then 1 else 0)
    {
      hide NotePolicy, SceneUpdate, Teleports, LerpVec, LerpRot;
      if StaleFor(runtime[k], msg) {
        rejectedStale := rejectedStale + 1;
        return true;
      }
      var u := Smoothed(policy, runtime[k].position, runtime[k].rotation, SpecOf(msg));
      NoteResult(msg.playerId, Teleports(policy, runtime[k].position, msg.position));
      ok := UpdatePlayer(u);
      if !ok { return; }
      var i := FirstMatch(runtime, (x: Runtime) => x.inUse && x.id == msg.playerId);
      if i < |runtime| {
        runtime := runtime[i := runtime[i].(lastSequence := msg.stateSequence, lastTick := msg.observedTick)];
      }
    }

    /** `rpm_apply_remote_player_state`, with its count of stale messages. */
    method OnState(msg: PlayerState) returns (ok: bool)
      modifies this`runtime, this`driver, this`nextDriverHandle, this`scene, this`nextHandle, this`rejectedStale
      ensures (ok, View()) == ApplyState(old(View()), msg)
      ensures rejectedStale == old(rejectedStale) + (if CountsStale(old(View()), msg) then 1 else 0)
    {
      hide UpdateHeld, SceneSpawn, SceneUpdate;
      if msg.playerId == 0 || msg.playerId == localId { return true; }
      var k := FirstMatch(runtime, (x: Runtime) => x.inUse && x.id == msg.playerId);
      if k == |runtime| {
        ok := SpawnPlayer(msg.playerId, msg.position, msg.rotation, msg.equipped);
        if !ok { return; }
        SpawnedIsBlank(old(View()), msg.playerId, msg.position, msg.rotation, msg.equipped);
        k := FirstMatch(runtime, (x: Runtime) => x.inUse && x.id == msg.playerId);
        if k == |runtime| {
          ok := UpdatePlayer(SpecOf(msg));
          return;
        }
      }
      ok := UpdateKnown(k, msg);
    }

    method OnLeft(id: nat) returns (ok: bool)
      modifies this`runtime, this`driver, this`scene
      ensures (ok, View()) == RemovePlayer(old(View()), id)
    {
      if id == localId { return true; }
      ok := DespawnPlayer(id);
    }

    /** `fo4_scene_proxy_backend_stub_step`. */
    method OnStep()
      modifies this`driver, this`nextDriverHandle, this`scene
      ensures View() == StepFrom(old(View()), 0)
    {
      hide Present, Advanced;
      var i := 0;
      while i < |scene|
        invariant i <= |scene|
        invariant StepFrom(View(), i) == StepFrom(old(View()), 0)
      {
        if Animates(scene[i], interp) {
          scene := scene[i := Advanced(scene[i], interp)];
          ghost var posed := View();
          var _ := PresentSlot(i, scene[i].lastUpdate);
          assert |View().scene| == |posed.scene|;
        }
        i := i + 1;
      }
    }
  }
}
