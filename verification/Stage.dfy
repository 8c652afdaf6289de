/** Remote players on the client: the runtime table, the scene table and the driver table, and the manager
    that feeds them. */
module Stage {
  import opened Slots
  import opened Protocol

  const MAX_STAGE: nat := 8

  datatype Runtime = Runtime(
    inUse: bool, id: nat, position: Vec3, rotation: Rot3, velocity: Vec3, stance: nat, animState: nat,
    equipped: nat, lastSequence: nat, lastTick: nat)

  datatype UpdateSpec = UpdateSpec(
    id: nat, position: Vec3, rotation: Rot3, velocity: Vec3, stance: nat, animState: nat, equipped: nat)

  datatype Scene = Scene(
    inUse: bool, id: nat, handle: nat, visible: bool, despawned: bool, presentedAt: Vec3, presentedTurn: Rot3,
    targetAt: Vec3, targetTurn: Rot3, pending: bool, teleported: bool, lastUpdate: UpdateSpec)

  datatype Driver = Driver(
    inUse: bool, id: nat, handle: nat, visible: bool, despawned: bool, position: Vec3, rotation: Rot3,
    velocity: Vec3, stance: nat, animState: nat, equipped: nat)

  const NO_UPDATE := UpdateSpec(0, ORIGIN, NO_TURN, ORIGIN, 0, 0, 0)
  const NO_RUNTIME := Runtime(false, 0, ORIGIN, NO_TURN, ORIGIN, 0, 0, 0, 0, 0)
  const NO_SCENE := Scene(false, 0, 0, false, false, ORIGIN, NO_TURN, ORIGIN, NO_TURN, false, false, NO_UPDATE)
  const NO_DRIVER := Driver(false, 0, 0, false, false, ORIGIN, NO_TURN, ORIGIN, 0, 0, 0)

  /** Scene interpolation and the manager's update policy; the alphas are clamped when they are set. */
  datatype Interpolation = Interpolation(enabled: bool, positionAlpha: real, rotationAlpha: real)
  datatype Policy = Policy(enabled: bool, teleportDistance: real, positionAlpha: real, rotationAlpha: real)
  datatype Contract = Contract(localId: nat, defaultForm: nat, suppressSelf: bool, requireForm: bool)

  datatype Stage = Stage(
    runtime: seq<Runtime>, scene: seq<Scene>, driver: seq<Driver>, nextHandle: nat, nextDriverHandle: nat,
    interp: Interpolation, policy: Policy, contract: Contract, localId: nat)

  // ---- slots -------------------------------------------------------------------------------------------

  function HeldRuntime(s: seq<Runtime>, id: nat): (r: nat)
    ensures r <= |s|
    ensures r < |s| ==> s[r].inUse && s[r].id == id
    ensures forall i :: 0 <= i < r ==> !(s[i].inUse && s[i].id == id)
  {
    First(s, (x: Runtime) => x.inUse && x.id == id)
  }

  function HeldScene(s: seq<Scene>, id: nat): (r: nat)
    ensures r <= |s|
    ensures r < |s| ==> s[r].inUse && s[r].id == id
    ensures forall i :: 0 <= i < r ==> !(s[i].inUse && s[i].id == id)
  {
    First(s, (x: Scene) => x.inUse && x.id == id)
  }

  function HeldDriver(s: seq<Driver>, id: nat): (r: nat)
    ensures r <= |s|
    ensures r < |s| ==> s[r].inUse && s[r].id == id
    ensures forall i :: 0 <= i < r ==> !(s[i].inUse && s[i].id == id)
  {
    First(s, (x: Driver) => x.inUse && x.id == id)
  }

  /** `find_slot` of each table: the slot of the id, else the first free one, else none. */
  function RuntimeSlot(s: seq<Runtime>, id: nat): (r: nat)
    ensures r <= |s|
    ensures HeldRuntime(s, id) < |s| ==> r == HeldRuntime(s, id)
    ensures r < |s| && s[r].inUse ==> r == HeldRuntime(s, id)
    ensures r == |s| ==> forall i :: 0 <= i < |s| ==> s[i].inUse
  {
    var i := HeldRuntime(s, id);
    if i < |s| then i else First(s, (x: Runtime) => !x.inUse)
  }

  function SceneSlot(s: seq<Scene>, id: nat): (r: nat)
    ensures r <= |s|
    ensures HeldScene(s, id) < |s| ==> r == HeldScene(s, id)
    ensures r < |s| && s[r].inUse ==> r == HeldScene(s, id)
    ensures HeldScene(s, id) == |s| ==> forall i :: 0 <= i < r ==> s[i].inUse
  {
    var i := HeldScene(s, id);
    if i < |s| then i else First(s, (x: Scene) => !x.inUse)
  }

  function DriverSlot(s: seq<Driver>, id: nat): (r: nat)
    ensures r <= |s|
    ensures HeldDriver(s, id) < |s| ==> r == HeldDriver(s, id)
    ensures r < |s| && s[r].inUse ==> r == HeldDriver(s, id)
    ensures HeldDriver(s, id) == |s| ==> forall i :: 0 <= i < r ==> s[i].inUse
  {
    var i := HeldDriver(s, id);
    if i < |s| then i else First(s, (x: Driver) => !x.inUse)
  }

  // ---- the driver ----------------------------------------------------------------------------------------

  /** The handle a driver record gets: the caller's, or a new one of the driver's own. */
  function Handle(wanted: nat, next: nat): (nat, nat) {
    if wanted != 0 then (wanted, next) else (next + 1, next + 1)
  }

  function DriverCreate(st: Stage, id: nat, handle: nat, position: Vec3, rotation: Rot3, equipped: nat): (bool, Stage) {
    var i := DriverSlot(st.driver, id);
    if id == 0 || i == |st.driver| then (false, st)
    else
      var (h, next) := Handle(handle, st.nextDriverHandle);
      (true, st.(driver := st.driver[i := Driver(true, id, h, true, false, position, rotation, ORIGIN, 0, 0, equipped)],
                 nextDriverHandle := next))
  }

  /** A move shows the actor; a record that does not exist yet is made on the spot. */
  function DriverMove(st: Stage, id: nat, handle: nat, at: Vec3, u: UpdateSpec): (bool, Stage) {
    var i := DriverSlot(st.driver, id);
    if id == 0 || i == |st.driver| then (false, st)
    else
      var (h, next) := if st.driver[i].inUse then (st.driver[i].handle, st.nextDriverHandle)
          else Handle(handle, st.nextDriverHandle);
      var d := if st.driver[i].inUse then st.driver[i] else NO_DRIVER.(inUse := true, id := id);
      (true, st.(driver := st.driver[i := d.(handle := if handle != 0 then handle else h, position := at,
                                             velocity := u.velocity,
                                             stance := u.stance, animState := u.animState, equipped := u.equipped,
                                             despawned := false, visible := true)],
                 nextDriverHandle := next))
  }

  function DriverRotate(st: Stage, id: nat, handle: nat, turn: Rot3): (bool, Stage) {
    var i := DriverSlot(st.driver, id);
    if id == 0 || i == |st.driver| then (false, st)
    else
      var (h, next) := if st.driver[i].inUse then (st.driver[i].handle, st.nextDriverHandle)
          else Handle(handle, st.nextDriverHandle);
      var d := if st.driver[i].inUse then st.driver[i] else NO_DRIVER.(inUse := true, id := id);
      (true, st.(driver := st.driver[i := d.(handle := if handle != 0 then handle else h, rotation := turn,
                                             despawned := false, visible := true)],
                 nextDriverHandle := next))
  }

  function DriverDespawn(st: Stage, id: nat): (bool, Stage) {
    var i := DriverSlot(st.driver, id);
    if id == 0 || i == |st.driver| || !st.driver[i].inUse || st.driver[i].id != id then (false, st)
    else (true, st.(driver := st.driver[i := st.driver[i].(visible := false, despawned := true)]))
  }

  // ---- the scene -----------------------------------------------------------------------------------------

  /** `sync_scene_actor_handle`. */
  function SyncHandle(st: Stage, i: nat): (r: Stage)
    requires i < |st.scene|
    ensures |r.scene| == |st.scene|
  {
    var d := HeldDriver(st.driver, st.scene[i].id);
    if d < |st.driver| && st.driver[d].handle != 0
    then st.(scene := st.scene[i := st.scene[i].(handle := st.driver[d].handle)]) else st
  }

  /** `apply_driver_presented_state`: the driver is moved and turned to what the scene presents. */
  function Present(st: Stage, i: nat, u: UpdateSpec): (r: (bool, Stage))
    requires i < |st.scene|
    ensures |r.1.scene| == |st.scene|
  {
    var s := st.scene[i];
    var (moved, st1) := DriverMove(st, s.id, s.handle, s.presentedAt, u);
    if !moved then (false, st1)
    else
      var (turned, st2) := DriverRotate(st1, s.id, s.handle, s.presentedTurn);
      if !turned then (false, st2) else (true, SyncHandle(st2, i))
  }

  /** `fpasc_build_create_spec`, for the specs the manager builds: they never name a base form. */
  predicate ContractAccepts(c: Contract, id: nat) {
    && id != 0
    && !(c.suppressSelf && c.localId != 0 && id == c.localId)
    && !(c.requireForm && c.defaultForm == 0)
  }

  /** `ensure_scene_player_from_spawn`: the scene slot is overwritten before the contract is asked. */
  function Stand(st: Stage, i: nat, id: nat, position: Vec3, rotation: Rot3, equipped: nat): (r: (bool, Stage))
    requires i < |st.scene|
    ensures |r.1.scene| == |st.scene|
  {
    var handle := st.nextHandle + 1;
    var standing := st.(nextHandle := handle,
                        scene := st.scene[i :=
                            Scene(true, id, handle, true, false, position, rotation, position, rotation, false, false,
                                NO_UPDATE)]);
    if !ContractAccepts(st.contract, id) then (false, standing)
    else
      var (made, st1) := DriverCreate(standing, id, handle, position, rotation, equipped);
      if !made then (false, st1) else (true, SyncHandle(st1, i))
  }

  function RuntimeSpawn(st: Stage, id: nat, position: Vec3, rotation: Rot3, equipped: nat): (bool, Stage) {
    var i := RuntimeSlot(st.runtime, id);
    if i == |st.runtime| then (false, st)
    else (true, st.(runtime := st.runtime[i := Runtime(true, id, position, rotation, ORIGIN, 0, 0, equipped, 0, 0)]))
  }

  /** `scene_spawn`. */
  function SceneSpawn(st: Stage, id: nat, position: Vec3, rotation: Rot3, equipped: nat): (bool, Stage) {
    var i := SceneSlot(st.scene, id);
    if i == |st.scene| then (false, st)
    else
      var (stood, st1) := Stand(st, i, id, position, rotation, equipped);
      if !stood then (false, st1) else RuntimeSpawn(st1, id, position, rotation, equipped)
  }

  predicate Unsettled(s: Scene) { s.presentedAt != s.targetAt || s.presentedTurn != s.targetTurn }

  /** How a scene slot takes a new target: at once after a teleport or without interpolation, else gradually. */
  function Retarget(s: Scene, u: UpdateSpec, interp: Interpolation): Scene {
    var t := s.(lastUpdate := u, targetAt := u.position, targetTurn := u.rotation, pending := false);
    if s.teleported || !interp.enabled then t.(presentedAt := u.position, presentedTurn := u.rotation)
    else t.(pending := Unsettled(t))
  }

  function RuntimeUpdate(st: Stage, u: UpdateSpec): (bool, Stage) {
    var i := RuntimeSlot(st.runtime, u.id);
    if i == |st.runtime| || !st.runtime[i].inUse then (false, st)
    else (true, st.(runtime := st.runtime[i :=
      st.runtime[i].(position := u.position, rotation := u.rotation, velocity := u.velocity, stance := u.stance,
                     animState := u.animState, equipped := u.equipped, lastSequence := 0, lastTick := 0)]))
  }

  /** `scene_update`. */
  function SceneUpdate(st: Stage, u: UpdateSpec): (bool, Stage) {
    var i := SceneSlot(st.scene, u.id);
    if i == |st.scene| then (false, st)
    else
      var (ready, st0) := if st.scene[i].inUse then (true, st)
          else Stand(st, i, u.id, u.position, u.rotation, u.equipped);
      if !ready then (false, st0)
      else
        var st1 := st0.(scene := st0.scene[i := Retarget(st0.scene[i], u, st0.interp)]);
        var (known, st2) := RuntimeUpdate(st1, u);
        if !known then (false, st2) else Present(st2, i, u)
  }

  /** `scene_despawn`: the scene and the driver keep their slots, the runtime frees its own. */
  function SceneDespawn(st: Stage, id: nat): (bool, Stage) {
    var i := SceneSlot(st.scene, id);
    if i == |st.scene| || !st.scene[i].inUse || st.scene[i].id != id then (false, st)
    else
      var k := RuntimeSlot(st.runtime, id);
      if k == |st.runtime| || !st.runtime[k].inUse || st.runtime[k].id != id then (false, st)
      else
        var (gone, st1) := DriverDespawn(st.(runtime := st.runtime[k := NO_RUNTIME]), id);
        if !gone then (false, st1)
        else
          var st2 := SyncHandle(st1, i);
          (true, st2.(scene := st2.scene[i := st2.scene[i].(visible := false, despawned := true)]))
  }

  /** `note_policy_result`: a teleport snaps the presented state to the previous target at once. */
  function NotePolicy(st: Stage, id: nat, teleported: bool): (r: Stage)
    ensures |r.scene| == |st.scene|
  {
    var i := SceneSlot(st.scene, id);
    if i == |st.scene| || !st.scene[i].inUse || st.scene[i].id != id then st
    else
      var s := st.scene[i].(teleported := teleported);
      if teleported then
        var snapped := s.(presentedAt := s.targetAt, presentedTurn := s.targetTurn, pending := false);
        Present(st.(scene := st.scene[i := snapped]), i, s.lastUpdate).1
      else st.(scene := st.scene[i := s.(pending := Unsettled(s))])
  }

  // ---- smoothing -------------------------------------------------------------------------------------------

  function Clamp01(v: real): real { if v < 0.0 then 0.0 else if v > 1.0 then 1.0 else v }

  function Lerp(a: real, b: real, t: real): real { a + (b - a) * t }

  function LerpVec(a: Vec3, b: Vec3, t: real): Vec3 { Vec3(Lerp(a.x, b.x, t), Lerp(a.y, b.y, t), Lerp(a.z, b.z, t)) }

  function LerpRot(a: Rot3, b: Rot3, t: real): Rot3 {
    Rot3(Lerp(a.pitch, b.pitch, t), Lerp(a.yaw, b.yaw, t), Lerp(a.roll, b.roll, t))
  }

  predicate Teleports(p: Policy, from: Vec3, to: Vec3) {
    p.enabled && DistanceSq(from, to) > p.teleportDistance * p.teleportDistance
  }

  /** `rpup_apply_player_update_ex`: the update the policy lets through. */
  function Smoothed(p: Policy, from: Vec3, turn: Rot3, u: UpdateSpec): UpdateSpec {
    if !p.enabled || Teleports(p, from, u.position) then u
    else u.(position := LerpVec(from, u.position, Clamp01(p.positionAlpha)),
            rotation := LerpRot(turn, u.rotation, Clamp01(p.rotationAlpha)))
  }

  // ---- the manager -----------------------------------------------------------------------------------------

  predicate StaleFor(r: Runtime, msg: PlayerState) {
    || (msg.stateSequence != 0 && r.lastSequence != 0 && msg.stateSequence < r.lastSequence)
    || (msg.stateSequence == r.lastSequence && msg.observedTick != 0 && r.lastTick != 0
        && msg.observedTick <= r.lastTick)
  }

  function SpecOf(msg: PlayerState): UpdateSpec {
    UpdateSpec(msg.playerId, msg.position, msg.rotation, msg.velocity, msg.stance, msg.animState, msg.equipped)
  }

  /** The manager's update of a player the runtime holds in slot `k`. */
  function UpdateHeld(st: Stage, k: nat, msg: PlayerState): (bool, Stage)
    requires k < |st.runtime|
  {
    var r := st.runtime[k];
    if StaleFor(r, msg) then (true, st)
    else
      var u := Smoothed(st.policy, r.position, r.rotation, SpecOf(msg));
      var noted := NotePolicy(st, msg.playerId, Teleports(st.policy, r.position, msg.position));
      var (ok, st1) := SceneUpdate(noted, u);
      var i := HeldRuntime(st1.runtime, msg.playerId);
      if !ok then (false, st1)
      else if i == |st1.runtime| then (true, st1)
      else (true, st1.(runtime := st1.runtime[i :=
        st1.runtime[i].(lastSequence := msg.stateSequence, lastTick := msg.observedTick)]))
  }

  predicate Ignored(st: Stage, id: nat) { id == 0 || id == st.localId }

  /** `rpm_apply_remote_player_state`. */
  function ApplyState(st: Stage, msg: PlayerState): (bool, Stage) {
    if Ignored(st, msg.playerId) then (true, st)
    else
      var k := HeldRuntime(st.runtime, msg.playerId);
      if k < |st.runtime| then UpdateHeld(st, k, msg)
      else
        var (ok, st1) := SceneSpawn(st, msg.playerId, msg.position, msg.rotation, msg.equipped);
        var j := HeldRuntime(st1.runtime, msg.playerId);
        if !ok then (false, st1)
        else if j < |st1.runtime| then UpdateHeld(st1, j, msg)
        else SceneUpdate(st1, SpecOf(msg))
  }

  lemma SpawnedIsBlank(st: Stage, id: nat, position: Vec3, rotation: Rot3, equipped: nat)
    requires HeldRuntime(st.runtime, id) == |st.runtime| && SceneSpawn(st, id, position, rotation, equipped).0
    ensures var runtime := SceneSpawn(st, id, position, rotation, equipped).1.runtime;
            var k := HeldRuntime(runtime, id);
            k < |runtime| ==> runtime[k].lastSequence == 0 && runtime[k].lastTick == 0
  {
    hide First, DriverCreate, SyncHandle;
    StandKeepsRuntime(st, SceneSlot(st.scene, id), id, position, rotation, equipped);
  }

  lemma StandKeepsRuntime(st: Stage, i: nat, id: nat, position: Vec3, rotation: Rot3, equipped: nat)
    requires i < |st.scene|
    ensures Stand(st, i, id, position, rotation, equipped).1.runtime == st.runtime
  {
  }

  /** The message is about a player on stage and is taken for stale. A player that is spawned for the message has no
      record yet, so its message is never stale. */
  predicate CountsStale(st: Stage, msg: PlayerState) {
    && !Ignored(st, msg.playerId)
    && var k := HeldRuntime(st.runtime, msg.playerId); k < |st.runtime| && StaleFor(st.runtime[k], msg)
  }

  /** `rpm_remove_remote_player`. */
  function RemovePlayer(st: Stage, id: nat): (bool, Stage) {
    if id == st.localId then (true, st) else SceneDespawn(st, id)
  }

  predicate Animates(s: Scene, interp: Interpolation) {
    s.inUse && s.visible && !s.despawned && interp.enabled && !s.teleported
  }

  function Advanced(s: Scene, interp: Interpolation): Scene {
    var t := s.(presentedAt := LerpVec(s.presentedAt, s.targetAt, interp.positionAlpha),
                presentedTurn := LerpRot(s.presentedTurn, s.targetTurn, interp.rotationAlpha));
    t.(pending := Unsettled(t))
  }

  /** One interpolation step, from slot `i` on. */
  function StepFrom(st: Stage, i: nat): (r: Stage)
    requires i <= |st.scene|
    ensures |r.scene| == |st.scene|
    decreases |st.scene| - i
  {
    if i == |st.scene| then st
    else if !Animates(st.scene[i], st.interp) then StepFrom(st, i + 1)
    else
      var s := Advanced(st.scene[i], st.interp);
      StepFrom(Present(st.(scene := st.scene[i := s]), i, s.lastUpdate).1, i + 1)
  }

  // ---- runs ------------------------------------------------------------------------------------------------

  datatype Event =
    | State(msg: PlayerState)
    | Left(id: nat)
    | Step
    | SetInterpolation(enabled: bool, positionAlpha: real, rotationAlpha: real)
    | SetPolicy(policy: Policy)

  function Next(st: Stage, e: Event): Stage {
    match e
    case State(msg) => ApplyState(st, msg).1
    case Left(id) => RemovePlayer(st, id).1
    case Step => StepFrom(st, 0)
    case SetInterpolation(enabled, p, r) => st.(interp := Interpolation(enabled, Clamp01(p), Clamp01(r)))
    case SetPolicy(p) => st.(policy := p.(positionAlpha := Clamp01(p.positionAlpha),
        rotationAlpha := Clamp01(p.rotationAlpha)))
  }

  function Run(st: Stage, es: seq<Event>): Stage {
    if es == [] then st else Next(Run(st, es[..|es| - 1]), es[|es| - 1])
  }

  /** The stage after some states, one after the other. */
  function ApplyStates(st: Stage, msgs: seq<PlayerState>): Stage {
    if msgs == [] then st else Next(ApplyStates(st, msgs[..|msgs| - 1]), State(msgs[|msgs| - 1]))
  }

  /** The tables after the runtime, the scene backend and the driver were reset. */
  function Cleared(contract: Contract, localId: nat): Stage {
    Stage(seq(MAX_STAGE, _ => NO_RUNTIME), seq(MAX_STAGE, _ => NO_SCENE), seq(MAX_STAGE, _ => NO_DRIVER), 0, 0,
          Interpolation(true, 0.25, 0.35), Policy(true, 8.0, 0.25, 0.35), contract, localId)
  }
}
