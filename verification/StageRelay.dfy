/** Convergence on the client: over every run of the manager, a player's record follows its own messages only. */
module StageRelay {
  import opened Slots
  import opened Protocol
  import opened Stage
  import opened StageAgreement
  import Convergence
  import Movement

  /** The sequence and tick the runtime remembers of a player. */
  function RecordOf(st: Stage, id: nat): Convergence.Record
    requires Live(st, id)
  {
    var r := st.runtime[HeldRuntime(st.runtime, id)];
    Convergence.Record(r.lastSequence, r.lastTick)
  }

  /** What an event means to the record of one player. */
  function RecordAfter(r: Convergence.Record, e: Event, id: nat): Convergence.Record {
    if e.State? && e.msg.playerId == id then Convergence.Recorded(r, e.msg) else r
  }

  // ---- writing one runtime slot ------------------------------------------------------------------------------

  lemma OtherSlotUntouched(runtime: seq<Runtime>, k: nat, r: Runtime, id: nat)
    requires k < |runtime| && (runtime[k].inUse ==> runtime[k].id != id) && (r.inUse ==> r.id != id)
    requires HeldRuntime(runtime, id) < |runtime|
    ensures HeldRuntime(runtime[k := r], id) == HeldRuntime(runtime, id)
    ensures runtime[k := r][HeldRuntime(runtime, id)] == runtime[HeldRuntime(runtime, id)]
  {
    hide First;
    var after := runtime[k := r];
    var i, j := HeldRuntime(runtime, id), HeldRuntime(after, id);
    assert i != k && after[i] == runtime[i];
    assert j != k && after[j] == runtime[j];
  }

  lemma OwnSlotFound(runtime: seq<Runtime>, k: nat, r: Runtime)
    requires k < |runtime| && DistinctRuntime(runtime[k := r]) && r.inUse
    ensures HeldRuntime(runtime[k := r], r.id) == k
  {
    hide First;
    assert runtime[k := r][k] == r;
  }

  lemma SpawnRecord(st: Stage, msg: PlayerState)
    requires StageOk(st) && !Live(st, msg.playerId) && ContractAccepts(st.contract, msg.playerId)
    requires SceneSlot(st.scene, msg.playerId) < |st.scene|
    ensures var after := SceneSpawn(st, msg.playerId, msg.position, msg.rotation, msg.equipped).1;
            && StageOk(after) && Live(after, msg.playerId) && RecordOf(after, msg.playerId) == Convergence.NEW_RECORD
            && forall id :: id != msg.playerId && Live(st, id) ==>
                  Live(after, id) && RecordOf(after, id) == RecordOf(st, id)
  {
    hide First, StageOk, SceneSpawn;
    var after := SceneSpawn(st, msg.playerId, msg.position, msg.rotation, msg.equipped).1;
    SpawnKeepsStage(st, msg.playerId, msg.position, msg.rotation, msg.equipped);
    RoomInScene(st, msg.playerId);
    var k := RuntimeSlot(st.runtime, msg.playerId);
    Distinctness(after);
    OwnSlotFound(st.runtime, k, after.runtime[k]);
    forall id | id != msg.playerId && Live(st, id) ensures Live(after, id) && RecordOf(after, id) == RecordOf(st, id) {
      OtherSlotUntouched(st.runtime, k, after.runtime[k], id);
    }
  }

  lemma Distinctness(st: Stage)
    requires StageOk(st)
    ensures DistinctRuntime(st.runtime)
  {
  }

  lemma UpdateRecord(st: Stage, msg: PlayerState, id: nat)
    requires StageOk(st) && Live(st, msg.playerId) && Live(st, id)
    ensures var after := UpdateHeld(st, HeldRuntime(st.runtime, msg.playerId), msg).1;
            StageOk(after) && Live(after, id) && RecordOf(after, id) == RecordAfter(RecordOf(st, id), State(msg), id)
  {
    hide First, StageOk, UpdateHeld, DistinctRuntime;
    var k := HeldRuntime(st.runtime, msg.playerId);
    var after := UpdateHeld(st, k, msg).1;
    UpdateKeepsStage(st, k, msg);
    if !StaleFor(st.runtime[k], msg) {
      Distinctness(after);
      if id == msg.playerId {
        OwnSlotFound(st.runtime, k, after.runtime[k]);
      } else {
        OtherSlotUntouched(st.runtime, k, after.runtime[k], id);
      }
    }
  }

  // ---- one event -----------------------------------------------------------------------------------------------

  lemma StateOnRecord(st: Stage, msg: PlayerState, id: nat)
    requires StageOk(st) && ContractFits(st.contract, st.localId) && !Ignored(st, id) && Live(st, id)
    ensures var after := ApplyState(st, msg).1;
            Live(after, id) && RecordOf(after, id) == RecordAfter(RecordOf(st, id), State(msg), id)
  {
    hide First, StageOk, UpdateHeld, SceneSpawn, SceneUpdate;
    var from := msg.playerId;
    if !Ignored(st, from) {
      if Live(st, from) {
        UpdateRecord(st, msg, id);
      } else {
        SpawnKeepsStage(st, from, msg.position, msg.rotation, msg.equipped);
        if SceneSlot(st.scene, from) < |st.scene| {
          SpawnRecord(st, msg);
          UpdateRecord(SceneSpawn(st, from, msg.position, msg.rotation, msg.equipped).1, msg, id);
        }
      }
    }
  }

  /** The first message of a player that finds room puts it on stage with that message noted. */
  lemma FirstMessage(st: Stage, msg: PlayerState)
    requires StageOk(st) && ContractFits(st.contract, st.localId) && !Ignored(st, msg.playerId)
    requires !Live(st, msg.playerId) && SceneSlot(st.scene, msg.playerId) < |st.scene|
    ensures var after := ApplyState(st, msg).1;
            Live(after, msg.playerId) && RecordOf(after, msg.playerId)
                == Convergence.Recorded(Convergence.NEW_RECORD, msg)
  {
    hide First, StageOk, UpdateHeld, SceneSpawn, SceneUpdate;
    SpawnKeepsStage(st, msg.playerId, msg.position, msg.rotation, msg.equipped);
    SpawnRecord(st, msg);
    UpdateRecord(SceneSpawn(st, msg.playerId, msg.position, msg.rotation, msg.equipped).1, msg, msg.playerId);
  }

  lemma LeftOnRecord(st: Stage, gone: nat, id: nat)
    requires StageOk(st) && Live(st, id) && gone != id
    ensures var after := SceneDespawn(st, gone).1; Live(after, id) && RecordOf(after, id) == RecordOf(st, id)
  {
    hide First, StageOk, SceneDespawn;
    if Live(st, gone) {
      DespawnMatches(st, gone);
      OtherSlotUntouched(st.runtime, HeldRuntime(st.runtime, gone), NO_RUNTIME, id);
    } else {
      DespawnUnknown(st, gone);
    }
  }

  /** Any event but its own departure does to a player's record exactly what it means to it. */
  lemma NextOnRecord(st: Stage, e: Event, id: nat)
    requires StageOk(st) && ContractFits(st.contract, st.localId) && !Ignored(st, id) && Live(st, id) && e != Left(id)
    ensures Live(Next(st, e), id) && RecordOf(Next(st, e), id) == RecordAfter(RecordOf(st, id), e, id)
  {
    hide First, StageOk, ApplyState, SceneDespawn, StepFrom, ContractFits;
    match e {
      case State(msg) => StateOnRecord(st, msg, id);
      case Left(gone) => LeftOnRecord(st, gone, id);
      case Step => StepKeepsStage(st, 0);
      case _ =>
    }
  }

  /** Nothing but its own state puts a player on stage. */
  lemma NextKeepsAbsent(st: Stage, e: Event, id: nat)
    requires StageOk(st) && ContractFits(st.contract, st.localId) && !Ignored(st, id) && !Live(st, id)
    requires !(e.State? && e.msg.playerId == id)
    ensures !Live(Next(st, e), id)
  {
    hide First, StageOk, ApplyState, SceneDespawn, StepFrom, ContractFits;
    match e {
      case State(msg) => OthersStateKeepsAbsent(st, msg, id);
      case Left(gone) =>
        DespawnKeepsStage(st, gone);
        if gone != id && Live(st, gone) {
          DespawnMatches(st, gone);
          RuntimeOthersSame(st.runtime, HeldRuntime(st.runtime, gone), NO_RUNTIME, id);
        } else {
          DespawnUnknown(st, gone);
        }
      case Step => StepKeepsStage(st, 0);
      case _ =>
    }
  }

  lemma OthersStateKeepsAbsent(st: Stage, msg: PlayerState, id: nat)
    requires StageOk(st) && ContractFits(st.contract, st.localId) && !Live(st, id) && msg.playerId != id
    ensures !Live(ApplyState(st, msg).1, id)
  {
    hide First, StageOk, UpdateHeld, SceneSpawn, SceneUpdate;
    var from := msg.playerId;
    if !Ignored(st, from) {
      if Live(st, from) {
        UpdateKeepsAbsent(st, msg, id);
      } else {
        SpawnKeepsStage(st, from, msg.position, msg.rotation, msg.equipped);
        if SceneSlot(st.scene, from) < |st.scene| {
          RoomInScene(st, from);
          var st1 := SceneSpawn(st, from, msg.position, msg.rotation, msg.equipped).1;
          var k := RuntimeSlot(st.runtime, from);
          RuntimeOthersSame(st.runtime, k, st1.runtime[k], id);
          UpdateKeepsAbsent(st1, msg, id);
        }
      }
    }
  }

  lemma UpdateKeepsAbsent(st: Stage, msg: PlayerState, id: nat)
    requires StageOk(st) && Live(st, msg.playerId) && !Live(st, id)
    ensures !Live(UpdateHeld(st, HeldRuntime(st.runtime, msg.playerId), msg).1, id)
  {
    hide First, StageOk, UpdateHeld;
    var k := HeldRuntime(st.runtime, msg.playerId);
    UpdateKeepsStage(st, k, msg);
    if !StaleFor(st.runtime[k], msg) {
      RuntimeOthersSame(st.runtime, k, UpdateHeld(st, k, msg).1.runtime[k], id);
    }
  }

  // ---- whole runs --------------------------------------------------------------------------------------------------

  /** The event is a state of this player. */
  predicate Own(e: Event, id: nat) { e.State? && e.msg.playerId == id }

  /** The messages about one player, in order. */
  function Inbox(es: seq<Event>, id: nat): seq<PlayerState> {
    if es == [] then []
    else Inbox(es[..|es| - 1], id) + (if Own(es[|es| - 1], id) then [es[|es| - 1].msg] else [])
  }

  /** The messages about one player since it last left. */
  function Since(es: seq<Event>, id: nat): seq<PlayerState> {
    if es == [] || es[|es| - 1] == Left(id) then []
    else Since(es[..|es| - 1], id) + (if Own(es[|es| - 1], id) then [es[|es| - 1].msg] else [])
  }

  lemma {:induction false} SinceIsDelivered(es: seq<Event>, id: nat)
    ensures forall m :: m in Since(es, id) ==> m in Inbox(es, id)
    ensures Left(id) !in es ==> Since(es, id) == Inbox(es, id)
  {
    if es != [] {
      SinceIsDelivered(es[..|es| - 1], id);
      assert Left(id) !in es ==> Left(id) !in es[..|es| - 1] && es[|es| - 1] in es;
    }
  }

  /** Whenever a state of the player arrives, the scene has a slot for it. */
  ghost predicate Roomy(st: Stage, es: seq<Event>, id: nat) {
    forall n :: 0 <= n < |es| && Own(es[n], id) ==> HasRoom(Run(st, es[..n]), id)
  }

  predicate HasRoom(st: Stage, id: nat) { SceneSlot(st.scene, id) < |st.scene| }

  lemma RoomyBefore(st: Stage, es: seq<Event>, id: nat)
    requires Roomy(st, es, id) && es != []
    ensures Roomy(st, es[..|es| - 1], id)
    ensures Own(es[|es| - 1], id) ==> HasRoom(Run(st, es[..|es| - 1]), id)
  {
    hide Run, HasRoom;
    var front := es[..|es| - 1];
    forall n | 0 <= n < |front| ensures front[..n] == es[..n] && front[n] == es[n] {}
  }

  /** The law of the record, over every run, departures included: a player is on stage if and only if a state of it
      arrived since it last left, and its record is what the states since then leave behind. */
  lemma {:induction false} RecordIsSinceLeft(st: Stage, es: seq<Event>, id: nat)
    requires StageOk(st) && ContractFits(st.contract, st.localId) && !Ignored(st, id) && !Live(st, id)
    requires Roomy(st, es, id)
    ensures var after := Run(st, es);
            && StageOk(after) && after.localId == st.localId && after.contract == st.contract
            && (Live(after, id) <==> Since(es, id) != [])
            && (Live(after, id) ==> RecordOf(after, id) == Convergence.ClientAfter(Since(es, id)))
  {
    hide StageOk, Next, HeldRuntime, HasRoom, ContractFits, Convergence.Recorded, Roomy;
    RunFromKeepsStage(st, es);
    if es != [] {
      var front, e := es[..|es| - 1], es[|es| - 1];
      RoomyBefore(st, es, id);
      RecordIsSinceLeft(st, front, id);
      RunFromKeepsStage(st, front);
      var m, earlier := Run(st, front), Since(front, id);
      if e == Left(id) {
        LeftEmpties(m, id);
      } else if Own(e, id) {
        assert Since(es, id) == earlier + [e.msg] && Since(es, id)[..|earlier|] == earlier;
        if Live(m, id) {
          NextOnRecord(m, e, id);
        } else {
          FirstEvent(m, e);
          assert earlier == [];
        }
      } else {
        assert Since(es, id) == earlier;
        if Live(m, id) { NextOnRecord(m, e, id); } else { NextKeepsAbsent(m, e, id); }
      }
    }
  }

  lemma LeftEmpties(st: Stage, id: nat)
    requires StageOk(st) && !Ignored(st, id)
    ensures !Live(Next(st, Left(id)), id)
  {
    hide StageOk, SceneDespawn;
    DespawnKeepsStage(st, id);
  }

  lemma FirstEvent(st: Stage, e: Event)
    requires StageOk(st) && ContractFits(st.contract, st.localId) && e.State? && !Ignored(st, e.msg.playerId)
    requires !Live(st, e.msg.playerId) && HasRoom(st, e.msg.playerId)
    ensures var after := Next(st, e);
            && Live(after, e.msg.playerId)
            && RecordOf(after, e.msg.playerId) == Convergence.Recorded(Convergence.NEW_RECORD, e.msg)
  {
    hide StageOk, ApplyState, HeldRuntime, SceneSlot, ContractFits, Convergence.Recorded;
    FirstMessage(st, e.msg);
  }

  /** End to end on the client: whatever reaches it of an emission, in any order, with any loss and repetition, perhaps
      with other equipment and among any other events, departures included, the player is on stage if and only if
      something of it arrived since it last left, and its record is the newest of that. */
  lemma StageConverges(st: Stage, es: seq<Event>, id: nat, cfg: Movement.Config, caps: seq<Movement.Observed>)
    requires StageOk(st) && ContractFits(st.contract, st.localId) && !Ignored(st, id) && !Live(st, id)
    requires Roomy(st, es, id) && Convergence.AllDated(Since(es, id), Movement.Emitted(cfg, caps))
    ensures var after, since, msgs := Run(st, es), Since(es, id), Movement.Emitted(cfg, caps);
            && (Live(after, id) <==> since != [])
            && (Live(after, id) ==>
                  var latest := Convergence.Latest(since);
                  && 1 <= latest <= |msgs|
                  && RecordOf(after, id) == Convergence.Record(latest, msgs[latest - 1].observedTick))
  {
    hide StageOk, Run, HeldRuntime, ContractFits, Since, Movement.Emitted, Convergence.ClientAfter, Convergence.Latest,
         Roomy;
    Movement.EmittedIsNumbered(cfg, caps);
    RecordIsSinceLeft(st, es, id);
    if Since(es, id) != [] { Convergence.ClientConverges(Movement.Emitted(cfg, caps), Since(es, id)); }
  }
}
