/** The plugin's proxy tables for actors and objects, and how packets change them. */
module Proxy {
  import opened Slots
  import opened Protocol

  const MAX_PROXY_ACTORS: nat := 128
  const MAX_PROXY_OBJECTS: nat := 256

  datatype ProxyActor = ProxyActor(
    inUse: bool, id: nat, baseForm: nat, kind: nat, spawnFlags: nat, position: Vec3, rotation: Rot3,
    health: nat, animState: nat, flags: set<ActorFlag>, targetId: nat, isDead: bool,
    damageFrom: nat, damageAmount: nat)

  datatype ProxyObject = ProxyObject(
    inUse: bool, id: nat, formId: nat, position: Vec3, rotation: Rot3, flags: set<ObjectFlag>)

  const NO_PROXY_ACTOR := ProxyActor(false, 0, 0, 0, 0, ORIGIN, NO_TURN, 0, 0, {}, 0, false, 0, 0)
  const NO_PROXY_OBJECT := ProxyObject(false, 0, 0, ORIGIN, NO_TURN, {})

  datatype Tables = Tables(actors: seq<ProxyActor>, objects: seq<ProxyObject>)

  /** `proxy_runtime_init`. */
  function EmptyTables(): Tables {
    Tables(seq(MAX_PROXY_ACTORS, _ => NO_PROXY_ACTOR), seq(MAX_PROXY_OBJECTS, _ => NO_PROXY_OBJECT))
  }

  function HeldActor(actors: seq<ProxyActor>, id: nat): (r: nat)
    ensures r <= |actors|
    ensures r < |actors| ==> actors[r].inUse && actors[r].id == id
    ensures forall i :: 0 <= i < r ==> !(actors[i].inUse && actors[i].id == id)
  {
    First(actors, (a: ProxyActor) => a.inUse && a.id == id)
  }

  /** `find_actor_slot`: the slot that holds the id, else the first free one, else none. */
  function SlotForActor(actors: seq<ProxyActor>, id: nat): (r: nat)
    ensures r <= |actors|
    ensures r < |actors| && actors[r].inUse ==> r == HeldActor(actors, id)
    ensures HeldActor(actors, id) < |actors| ==> r == HeldActor(actors, id)
  {
    var i := HeldActor(actors, id);
    if i < |actors| then i else First(actors, (a: ProxyActor) => !a.inUse)
  }

  function HeldObject(objects: seq<ProxyObject>, id: nat): (r: nat)
    ensures r <= |objects|
    ensures r < |objects| ==> objects[r].inUse && objects[r].id == id
    ensures forall i :: 0 <= i < r ==> !(objects[i].inUse && objects[i].id == id)
  {
    First(objects, (o: ProxyObject) => o.inUse && o.id == id)
  }

  function SlotForObject(objects: seq<ProxyObject>, id: nat): (r: nat)
    ensures r <= |objects|
    ensures r < |objects| && objects[r].inUse ==> r == HeldObject(objects, id)
    ensures HeldObject(objects, id) < |objects| ==> r == HeldObject(objects, id)
  {
    var i := HeldObject(objects, id);
    if i < |objects| then i else First(objects, (o: ProxyObject) => !o.inUse)
  }

  // ---- actors ------------------------------------------------------------------------------------

  function SpawnedActor(actors: seq<ProxyActor>, id: nat, baseForm: nat, position: Vec3, rotation: Rot3, kind: nat,
      spawnFlags: nat): (r: seq<ProxyActor>)
    ensures |r| == |actors|
  {
    var i := SlotForActor(actors, id);
    if i == |actors| then actors
    else actors[i := ProxyActor(true, id, baseForm, kind, spawnFlags, position, rotation, FULL_HEALTH, 0, {}, 0,
        false, 0, 0)]
  }

  function UpdatedActor(actors: seq<ProxyActor>, a: ActorState): (r: seq<ProxyActor>)
    ensures |r| == |actors|
  {
    var i := SlotForActor(actors, a.actorId);
    if i == |actors| || !actors[i].inUse then actors
    else actors[i := actors[i].(position := a.position, rotation := a.rotation, health := a.health,
                                animState := a.animState, flags := a.flags, targetId := a.targetId,
                                isDead := actors[i].isDead && a.health == 0)]
  }

  /** `pa_apply_actor_state`: a state for an unknown actor spawns it first. */
  function AppliedActorState(actors: seq<ProxyActor>, a: ActorState): (r: seq<ProxyActor>)
    ensures |r| == |actors|
  {
    if HeldActor(actors, a.actorId) < |actors| then UpdatedActor(actors, a)
    else if SlotForActor(actors, a.actorId) == |actors| then actors
    else UpdatedActor(SpawnedActor(actors, a.actorId, 0, a.position, a.rotation, 0, 0), a)
  }

  function DespawnedActor(actors: seq<ProxyActor>, id: nat): (r: seq<ProxyActor>)
    ensures |r| == |actors|
  {
    var i := SlotForActor(actors, id);
    if i == |actors| || !actors[i].inUse || actors[i].id != id then actors else actors[i := NO_PROXY_ACTOR]
  }

  function DamagedActor(actors: seq<ProxyActor>, d: DamageResult): (r: seq<ProxyActor>)
    ensures |r| == |actors|
  {
    var i := SlotForActor(actors, d.victim);
    if i == |actors| || !actors[i].inUse then actors
    else actors[i := actors[i].(health := d.healthAfter, damageFrom := d.attacker, damageAmount := d.amount,
                                isDead := actors[i].isDead || d.killed || d.healthAfter == 0)]
  }

  function KilledActor(actors: seq<ProxyActor>, victim: nat): (r: seq<ProxyActor>)
    ensures |r| == |actors|
  {
    var i := SlotForActor(actors, victim);
    if i == |actors| || !actors[i].inUse then actors
    else actors[i := actors[i].(isDead := true, health := 0)]
  }

  // ---- objects -----------------------------------------------------------------------------------

  function SpawnedObject(objects: seq<ProxyObject>, msg: Message): (r: seq<ProxyObject>)
    requires msg.ObjectSpawn?
    ensures |r| == |objects|
  {
    var i := SlotForObject(objects, msg.objectId);
    if i == |objects| then objects
    else objects[i := ProxyObject(true, msg.objectId, msg.formId, msg.place, msg.turn, msg.stateFlags)]
  }

  /** Only the fields named in the mask are copied. */
  function UpdatedObject(objects: seq<ProxyObject>, msg: Message): (r: seq<ProxyObject>)
    requires msg.ObjectUpdate?
    ensures |r| == |objects|
  {
    var i := SlotForObject(objects, msg.updatedId);
    if i == |objects| || !objects[i].inUse then objects
    else
      var o := objects[i];
      objects[i := o.(position := if PositionField in msg.fields then msg.newPlace else o.position,
                      rotation := if RotationField in msg.fields then msg.newTurn else o.rotation,
                      flags := if StateFlagsField in msg.fields then msg.newFlags else o.flags)]
  }

  function DespawnedObject(objects: seq<ProxyObject>, id: nat): (r: seq<ProxyObject>)
    ensures |r| == |objects|
  {
    var i := SlotForObject(objects, id);
    if i == |objects| || !objects[i].inUse || objects[i].id != id then objects else objects[i := NO_PROXY_OBJECT]
  }

  // ---- packets -----------------------------------------------------------------------------------

  /** `plugin_apply_packet` as far as the actor and object tables go. */
  function Apply(t: Tables, msg: Message): Tables {
    match msg
    case ActorSpawn(id, base, position, rotation, kind, flags) =>
      t.(actors := SpawnedActor(t.actors, id, base, position, rotation, kind, flags))
    case ActorStateMsg(a) => t.(actors := AppliedActorState(t.actors, a))
    case ActorDespawn(id) => t.(actors := DespawnedActor(t.actors, id))
    case DamageMsg(d) => t.(actors := DamagedActor(t.actors, d))
    case DeathMsg(d) => t.(actors := KilledActor(t.actors, d.victim))
    case ObjectSpawn(_, _, _, _, _) => t.(objects := SpawnedObject(t.objects, msg))
    case ObjectUpdate(_, _, _, _, _) => t.(objects := UpdatedObject(t.objects, msg))
    case ObjectDespawn(id) => t.(objects := DespawnedObject(t.objects, id))
    case _ => t
  }

  /** What `plugin_apply_packet` returns; a message it has no case for is refused. A player state is handed to the
      remote-player manager, whose answer it is. */
  predicate Succeeds(t: Tables, msg: Message)
    requires !msg.PlayerStateMsg?
  {
    match msg
    case ActorSpawn(id, _, _, _, _, _) => SlotForActor(t.actors, id) < |t.actors|
    case ActorStateMsg(a) => SlotForActor(t.actors, a.actorId) < |t.actors|
    case ActorDespawn(id) => HeldActor(t.actors, id) < |t.actors|
    case ObjectSpawn(id, _, _, _, _) => SlotForObject(t.objects, id) < |t.objects|
    case ObjectUpdate(id, _, _, _, _) => HeldObject(t.objects, id) < |t.objects|
    case ObjectDespawn(id) => HeldObject(t.objects, id) < |t.objects|
    case Welcome(_, _, _, _) => false
    case Pong(_) => false
    case BuildResult(_, _, _, _) => false
    case _ => true
  }

  function ApplyAll(t: Tables, msgs: seq<Message>): Tables {
    if msgs == [] then t else Apply(ApplyAll(t, msgs[..|msgs| - 1]), msgs[|msgs| - 1])
  }

  lemma {:induction false} ApplyAllAppend(t: Tables, a: seq<Message>, b: seq<Message>)
    ensures ApplyAll(t, a + b) == ApplyAll(ApplyAll(t, a), b)
  {
    if b == [] {
      assert a + b == a;
    } else {
      ApplyAllAppend(t, a, b[..|b| - 1]);
      assert (a + b)[..|a + b| - 1] == a + b[..|b| - 1];
    }
  }

  // ---- the tables as the plugin mutates them -----------------------------------------------------

  class Runtime {
    var actors: seq<ProxyActor>
    var objects: seq<ProxyObject>

    ghost function View(): Tables
      reads this
    {
      Tables(actors, objects)
    }

    constructor ()
      ensures View() == EmptyTables()
    {
      actors := seq(MAX_PROXY_ACTORS, _ => NO_PROXY_ACTOR);
      objects := seq(MAX_PROXY_OBJECTS, _ => NO_PROXY_OBJECT);
    }

    method FindActorSlot(id: nat) returns (i: nat)
      ensures i == SlotForActor(actors, id)
    {
      i := FirstMatch(actors, (a: ProxyActor) => a.inUse && a.id == id);
      if i == |actors| {
        i := FirstMatch(actors, (a: ProxyActor) => !a.inUse);
      }
    }

    method FindObjectSlot(id: nat) returns (i: nat)
      ensures i == SlotForObject(objects, id)
    {
      i := FirstMatch(objects, (o: ProxyObject) => o.inUse && o.id == id);
      if i == |objects| {
        i := FirstMatch(objects, (o: ProxyObject) => !o.inUse);
      }
    }

    method SpawnActor(id: nat, baseForm: nat, position: Vec3, rotation: Rot3, kind: nat, spawnFlags: nat)
        returns (ok: bool)
      modifies this`actors
      ensures actors == SpawnedActor(old(actors), id, baseForm, position, rotation, kind, spawnFlags)
      ensures ok <==> SlotForActor(old(actors), id) < |old(actors)|
    {
      var i := FindActorSlot(id);
      if i == |actors| { return false; }
      actors := actors[i := NO_PROXY_ACTOR];
      actors := actors[i := actors[i].(inUse := true, id := id, baseForm := baseForm, position := position,
                                       rotation := rotation, kind := kind, spawnFlags := spawnFlags,
                                           health := FULL_HEALTH)];
      ok := true;
    }

    method UpdateActor(a: ActorState) returns (ok: bool)
      modifies this`actors
      ensures actors == UpdatedActor(old(actors), a)
      ensures ok <==> HeldActor(old(actors), a.actorId) < |old(actors)|
    {
      var i := FindActorSlot(a.actorId);
      if i == |actors| || !actors[i].inUse { return false; }
      actors := actors[i := actors[i].(position := a.position, rotation := a.rotation, health := a.health,
                                       animState := a.animState, flags := a.flags, targetId := a.targetId)];
      if a.health > 0 {
        actors := actors[i := actors[i].(isDead := false)];
      }
      ok := true;
    }

    method ApplyActorState(a: ActorState) returns (ok: bool)
      modifies this`actors
      ensures actors == AppliedActorState(old(actors), a)
      ensures ok <==> SlotForActor(old(actors), a.actorId) < |old(actors)|
    {
      var held := FirstMatch(actors, (x: ProxyActor) => x.inUse && x.id == a.actorId);
      if held == |actors| {
        var spawned := SpawnActor(a.actorId, 0, a.position, a.rotation, 0, 0);
        if !spawned { return false; }
        ghost var i := SlotForActor(old(actors), a.actorId);
        assert actors[i].inUse && actors[i].id == a.actorId;
      }
      ok := UpdateActor(a);
    }

    method DespawnActor(id: nat) returns (ok: bool)
      modifies this`actors
      ensures actors == DespawnedActor(old(actors), id)
      ensures ok <==> HeldActor(old(actors), id) < |old(actors)|
    {
      var i := FindActorSlot(id);
      if i == |actors| || !actors[i].inUse || actors[i].id != id { return false; }
      actors := actors[i := NO_PROXY_ACTOR];
      ok := true;
    }

    method SetDamage(d: DamageResult)
      modifies this`actors
      ensures actors == DamagedActor(old(actors), d)
    {
      var i := FindActorSlot(d.victim);
      if i < |actors| && actors[i].inUse {
        actors := actors[i := actors[i].(health := d.healthAfter, damageFrom := d.attacker, damageAmount := d.amount)];
        if d.killed || d.healthAfter == 0 {
          actors := actors[i := actors[i].(isDead := true)];
        }
      }
    }

    method SetDeath(d: DeathEvent)
      modifies this`actors
      ensures actors == KilledActor(old(actors), d.victim)
    {
      var i := FindActorSlot(d.victim);
      if i < |actors| && actors[i].inUse {
        actors := actors[i := actors[i].(isDead := true, health := 0)];
      }
    }

    method SpawnObject(msg: Message) returns (ok: bool)
      requires msg.ObjectSpawn?
      modifies this`objects
      ensures objects == SpawnedObject(old(objects), msg)
      ensures ok <==> SlotForObject(old(objects), msg.objectId) < |old(objects)|
    {
      var i := FindObjectSlot(msg.objectId);
      if i == |objects| { return false; }
      objects := objects[i := ProxyObject(true, msg.objectId, msg.formId, msg.place, msg.turn, msg.stateFlags)];
      ok := true;
    }

    method UpdateObject(msg: Message) returns (ok: bool)
      requires msg.ObjectUpdate?
      modifies this`objects
      ensures objects == UpdatedObject(old(objects), msg)
      ensures ok <==> HeldObject(old(objects), msg.updatedId) < |old(objects)|
    {
      var i := FindObjectSlot(msg.updatedId);
      if i == |objects| || !objects[i].inUse { return false; }
      if PositionField in msg.fields { objects := objects[i := objects[i].(position := msg.newPlace)]; }
      if RotationField in msg.fields { objects := objects[i := objects[i].(rotation := msg.newTurn)]; }
      if StateFlagsField in msg.fields { objects := objects[i := objects[i].(flags := msg.newFlags)]; }
      ok := true;
    }

    method DespawnObject(id: nat) returns (ok: bool)
      modifies this`objects
      ensures objects == DespawnedObject(old(objects), id)
      ensures ok <==> HeldObject(old(objects), id) < |old(objects)|
    {
      var i := FindObjectSlot(id);
      if i == |objects| || !objects[i].inUse || objects[i].id != id { return false; }
      objects := objects[i := NO_PROXY_OBJECT];
      ok := true;
    }

    method ApplyPacket(msg: Message) returns (ok: bool)
      modifies this
      ensures View() == Apply(old(View()), msg)
      ensures !msg.PlayerStateMsg? ==> ok == Succeeds(old(View()), msg)
    {
      hide First, SpawnedActor, AppliedActorState, DespawnedActor, DamagedActor, KilledActor, SpawnedObject,
           UpdatedObject, DespawnedObject, SlotForActor, HeldActor, SlotForObject, HeldObject;
      ok := true;
      match msg {
        case ActorSpawn(id, base, position, rotation, kind, flags) => ok :=
            SpawnActor(id, base, position, rotation, kind, flags);
        case ActorStateMsg(a) => ok := ApplyActorState(a);
        case ActorDespawn(id) => ok := DespawnActor(id);
        case DamageMsg(d) => SetDamage(d);
        case DeathMsg(d) => SetDeath(d);
        case ObjectSpawn(_, _, _, _, _) => ok := SpawnObject(msg);
        case ObjectUpdate(_, _, _, _, _) => ok := UpdateObject(msg);
        case ObjectDespawn(id) => ok := DespawnObject(id);
        case Welcome(_, _, _, _) => ok := false;
        case Pong(_) => ok := false;
        case BuildResult(_, _, _, _) => ok := false;
        case _ =>
      }
    }
  }
}
