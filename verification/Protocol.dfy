/** Shared protocol values: vectors, replicated states and the messages the service sends.
    Positions are exact reals and health is counted in quarters of the normalised range. */
module Protocol {

  const MAX_PLAYERS: nat := 8
  const MAX_ACTORS: nat := 4096
  const MAX_OBJECTS: nat := 8192
  const MAX_SETTLEMENTS: nat := 64
  const MAX_REGISTRY: nat := 32
  const MAX_OUTPUTS: nat := 64
  const FULL_HEALTH: nat := 4

  datatype Vec3 = Vec3(x: real, y: real, z: real)
  datatype Rot3 = Rot3(pitch: real, yaw: real, roll: real)

  const ORIGIN := Vec3(0.0, 0.0, 0.0)
  const NO_TURN := Rot3(0.0, 0.0, 0.0)

  function Sq(v: real): real { v * v }

  lemma SquareOfNegation(x: real)
    ensures Sq(x) == Sq(-x)
  {
  }

  function DistanceSq(a: Vec3, b: Vec3): real {
    Sq(a.x - b.x) + Sq(a.y - b.y) + Sq(a.z - b.z)
  }

  datatype Rule = BubbleOnly | NoInteriors | HostAuthCombat | HostAuthWorkshop
                | GuestProfileEnabled | DialogueMirrorEnabled | QuestMirrorEnabled

  datatype ActorFlag = Hostile | Dead | Downed | Essential | InCombat | Ranged | MeleeOnly | SettlementDefender

  datatype ObjectFlag = PlacedByPlayer | Moved | Damaged | Destroyed
                      | SnapChild | SnapParent | HostOnlyState | ReservedFlag

  datatype ObjectField = PositionField | RotationField | StateFlagsField

  datatype PlayerState = PlayerState(
    playerId: nat, position: Vec3, rotation: Rot3, velocity: Vec3, stance: nat, animState: nat,
    equipped: nat, stateSequence: nat, observedTick: nat)

  const BLANK_PLAYER_STATE := PlayerState(0, ORIGIN, NO_TURN, ORIGIN, 0, 0, 0, 0, 0)

  datatype ActorState = ActorState(
    actorId: nat, position: Vec3, rotation: Rot3, health: nat, animState: nat,
    flags: set<ActorFlag>, targetId: nat)

  datatype DamageResult = DamageResult(attacker: nat, victim: nat, amount: nat, killed: bool, healthAfter: nat)
  datatype DeathEvent = DeathEvent(victim: nat, killer: nat)

  datatype ProfileStats = ProfileStats(level: nat, xp: nat, equipped: nat, caps: nat, special: seq<nat>)
  datatype ProfileItem = ProfileItem(formId: nat, count: nat, equipped: nat)
  datatype ProfilePerk = ProfilePerk(formId: nat, rank: nat)
  datatype Profile = Profile(
    stats: ProfileStats, items: seq<ProfileItem>, perks: seq<ProfilePerk>, sex: nat, bodyPreset: nat)

  const BLANK_PROFILE := Profile(ProfileStats(0, 0, 0, 0, []), [], [], 0, 0)

  datatype BuildReason = BuildOk | BuildDeniedGeneric | BuildBudgetExceeded

  datatype Message =
    | Welcome(sessionId: nat, playerId: nat, tickRate: nat, rules: set<Rule>)
    | ProfileSnapshot(stats: ProfileStats)
    | ProfileItems(items: seq<ProfileItem>)
    | ProfilePerks(perks: seq<ProfilePerk>)
    | ProfileAppearance(sex: nat, bodyPreset: nat)
    | Pong(timeMs: nat)
    | PlayerStateMsg(player: PlayerState)
    | PlayerLeft(leftId: nat)
    | ActorSpawn(actorId: nat, baseForm: nat, position: Vec3, rotation: Rot3, kind: nat, spawnFlags: nat)
    | ActorStateMsg(actor: ActorState)
    | ActorDespawn(goneActor: nat)
    | DamageMsg(damage: DamageResult)
    | DeathMsg(death: DeathEvent)
    | BuildResult(requestId: nat, accepted: bool, reason: BuildReason, builtId: nat)
    | ObjectSpawn(objectId: nat, formId: nat, place: Vec3, turn: Rot3, stateFlags: set<ObjectFlag>)
    | ObjectUpdate(updatedId: nat, fields: set<ObjectField>, newPlace: Vec3, newTurn: Rot3, newFlags: set<ObjectFlag>)
    | ObjectDespawn(goneObject: nat)

  /** One request to put a message on the wire for a connection. */
  datatype Send = Send(conn: nat, msg: Message)
}
