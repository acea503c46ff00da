/** The per-player state of the game server and the operations that change
    it: the five observed stat writes, death, movement intent and the attack
    flag. Each operation returns the player after the change together with
    the events it sent, in send order. */
module Players {
  import opened Options
  import opened Geometry
  import opened Events

  /** Weapon variants; only the default `Normal` is named by the player code. */
  datatype WeaponVariant = Normal | Variant(code: int)

  /** Skin colours; only the default `Light2` is named by the player code. */
  datatype SkinColor = Light2 | Skin(code: int)

  /** A player. `handle` is the object identity the game compares with `!==`;
      `attackHeld` is the private `_attack` flag behind `isAttacking`.
      Equipment slots hold item ids, `-1` in `buildItem`, `hatID` and `accID`
      meaning none. */
  datatype Player = Player(
    handle: nat,
    id: int,
    location: Vec2,
    angle: real,
    velocity: Vec2,
    name: string,
    skinColor: SkinColor,
    ownerID: string,
    client: Option<ClientId>,
    health: int,
    food: int,
    stone: int,
    points: int,
    wood: int,
    hatID: int,
    accID: int,
    weapon: int,
    secondaryWeapon: int,
    selectedWeapon: int,
    weaponVariant: WeaponVariant,
    buildItem: int,
    clanName: Option<string>,
    isClanLeader: bool,
    kills: int,
    dead: bool,
    autoAttackOn: bool,
    disableRotation: bool,
    moveDirection: Option<real>,
    attackHeld: bool)

  const InitialHealth: int := 100
  const NoBuildItem: int := -1

  /** Constructor defaults for the optional arguments. */
  const DefaultAngle: real := 0.0
  const DefaultName: string := "unknown"
  const DefaultSkin: SkinColor := Light2
  const NoCosmetic: int := -1

  /** A player is alive and idle: nothing selected, not moving, not attacking. */
  predicate Idle(p: Player)
  {
    && !p.dead
    && p.kills == 0
    && p.weapon == 0
    && p.secondaryWeapon == 0
    && p.selectedWeapon == 0
    && p.weaponVariant == Normal
    && p.buildItem == NoBuildItem
    && p.moveDirection == None
    && !IsAttacking(p)
    && !p.disableRotation
  }

  /** A freshly joined player, as built by the constructor. */
  function NewPlayer(
    handle: nat, sid: int, ownerID: string, location: Vec2, client: Option<ClientId>,
    angle: real, name: string, skinColor: SkinColor, hatID: int, accID: int): (p: Player)
    ensures p.handle == handle && p.id == sid && p.ownerID == ownerID && p.client == client
    ensures p.location == location && p.angle == angle && p.velocity == Vec2(0.0, 0.0)
    ensures p.name == name && p.skinColor == skinColor && p.hatID == hatID && p.accID == accID
    ensures p.health == InitialHealth
    ensures forall s :: Resource(p, s) == 0
    ensures p.clanName == None && !p.isClanLeader
    ensures Idle(p)
  {
    Player(
      handle := handle, id := sid, location := location, angle := angle,
      velocity := Vec2(0.0, 0.0), name := name, skinColor := skinColor,
      ownerID := ownerID, client := client, health := InitialHealth,
      food := 0, stone := 0, points := 0, wood := 0,
      hatID := hatID, accID := accID,
      weapon := 0, secondaryWeapon := 0, selectedWeapon := 0,
      weaponVariant := Normal, buildItem := NoBuildItem,
      clanName := None, isClanLeader := false,
      kills := 0, dead := false, autoAttackOn := false, disableRotation := false,
      moveDirection := None, attackHeld := false)
  }

  /** A player built with every optional constructor argument omitted: no
      client, angle 0, name "unknown", skin `Light2`, no hat, no accessory. */
  function NewPlayerWithDefaults(handle: nat, sid: int, ownerID: string, location: Vec2): (p: Player)
    ensures p.client == None && p.angle == 0.0 && p.name == "unknown" && p.skinColor == Light2
    ensures p.hatID == -1 && p.accID == -1
    ensures p.handle == handle && p.id == sid && p.ownerID == ownerID && p.location == location
    ensures p.health == InitialHealth && Idle(p)
  {
    NewPlayer(handle, sid, ownerID, location, None, DefaultAngle, DefaultName, DefaultSkin, NoCosmetic, NoCosmetic)
  }

  // ---------------------------------------------------------------------------
  // Stat writes

  /** The current value of a private resource counter. */
  function Resource(p: Player, s: Stat): int
  {
    match s
    case Food => p.food
    case Stone => p.stone
    case Points => p.points
    case Wood => p.wood
  }

  /** Writing `food`, `stone`, `points` or `wood`: the value is stored as
      given and one `UPDATE_STATS [name, value, 1]` goes to the owner's
      connection, if there is one. The write is neither diffed nor clamped. */
  function SetResource(p: Player, s: Stat, v: int): (r: (Player, seq<Event>))
    ensures Resource(r.0, s) == v
    ensures forall t :: t != s ==> Resource(r.0, t) == Resource(p, t)
    ensures r.0.(food := p.food, stone := p.stone, points := p.points, wood := p.wood) == p
    ensures p.client.None? ==> r.1 == []
    ensures p.client.Some? ==> r.1 == [Send(p.client.value, UpdateStats(StatName(s), v, 1))]
  {
    var sent := match p.client
      case Some(c) => [Send(c, UpdateStats(StatName(s), v, 1))]
      case None => [];
    var q := match s
      case Food => p.(food := v)
      case Stone => p.(stone := v)
      case Points => p.(points := v)
      case Wood => p.(wood := v);
    (q, sent)
  }

  /** Writing `health`: the value is stored as given, with no clamping, and
      one `HEALTH_UPDATE [id, value]` goes to every defined entry of the
      game's client list, the owner's own client included, in list order. */
  function SetHealth(p: Player, clients: seq<Option<ClientId>>, v: int): (r: (Player, seq<Event>))
    ensures r.0.health == v
    ensures r.0.(health := p.health) == p
    ensures |r.1| == |Connected(clients)|
    ensures forall i :: 0 <= i < |r.1| ==> r.1[i] == Send(Connected(clients)[i], HealthUpdate(p.id, v))
    ensures forall c: ClientId :: Send(c, HealthUpdate(p.id, v)) in r.1 <==> Some(c) in clients
  {
    var sent := HealthFanout(clients, p.id, v);
    assert forall c: ClientId :: Send(c, HealthUpdate(p.id, v)) in sent ==> c in Connected(clients);
    assert forall c: ClientId :: c in Connected(clients) ==> Send(c, HealthUpdate(p.id, v)) in sent by {
      forall c | c in Connected(clients)
        ensures Send(c, HealthUpdate(p.id, v)) in sent
      {
        var i :| 0 <= i < |Connected(clients)| && Connected(clients)[i] == c;
        assert sent[i] == Send(c, HealthUpdate(p.id, v));
      }
    }
    (p.(health := v), sent)
  }

  /** Writing a resource its current value changes nothing in the player
      but is still announced to the owner. */
  lemma ResourceWriteNotDiffed(p: Player, s: Stat)
    ensures SetResource(p, s, Resource(p, s)).0 == p
    ensures |SetResource(p, s, Resource(p, s)).1| == (if p.client.Some? then 1 else 0)
  {
  }

  /** Two writes to the same resource leave the second value, and both are
      announced, in write order. */
  lemma ResourceLastWriteWins(p: Player, s: Stat, a: int, b: int)
    ensures SetResource(SetResource(p, s, a).0, s, b).0 == SetResource(p, s, b).0
    ensures SetResource(p, s, a).1 + SetResource(SetResource(p, s, a).0, s, b).1
      == (match p.client
          case Some(c) => [Send(c, UpdateStats(StatName(s), a, 1)), Send(c, UpdateStats(StatName(s), b, 1))]
          case None => [])
  {
  }

  // ---------------------------------------------------------------------------
  // Attack flag

  /** `isAttacking` reads true while either the held attack or auto-attack is on. */
  function IsAttacking(p: Player): (r: bool)
    ensures p.autoAttackOn ==> r
    ensures !p.autoAttackOn ==> r == p.attackHeld
  {
    p.attackHeld || p.autoAttackOn
  }

  /** The `isAttacking` setter changes the held attack only. */
  function SetAttacking(p: Player, v: bool): (q: Player)
    ensures q.attackHeld == v
    ensures q.(attackHeld := p.attackHeld) == p
  {
    p.(attackHeld := v)
  }

  /** Reading back after a write: what was written, or true anyway while
      auto-attack is on. Clearing the flag does not stop an auto-attacker. */
  lemma AttackingReadBack(p: Player, v: bool)
    ensures IsAttacking(SetAttacking(p, v)) == (v || p.autoAttackOn)
    ensures p.autoAttackOn ==> IsAttacking(SetAttacking(p, false))
  {
  }

  // ---------------------------------------------------------------------------
  // Death and movement intent

  /** The field values `die()` leaves behind. */
  predicate DeadState(p: Player)
  {
    && p.dead
    && p.kills == 0
    && p.weapon == 0
    && p.weaponVariant == Normal
    && p.buildItem == NoBuildItem
    && !p.autoAttackOn
    && !p.disableRotation
    && p.moveDirection == None
  }

  /** `die()`: the player enters the dead state, with kills, primary weapon,
      variant, build selection, auto-attack, rotation lock and movement
      reset; health, resources, secondary and selected weapon, cosmetics,
      clan fields and the held attack are left alone. One `DEATH` goes to
      the owner's connection only, if there is one. Nothing guards against
      dying twice. */
  function Die(p: Player): (r: (Player, seq<Event>))
    ensures DeadState(r.0)
    ensures r.0.(dead := p.dead, kills := p.kills, weapon := p.weapon,
                 weaponVariant := p.weaponVariant, buildItem := p.buildItem,
                 autoAttackOn := p.autoAttackOn, disableRotation := p.disableRotation,
                 moveDirection := p.moveDirection) == p
    ensures r.1 == (match p.client case Some(c) => [Send(c, Death)] case None => [])
  {
    var q := p.(
      dead := true, kills := 0, weapon := 0, weaponVariant := Normal,
      buildItem := NoBuildItem, autoAttackOn := false, disableRotation := false,
      moveDirection := None);
    var sent := match p.client
      case Some(c) => [Send(c, Death)]
      case None => [];
    (q, sent)
  }

  /** Dying again changes no field, but announces the death once more. */
  lemma DieIdempotent(p: Player)
    ensures Die(Die(p).0).0 == Die(p).0
    ensures Die(Die(p).0).1 == Die(p).1
  {
  }

  /** A dead player may still read as attacking: death clears auto-attack
      but not the held attack. */
  lemma AttackingAfterDeath(p: Player)
    ensures IsAttacking(Die(p).0) == p.attackHeld
  {
  }

  /** `move(direction)`: record the intended direction; the position is
      left to the movement resolver. */
  function Move(p: Player, direction: real): (q: Player)
    ensures q.moveDirection == Some(direction)
    ensures q.(moveDirection := p.moveDirection) == p
  {
    p.(moveDirection := Some(direction))
  }

  /** `stopMove()`: clear the intended direction. */
  function StopMove(p: Player): (q: Player)
    ensures q.moveDirection == None
    ensures q.(moveDirection := p.moveDirection) == p
  {
    p.(moveDirection := None)
  }

  /** Movement intent is a single slot: the latest call decides it, and
      stopping after moving is the same as stopping. */
  lemma MoveIntentLatestWins(p: Player, d1: real, d2: real)
    ensures Move(Move(p, d1), d2) == Move(p, d2)
    ensures StopMove(Move(p, d1)) == StopMove(p)
    ensures Move(StopMove(p), d2) == Move(p, d2)
  {
  }
}
