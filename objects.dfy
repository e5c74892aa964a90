/// Engine objects as the core sees them (src/Game/Object.h): the hexagonal
/// orientation value type, the object type tags, and the object record with
/// its declared field defaults. The engine's C++ class hierarchy
/// (ItemObject and its subclasses, CritterObject/DudeObject, door scenery, ...)
/// is inspected with `dynamic_cast`; here the concrete class is the `Kind` tag.
module Objects {
  import opened Outcomes

  /** `unsigned char`. */
  newtype Byte = b: int | 0 <= b < 256

  /** Implicit conversion of an `int` to `unsigned char`: reduction modulo 256. */
  function ToByte(x: int): Byte
  {
    (x % 256) as Byte
  }

  /** A facing in hexagonal space: the stored `_dir`, always 0..5. */
  type Orientation = d: int | 0 <= d < 6

  const NS: Orientation := 0
  const EW: Orientation := 1
  const NC: Orientation := 2
  const SC: Orientation := 3
  const EC: Orientation := 4
  const WC: Orientation := 5

  /** The constructor `Orientation(unsigned char value = NS)`: stores `value % 6`. */
  function OrientationOf(value: Byte): (o: Orientation)
    ensures (value as int - o) % 6 == 0
  {
    value as int % 6
  }

  /** The default orientation, built from the default argument NS, is the facing 0. */
  lemma NamedFacings()
    ensures OrientationOf(NS as Byte) == NS == 0
  {
  }

  /** Constructing an Orientation from an Orientation's value gives the same orientation. */
  lemma OrientationOfIdempotent(value: Byte)
    ensures OrientationOf(OrientationOf(value) as Byte) == OrientationOf(value)
  {
  }

  /** Values six apart give the same orientation. */
  lemma OrientationOfPeriodic(value: Byte)
    requires value as int + 6 < 256
    ensures OrientationOf(value + 6) == OrientationOf(value)
  {
  }

  /** `Object::Type`, the type as defined in the prototype. */
  datatype ObjectType = Item | Critter | Scenery | Wall | Tile | Misc | Dude

  /** `Object::Trans`, the translucency mode. */
  datatype Trans = TransDefault | TransNone | TransWall | TransGlass | TransSteam | TransEnergy | TransRed

  /** The item subclasses of `ItemObject`. */
  datatype ItemSubtype = Armor | Container | Drug | Weapon | Ammo | MiscItem | Key

  /** The concrete engine class of an object, which `dynamic_cast` inspects. */
  datatype Kind =
    | ItemObject(subtype: ItemSubtype)
    | CritterObject
    | DudeObject
    | DoorScenery
    | OtherScenery
    | WallObject
    | TileObject
    | ExitGrid
    | OtherMisc

  /** The `type()` each concrete class reports. */
  function TypeOf(k: Kind): ObjectType
  {
    match k
    case ItemObject(_) => Item
    case CritterObject => Critter
    case DudeObject => Dude
    case DoorScenery | OtherScenery => Scenery
    case WallObject => Wall
    case TileObject => Tile
    case ExitGrid | OtherMisc => Misc
  }

  /** `dynamic_cast<CritterObject*>` succeeds: the dude is a critter too. */
  predicate IsCritter(k: Kind)
  {
    k.CritterObject? || k.DudeObject?
  }

  /** `dynamic_cast<DoorSceneryObject*>` or `dynamic_cast<ContainerItemObject*>` succeeds. */
  predicate IsOpenable(k: Kind)
  {
    k.DoorScenery? || k == ItemObject(Container)
  }

  /** A compiled script attached to an object, seen through `hasFunction`. */
  datatype Script = Script(procedures: set<string>)

  /** One hexagon of the map grid and the objects standing on it, in insertion order. */
  class Hexagon {
    const number: nat
    var objects: seq<GameObject>

    constructor (number: nat)
      ensures this.number == number && objects == []
    {
      this.number := number;
      objects := [];
    }
  }

  /** `Game::Object` with the fields the core reads or writes. */
  class GameObject {
    const kind: Kind
    var canWalkThru: bool
    var canLightThru: bool
    var canShootThru: bool
    var wallTransEnd: bool
    var flat: bool
    var pid: int
    var fid: int
    var elevation: int
    var orientation: Orientation
    var script: Option<Script>
    var hexagon: Hexagon?
    var inRender: bool
    var trans: Trans
    var lightOrientation: Orientation
    var lightIntensity: nat
    var lightRadius: nat
    /** `opened()` of a door or a container. */
    var isOpen: bool
    /** `armorSlot()` of the dude. */
    var armorSlot: GameObject?

    /** A new object carries the initialisers declared in the class. */
    constructor (kind: Kind)
      ensures this.kind == kind
      ensures canWalkThru && canLightThru && canShootThru
      ensures !wallTransEnd && !flat && !inRender
      ensures pid == -1 && fid == -1 && elevation == 0
      ensures orientation == NS && lightOrientation == NS
      ensures trans == TransDefault && script == None
      ensures hexagon == null && lightIntensity == 0 && lightRadius == 0
      ensures !isOpen && armorSlot == null
    {
      this.kind := kind;
      canWalkThru, canLightThru, canShootThru := true, true, true;
      wallTransEnd, flat, inRender := false, false, false;
      pid, fid, elevation := -1, -1, 0;
      orientation, lightOrientation := OrientationOf(NS as Byte), OrientationOf(NS as Byte);
      trans, script := TransDefault, None;
      hexagon, lightIntensity, lightRadius := null, 0, 0;
      isOpen, armorSlot := false, null;
    }
  }
}
