/// The location state of src/State/Location.cpp as far as it keeps books:
/// map variables, the per-hexagon object lists, destroying an object, the
/// cursor's action icons, the player actions, and the order in which scripts
/// are initialised and entered when the location is entered. Calls into the
/// scripting VM are recorded in a trace rather than executed.
module Location {
  import opened Seqs
  import opened Outcomes
  import Variables
  import opened Objects

  /** `Input::Mouse::Icon`, the actions offered for an object under the cursor. */
  datatype Icon = Use | Rotate | Talk | Look | Inventory | Skill | Cancel

  /** `script()->hasFunction(name)` for an optional script. */
  predicate HasProcedure(script: Option<Script>, name: string)
  {
    script.Some? && name in script.value.procedures
  }

  /** The icons every object offers, in this order, at the end of the list. */
  const CommonIcons: seq<Icon> := [Look, Inventory, Skill, Cancel]

  /**
   * `getCursorIconsForObject`: USE when the script has `use_p_proc` or the
   * object is a door or a container; ROTATE for the dude; TALK for a critter;
   * then LOOK, INVENTORY, SKILL, CANCEL.
   */
  function CursorIcons(kind: Kind, script: Option<Script>): (icons: seq<Icon>)
    ensures 4 <= |icons| <= 6 && icons[|icons| - 4..] == CommonIcons
    ensures Use in icons <==> HasProcedure(script, "use_p_proc") || IsOpenable(kind)
    ensures Use in icons ==> icons[0] == Use && Use !in icons[1..]
    ensures Rotate in icons <==> TypeOf(kind) == Dude
    ensures Talk in icons <==> TypeOf(kind) == Critter
    ensures |icons| == 4 + (if Use in icons then 1 else 0) + (if TypeOf(kind) == Dude || TypeOf(kind) == Critter then 1 else 0)
  {
    var use := if HasProcedure(script, "use_p_proc") || kind.DoorScenery? || kind == ItemObject(Container)
      then [Use] else [];
    var typed := match TypeOf(kind)
      case Dude => [Rotate]
      case Critter => [Talk]
      case _ => [];
    assert Use !in typed + CommonIcons && |typed| <= 1;
    use + typed + CommonIcons
  }

  /** The ROTATE action's new facing: one step on, back to 0 after 5. */
  function RotatedOrientation(o: Orientation): (r: Orientation)
    ensures r == (o + 1) % 6
    ensures r == OrientationOf(ToByte(o + 1))
  {
    if o + 1 > 5 then 0 else o + 1
  }

  /** The "." key: `setOrientation(orientation() + 1)`. */
  function KeyRotateRight(o: Orientation): (r: Orientation)
    ensures r == (o + 1) % 6
  {
    assert ToByte(o + 1) as int == o + 1;
    OrientationOf(ToByte(o + 1))
  }

  /** The "," key: `setOrientation(orientation() + 5)`. */
  function KeyRotateLeft(o: Orientation): (r: Orientation)
    ensures r == (o + 5) % 6
  {
    assert ToByte(o + 5) as int == o + 5;
    OrientationOf(ToByte(o + 5))
  }

  /** `n` ROTATE actions in a row. */
  function RotatedTimes(o: Orientation, n: nat): Orientation
  {
    if n == 0 then o else RotatedOrientation(RotatedTimes(o, n - 1))
  }

  /** The ROTATE action turns like the "." key. */
  lemma RotateIsKeyRight(o: Orientation)
    ensures RotatedOrientation(o) == KeyRotateRight(o)
  {
    assert ToByte(o + 1) as int == o + 1;
  }

  /** The "," key undoes a ROTATE action. */
  lemma KeyLeftUndoesRotate(o: Orientation)
    ensures KeyRotateLeft(RotatedOrientation(o)) == o
  {
    var r: int := RotatedOrientation(o);
    assert ToByte(r + 5) as int == r + 5;
  }

  /** A ROTATE action undoes the "," key. */
  lemma RotateUndoesKeyLeft(o: Orientation)
    ensures RotatedOrientation(KeyRotateLeft(o)) == o
  {
    assert ToByte(o + 5) as int == o + 5;
  }

  /** `n` ROTATE actions advance the facing by `n` modulo 6. */
  lemma {:induction false} RotatedTimesAdvance(o: Orientation, n: nat)
    ensures RotatedTimes(o, n) == (o + n) % 6
  {
    if n > 0 {
      RotatedTimesAdvance(o, n - 1);
    }
  }

  /** Six ROTATE actions are a full turn, and no fewer return to the start. */
  lemma FullTurn(o: Orientation)
    ensures RotatedTimes(o, 6) == o
    ensures forall n :: 0 < n < 6 ==> RotatedTimes(o, n) != o
  {
    RotatedTimesAdvance(o, 6);
    forall n | 0 < n < 6
      ensures RotatedTimes(o, n) != o
    {
      RotatedTimesAdvance(o, n);
    }
  }

  /** Whose script a call goes to. */
  datatype Owner = LocationScript | ObjectScript(obj: GameObject)

  /** A call into the scripting VM. */
  datatype ScriptEvent = Initialized(owner: Owner) | Called(owner: Owner, procedure: string)

  /** Why `handleAction` throws. */
  datatype ActionError = OnlyDudeCanBeRotated | CanTalkOnlyWithCritters

  /** The scripts of `objs` initialised in order, skipping objects without one. */
  function ObjectInits(objs: seq<GameObject>): seq<ScriptEvent>
    reads objs
  {
    if objs == [] then []
    else
      var last := objs[|objs| - 1];
      ObjectInits(objs[..|objs| - 1]) + (if last.script.Some? then [Initialized(ObjectScript(last))] else [])
  }

  /** The object initialisations are initialisations of those objects' scripts, and every object with a script gets one. */
  lemma {:induction false} ObjectInitsCover(objs: seq<GameObject>)
    ensures forall e :: e in ObjectInits(objs) ==> e.Initialized? && e.owner.ObjectScript? && e.owner.obj in objs
    ensures forall o :: o in objs && o.script.Some? ==> Initialized(ObjectScript(o)) in ObjectInits(objs)
  {
    if objs != [] {
      var front := objs[..|objs| - 1];
      ObjectInitsCover(front);
      assert objs == front + [objs[|objs| - 1]];
    }
  }

  /** `map_enter_p_proc` requested of each of `objs`, last object first. */
  function MapEnterHooks(objs: seq<GameObject>): (events: seq<ScriptEvent>)
    ensures |events| == |objs|
    ensures forall k :: 0 <= k < |objs| ==> events[k] == Called(ObjectScript(objs[|objs| - 1 - k]), "map_enter_p_proc")
  {
    if objs == [] then [] else MapEnterHooks(objs[1..]) + [Called(ObjectScript(objs[0]), "map_enter_p_proc")]
  }

  /** `Location::Location` with the fields the core keeps books in. */
  class Location {
    /** `_objects`, in insertion order. */
    var objects: seq<GameObject>
    /** `_MVARS`. */
    var mvars: seq<int>
    var objectUnderCursor: GameObject?
    var actionCursorTicks: int
    /** `_locationScript`. */
    var locationScript: Option<Script>
    /** `_locationEnter`: the first `think` after loading still has to run the enter scripts. */
    var locationEnter: bool
    /** Every call made into the scripting VM, oldest first. */
    var trace: seq<ScriptEvent>

    constructor (objects: seq<GameObject>, mvars: seq<int>, locationScript: Option<Script>)
      ensures this.objects == objects && this.mvars == mvars && this.locationScript == locationScript
      ensures objectUnderCursor == null && actionCursorTicks == 0
      ensures locationEnter && trace == []
    {
      this.objects, this.mvars, this.locationScript := objects, mvars, locationScript;
      objectUnderCursor, actionCursorTicks := null, 0;
      locationEnter, trace := true, [];
    }

    /** The script calls of a location enter: every initialisation, then `map_enter_p_proc` of the location, the player and the objects in reverse. */
    function EnterTrace(player: GameObject): seq<ScriptEvent>
      reads this`locationScript, this`objects, objects, player
    {
      EnterInits(player) + EnterCalls(player)
    }

    /** The initialisations of a location enter: the location script, the objects' scripts in order, the player's script. */
    function EnterInits(player: GameObject): seq<ScriptEvent>
      reads this`locationScript, this`objects, objects, player
    {
      (if locationScript.Some? then [Initialized(LocationScript)] else [])
        + ObjectInits(objects)
        + (if player.script.Some? then [Initialized(ObjectScript(player))] else [])
    }

    /** The `map_enter_p_proc` calls of a location enter. */
    function EnterCalls(player: GameObject): seq<ScriptEvent>
      reads this`locationScript, this`objects
    {
      (if locationScript.Some? then [Called(LocationScript, "map_enter_p_proc")] else [])
        + [Called(ObjectScript(player), "map_enter_p_proc")]
        + MapEnterHooks(objects)
    }

    /**
     * On location enter every script is initialised before any
     * `map_enter_p_proc` runs; the location script is called first, then the
     * player, then the objects from the last inserted to the first.
     */
    lemma EnterOrder(player: GameObject)
      ensures var t := EnterTrace(player);
        forall i, j :: 0 <= i < |t| && 0 <= j < |t| && t[i].Initialized? && t[j].Called? ==> i < j
      ensures forall o :: o in objects && o.script.Some? ==> Initialized(ObjectScript(o)) in EnterTrace(player)
      ensures var c := EnterCalls(player);
        var p := if locationScript.Some? then 1 else 0;
        && |c| == p + 1 + |objects|
        && (locationScript.Some? ==> c[0] == Called(LocationScript, "map_enter_p_proc"))
        && c[p] == Called(ObjectScript(player), "map_enter_p_proc")
        && forall k :: p < k < |c| ==> c[k] == Called(ObjectScript(objects[|c| - 1 - k]), "map_enter_p_proc")
    {
      ObjectInitsCover(objects);
      var t := EnterTrace(player);
      var inits, calls := EnterInits(player), EnterCalls(player);
      assert forall k :: 0 <= k < |inits| ==> t[k] == inits[k];
      assert forall k :: |inits| <= k < |t| ==> t[k] == calls[k - |inits|];
    }

    /** `MVAR(number)`: fails for a number past the end. */
    method Mvar(number: nat) returns (r: Result<int, Variables.VarError>)
      ensures r == Variables.Get(mvars, number)
    {
      if number >= |mvars| {
        return Err(Variables.NumOutOfRange(number));
      }
      return Ok(mvars[number]);
    }

    /** `setMVAR(number, value)`: fails for a number past the end, otherwise stores the value. */
    method SetMvar(number: nat, value: int) returns (r: Outcome<Variables.VarError>)
      modifies this`mvars
      ensures match Variables.Set(old(mvars), number, value)
        case Ok(updated) => r == Pass && mvars == updated
        case Err(e) => r == Fail(e) && mvars == old(mvars)
    {
      if number >= |mvars| {
        return Fail(Variables.NumOutOfRange(number));
      }
      mvars := mvars[number := value];
      return Pass;
    }

    /** `onStateDeactivate`: nothing stays under the cursor and the action-cursor timer is reset. */
    method OnStateDeactivate()
      modifies this`objectUnderCursor, this`actionCursorTicks
      ensures objectUnderCursor == null && actionCursorTicks == 0
    {
      objectUnderCursor := null;
      actionCursorTicks := 0;
    }

    /**
     * `moveObjectToHexagon`: the first occurrence of the object leaves its old
     * hexagon's list, the object is appended to the new hexagon's list and
     * points at the new hexagon.
     */
    method MoveObjectToHexagon(obj: GameObject, hexagon: Hexagon)
      modifies obj`hexagon, hexagon`objects, if obj.hexagon != null then {obj.hexagon} else {}
      ensures obj.hexagon == hexagon
      ensures old(obj.hexagon) == null ==> hexagon.objects == old(hexagon.objects) + [obj]
      ensures old(obj.hexagon) == hexagon ==> hexagon.objects == RemoveFirst(old(hexagon.objects), obj) + [obj]
      ensures old(obj.hexagon) != null && old(obj.hexagon) != hexagon ==>
        && old(obj.hexagon).objects == RemoveFirst(old(obj.hexagon.objects), obj)
        && hexagon.objects == old(hexagon.objects) + [obj]
    {
      var oldHexagon := obj.hexagon;
      if oldHexagon != null {
        var remaining := EraseFirst(oldHexagon.objects, obj);
        oldHexagon.objects := remaining;
      }
      obj.hexagon := hexagon;
      hexagon.objects := hexagon.objects + [obj];
    }

    /**
     * `destroyObject`: the object's `destroy_p_proc` is requested first, then
     * its first occurrence leaves its hexagon's list and `_objects`, and the
     * object under the cursor is cleared only if it was this object.
     */
    method DestroyObject(obj: GameObject)
      requires obj.hexagon != null
      modifies this`objects, this`objectUnderCursor, this`trace, obj.hexagon
      ensures trace == old(trace) + [Called(ObjectScript(obj), "destroy_p_proc")]
      ensures obj.hexagon.objects == RemoveFirst(old(obj.hexagon.objects), obj)
      ensures objects == RemoveFirst(old(objects), obj)
      ensures objectUnderCursor == if old(objectUnderCursor) == obj then null else old(objectUnderCursor)
    {
      var objectsAtHex := obj.hexagon;
      trace := trace + [Called(ObjectScript(obj), "destroy_p_proc")];
      var remaining := EraseFirst(objectsAtHex.objects, obj);
      objectsAtHex.objects := remaining;
      if objectUnderCursor == obj {
        objectUnderCursor := null;
      }
      var kept := EraseFirst(objects, obj);
      objects := kept;
    }

    /**
     * `handleAction`: LOOK requests the description; ROTATE turns the dude one
     * step and fails for anything else; TALK calls `talk_p_proc` of a critter
     * (the dude included) and fails for anything else; the other icons,
     * including USE whose animation is not modelled, change nothing here.
     */
    method HandleAction(obj: GameObject, action: Icon) returns (r: Outcome<ActionError>)
      modifies this`trace, obj`orientation
      ensures action == Look ==> r == Pass && trace == old(trace) + [Called(ObjectScript(obj), "description_p_proc")]
      ensures action == Rotate ==> trace == old(trace)
      ensures action == Rotate && obj.kind.DudeObject? ==>
        r == Pass && obj.orientation == RotatedOrientation(old(obj.orientation))
      ensures action == Rotate && !obj.kind.DudeObject? ==> r == Fail(OnlyDudeCanBeRotated)
      ensures action == Talk && IsCritter(obj.kind) ==>
        r == Pass && trace == old(trace) + [Called(ObjectScript(obj), "talk_p_proc")]
      ensures action == Talk && !IsCritter(obj.kind) ==> r == Fail(CanTalkOnlyWithCritters) && trace == old(trace)
      ensures action != Look && action != Rotate && action != Talk ==> r == Pass && trace == old(trace)
      ensures action != Rotate || !obj.kind.DudeObject? ==> obj.orientation == old(obj.orientation)
    {
      match action
      case Look =>
        trace := trace + [Called(ObjectScript(obj), "description_p_proc")];
        return Pass;
      case Rotate =>
        if !obj.kind.DudeObject? {
          return Fail(OnlyDudeCanBeRotated);
        }
        var orientation := obj.orientation + 1;
        if orientation > 5 {
          orientation := 0;
        }
        obj.orientation := OrientationOf(ToByte(orientation));
        return Pass;
      case Talk =>
        if IsCritter(obj.kind) {
          trace := trace + [Called(ObjectScript(obj), "talk_p_proc")];
          return Pass;
        }
        return Fail(CanTalkOnlyWithCritters);
      case _ =>
        return Pass;
    }

    /**
     * The location-enter part of `think`: on the first call after loading,
     * the enter flag drops and the script calls of `EnterTrace` are made;
     * afterwards (timer-driven updates, not modelled) no enter call is made.
     */
    method Think(player: GameObject)
      modifies this`locationEnter, this`trace
      ensures !locationEnter
      ensures old(locationEnter) ==> trace == old(trace) + old(EnterTrace(player))
      ensures !old(locationEnter) ==> trace == old(trace)
    {
      if !locationEnter {
        return;
      }
      ghost var inits, calls := EnterInits(player), EnterCalls(player);
      locationEnter := false;
      InitializeScripts(player);
      CallMapEnter(player);
      assert trace == old(trace) + inits + calls;
    }

    /** The initialisations of a location enter, in the order of `EnterInits`. */
    method InitializeScripts(player: GameObject)
      modifies this`trace
      ensures trace == old(trace) + old(EnterInits(player))
    {
      if locationScript.Some? {
        trace := trace + [Initialized(LocationScript)];
      }
      InitializeObjectScripts();
      if player.script.Some? {
        trace := trace + [Initialized(ObjectScript(player))];
      }
    }

    /** The objects' part of `InitializeScripts`: the scripts of `objects` in order, as `ObjectInits` lists them. */
    method InitializeObjectScripts()
      modifies this`trace
      ensures trace == old(trace) + old(ObjectInits(objects))
    {
      var i := 0;
      while i < |objects|
        invariant 0 <= i <= |objects|
        invariant trace == old(trace) + ObjectInits(objects[..i])
      {
        var obj := objects[i];
        assert objects[..i + 1][..i] == objects[..i];
        assert ObjectInits(objects[..i + 1])
          == ObjectInits(objects[..i]) + (if obj.script.Some? then [Initialized(ObjectScript(obj))] else []);
        if obj.script.Some? {
          trace := trace + [Initialized(ObjectScript(obj))];
        }
        i := i + 1;
      }
      assert objects[..|objects|] == objects;
    }

    /** The `map_enter_p_proc` calls of a location enter, in the order of `EnterCalls`: the objects are walked from the back. */
    method CallMapEnter(player: GameObject)
      modifies this`trace
      ensures trace == old(trace) + old(EnterCalls(player))
    {
      if locationScript.Some? {
        trace := trace + [Called(LocationScript, "map_enter_p_proc")];
      }
      trace := trace + [Called(ObjectScript(player), "map_enter_p_proc")];
      CallObjectsMapEnter();
    }

    /** The objects' part of `CallMapEnter`: `map_enter_p_proc` of each object, from the last to the first. */
    method CallObjectsMapEnter()
      modifies this`trace
      ensures trace == old(trace) + MapEnterHooks(objects)
    {
      var k := |objects|;
      while k > 0
        invariant 0 <= k <= |objects|
        invariant trace == old(trace) + MapEnterHooks(objects[k..])
      {
        var obj := objects[k - 1];
        assert objects[k - 1..][1..] == objects[k..];
        assert MapEnterHooks(objects[k - 1..]) == MapEnterHooks(objects[k..]) + [Called(ObjectScript(obj), "map_enter_p_proc")];
        trace := trace + [Called(ObjectScript(obj), "map_enter_p_proc")];
        k := k - 1;
      }
    }
  }
}
