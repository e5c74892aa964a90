/// Two scripting-VM opcode handlers, src/VM/Handlers/Opcode80C9Handler.cpp
/// (`obj_item_subtype`) and src/VM/Handlers/Opcode8131Handler.cpp
/// (`obj_open`), run against the VM's data stack.
module Opcodes {
  import opened Outcomes
  import opened Objects

  /** A value on the VM's data stack. */
  datatype Value =
    | IntValue(i: int)
    | FloatValue(f: real)
    | StringValue(s: string)
    | ObjectValue(obj: GameObject?)

  /** Why a handler stops: a pop from an empty stack, a value of the wrong type, or the handler's own `_error`. */
  datatype VmError = StackUnderflow | TypeMismatch | ScriptError(message: string)

  /** The object a popped value holds, or a type error. */
  function ObjectOf(v: Value): Result<GameObject?, VmError>
  {
    if v.ObjectValue? then Ok(v.obj) else Err(TypeMismatch)
  }

  /** The item subclasses in the order of their `obj_item_subtype` codes. */
  const SubtypeOrder: seq<ItemSubtype> := [Armor, Container, Drug, Weapon, Ammo, MiscItem, Key]

  /**
   * The code `obj_item_subtype` pushes: the subclass's place in
   * `SubtypeOrder` for an item, -1 for null and for every other object.
   */
  function SubtypeCode(obj: GameObject?): (code: int)
    ensures -1 <= code <= 6
    ensures code == -1 <==> obj == null || !obj.kind.ItemObject?
    ensures code >= 0 ==> SubtypeOrder[code] == obj.kind.subtype
  {
    if obj == null then -1
    else match obj.kind
      case ItemObject(Armor) => 0
      case ItemObject(Container) => 1
      case ItemObject(Drug) => 2
      case ItemObject(Weapon) => 3
      case ItemObject(Ammo) => 4
      case ItemObject(MiscItem) => 5
      case ItemObject(Key) => 6
      case _ => -1
  }

  /** Distinct subclasses get distinct codes, and the codes run 0..6 in the declared order. */
  lemma SubtypeCodesDistinct(a: GameObject, b: GameObject)
    requires a.kind.ItemObject? && b.kind.ItemObject?
    ensures SubtypeCode(a) == SubtypeCode(b) <==> a.kind.subtype == b.kind.subtype
    ensures |SubtypeOrder| == 7 && forall i, j :: 0 <= i < j < 7 ==> SubtypeOrder[i] != SubtypeOrder[j]
  {
  }

  /** The VM's data stack; the last value is the top. */
  class DataStack {
    var values: seq<Value>

    constructor (values: seq<Value>)
      ensures this.values == values
    {
      this.values := values;
    }

    /** `push`. */
    method Push(v: Value)
      modifies this
      ensures values == old(values) + [v]
    {
      values := values + [v];
    }

    /** `popObject`: the top value leaves the stack and must hold an object; an empty stack fails and stays empty. */
    method PopObject() returns (r: Result<GameObject?, VmError>)
      modifies this
      ensures old(values) == [] ==> r == Err(StackUnderflow) && values == []
      ensures old(values) != [] ==>
        values == old(values[..|values| - 1]) && r == ObjectOf(old(values[|values| - 1]))
    {
      if values == [] {
        return Err(StackUnderflow);
      }
      var top := values[|values| - 1];
      values := values[..|values| - 1];
      return ObjectOf(top);
    }
  }

  /**
   * `obj_item_subtype` (opcode 0x80C9): pops an object and pushes its
   * subtype code in its place; the values below it are untouched.
   */
  method Op80C9(stack: DataStack) returns (r: Outcome<VmError>)
    modifies stack
    ensures old(stack.values) == [] ==> r == Fail(StackUnderflow) && stack.values == []
    ensures old(stack.values) != [] ==>
      var below := old(stack.values[..|stack.values| - 1]);
      var top := old(stack.values[|stack.values| - 1]);
      if top.ObjectValue? then
        r == Pass && stack.values == below + [IntValue(SubtypeCode(top.obj))]
      else
        r == Fail(TypeMismatch) && stack.values == below
    ensures r == Pass ==>
      && |stack.values| == old(|stack.values|)
      && stack.values[..|stack.values| - 1] == old(stack.values[..|stack.values| - 1])
      && stack.values[|stack.values| - 1].IntValue?
      && -1 <= stack.values[|stack.values| - 1].i <= 6
  {
    var popped := stack.PopObject();
    if popped.Err? {
      return Fail(popped.error);
    }
    var obj := popped.value;
    var code := SubtypeCode(obj);
    stack.Push(IntValue(code));
    return Pass;
  }

  /** The object `obj_open` may open: the top of the stack, when it holds one. */
  function OpenTarget(values: seq<Value>): set<GameObject>
  {
    if values != [] && values[|values| - 1].ObjectValue? && values[|values| - 1].obj != null
    then {values[|values| - 1].obj} else {}
  }

  /**
   * `obj_open` (opcode 0x8131): pops an object and pushes nothing; a door or
   * a container ends opened; null, and every other object, is an error that
   * opens nothing.
   */
  method Op8131(stack: DataStack) returns (r: Outcome<VmError>)
    modifies stack, OpenTarget(stack.values)`isOpen
    ensures old(stack.values) == [] ==> r == Fail(StackUnderflow) && stack.values == []
    ensures old(stack.values) != [] ==> stack.values == old(stack.values[..|stack.values| - 1])
    ensures old(stack.values) != [] && !old(stack.values[|stack.values| - 1]).ObjectValue? ==> r == Fail(TypeMismatch)
    ensures old(stack.values) != [] && old(stack.values[|stack.values| - 1]) == ObjectValue(null) ==>
      r == Fail(ScriptError("obj_open: object is NULL"))
    ensures old(stack.values) != [] && old(stack.values[|stack.values| - 1]).ObjectValue? && old(stack.values[|stack.values| - 1]).obj != null ==>
      var obj := old(stack.values[|stack.values| - 1]).obj;
      if IsOpenable(obj.kind) then
        r == Pass && obj.isOpen
      else
        r == Fail(ScriptError("obj_open: object is not openable type!")) && obj.isOpen == old(obj.isOpen)
  {
    var popped := stack.PopObject();
    if popped.Err? {
      return Fail(popped.error);
    }
    var obj := popped.value;
    if obj == null {
      return Fail(ScriptError("obj_open: object is NULL"));
    }
    if obj.kind.DoorScenery? {
      obj.isOpen := true;
    } else if obj.kind == ItemObject(Container) {
      obj.isOpen := true;
    } else {
      return Fail(ScriptError("obj_open: object is not openable type!"));
    }
    return Pass;
  }
}
