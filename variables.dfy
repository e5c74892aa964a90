/// The bounds-checked integer variable tables of the engine: the global
/// variables (GVARS) held by the game and the map variables (MVARS) held by a
/// location. Both are vectors indexed by an unsigned number; an index at or
/// past the end raises an exception naming the number.
module Variables {
  import opened Outcomes

  datatype VarError = NumOutOfRange(number: nat)

  /** Read variable `number` (`GVAR(num)` / `MVAR(num)`). */
  function Get(vars: seq<int>, number: nat): Result<int, VarError>
  {
    if number >= |vars| then Err(NumOutOfRange(number)) else Ok(vars[number])
  }

  /** Overwrite variable `number` (`setGVAR(num, value)` / `setMVAR(num, value)`). */
  function Set(vars: seq<int>, number: nat, value: int): Result<seq<int>, VarError>
  {
    if number >= |vars| then Err(NumOutOfRange(number)) else Ok(vars[number := value])
  }

  /** An index at or past the end fails for both the read and the write, and names the index. */
  lemma OutOfRangeFails(vars: seq<int>, number: nat, value: int)
    ensures Get(vars, number).Err? <==> number >= |vars|
    ensures Set(vars, number, value).Err? <==> number >= |vars|
    ensures number >= |vars| ==> Get(vars, number).error == NumOutOfRange(number)
  {
  }

  /** Writing then reading the same variable yields the written value; every other variable and the table size are unchanged. */
  lemma GetAfterSet(vars: seq<int>, number: nat, value: int)
    requires number < |vars|
    ensures Set(vars, number, value).Ok?
    ensures |Set(vars, number, value).value| == |vars|
    ensures Get(Set(vars, number, value).value, number) == Ok(value)
    ensures forall other: nat :: other != number ==> Get(Set(vars, number, value).value, other) == Get(vars, other)
  {
  }
}
