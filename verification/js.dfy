/** The JavaScript value conventions the reshapers and the publisher depend on. */
module Js {

  /** An object property as JavaScript sees it: absent (undefined), explicitly null, or a value.
      JSON serialisation leaves an Undefined property out and writes a Null one as `null`. */
  datatype Field<T> = Undefined | Null | Val(v: T)
  {
    /** `x == undefined` under loose equality: true for undefined and for null alike. */
    predicate LooselyUndefined() { Undefined? || Null? }
  }

  /** `x || null` for a number: a falsy number (undefined, null or zero) becomes null. */
  predicate TruthyNumber(f: Field<real>) { f.Val? && f.v != 0.0 }

  datatype Option<T> = None | Some(value: T)

  /** The optional second argument of `round(x, places)`: given, or left out. */
  datatype Places = Places(n: int) | Omitted

  /** The rounding helper of the utility library. Its numerics are not modelled: a model
      of one cycle is stated for every such function. */
  type Round = (real, Places) -> real

  function LowerChar(ch: char): char
  {
    if 'A' <= ch <= 'Z' then (ch as int - 'A' as int + 'a' as int) as char else ch
  }

  /** `String.prototype.toLowerCase`, on the ASCII letters. */
  function ToLower(s: string): (r: string)
    ensures |r| == |s|
    ensures forall i :: 0 <= i < |r| ==> !('A' <= r[i] <= 'Z')
    ensures forall i :: 0 <= i < |s| && !('A' <= s[i] <= 'Z') ==> r[i] == s[i]
    ensures forall i :: 0 <= i < |s| && 'A' <= s[i] <= 'Z' ==> r[i] as int == s[i] as int + 32
  {
    seq(|s|, i requires 0 <= i < |s| => LowerChar(s[i]))
  }
}
