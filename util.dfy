/** Small sequence helpers shared by the modules of the bot. */
module Util {

  datatype Option<T> = None | Some(value: T)

  function Min(a: int, b: int): int {
    if a <= b then a else b
  }

  /** `Array.prototype.reverse`, as a value. */
  function Reverse<T>(s: seq<T>): (r: seq<T>)
    ensures |r| == |s|
    ensures forall i :: 0 <= i < |s| ==> r[i] == s[|s| - 1 - i]
  {
    if s == [] then [] else Reverse(s[1..]) + [s[0]]
  }

  /** Concatenation of a sequence of strings, in order, with nothing in between. */
  function Concat(parts: seq<string>): string {
    if parts == [] then "" else parts[0] + Concat(parts[1..])
  }

  /** Regrouping a front element: if `whole` is `x` before `x`'s rest, it is `left + right` when `left` is `x` before its part of that rest. */
  lemma ConsRegroup<T>(whole: seq<T>, x: T, wholeRest: seq<T>, left: seq<T>, leftRest: seq<T>, right: seq<T>)
    requires whole == [x] + wholeRest && wholeRest == leftRest + right && left == [x] + leftRest
    ensures whole == left + right
  {
    assert [x] + (leftRest + right) == ([x] + leftRest) + right;
  }

  lemma {:induction false} ConcatCons(a: string, rest: seq<string>)
    ensures Concat([a] + rest) == a + Concat(rest)
  {
    assert ([a] + rest)[1..] == rest;
  }
}
