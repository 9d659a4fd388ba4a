/** Small helpers shared by every module: an Option for JSON keys that may be
    absent or null, Python's truthiness for the values the scripts test with
    a bare `if`, and the first-match linear scan that every lookup uses. */
module Wrappers {

  datatype Option<+T> = None | Some(value: T) {
    function GetOr(default: T): T {
      match this
      case Some(v) => v
      case None => default
    }
  }

  /** `if x:` on a value that is an int or None: 0 and None are falsy. */
  predicate TruthyInt(x: Option<int>) {
    x.Some? && x.value != 0
  }

  /** `if x:` on a value that is a string or None: "" and None are falsy. */
  predicate TruthyString(x: Option<string>) {
    x.Some? && x.value != ""
  }

  /** The index of the first element of `s` that satisfies `p`, as a `for`
      loop with an early `return` finds it; None when no element does. */
  function FirstIndex<T>(s: seq<T>, p: T -> bool): (r: Option<nat>)
    ensures r.Some? ==> r.value < |s| && p(s[r.value])
    ensures r.Some? ==> forall j | 0 <= j < r.value :: !p(s[j])
    ensures r.None? <==> forall j | 0 <= j < |s| :: !p(s[j])
    decreases |s|
  {
    if |s| == 0 then None
    else if p(s[0]) then Some(0)
    else
      match FirstIndex(s[1..], p)
      case None => None
      case Some(k) => Some(k + 1)
  }

  /** `[f(x) for x in xs]`, built by appending, as a loop over xs does. */
  function MapSeq<A, B>(f: A -> B, xs: seq<A>): (ys: seq<B>)
    ensures |ys| == |xs|
    ensures forall i | 0 <= i < |xs| :: ys[i] == f(xs[i])
    decreases |xs|
  {
    if xs == [] then []
    else MapSeq(f, xs[..|xs| - 1]) + [f(xs[|xs| - 1])]
  }
}
