/** The outcomes the predictor records, one per round of the game. */
module Symbols {

  /** `C` is Casa (home), `V` is Visitante (away), `E` is Empate (tie). */
  datatype Symbol = C | V | E

  /** Python's `None` next to a value. */
  datatype Option<+T> = None | Some(value: T)
}

/** Python's indexing and slicing of lists, written out over sequences. */
module Slices {

  /** `s[-k]`, the k-th element counted from the newest end. */
  function Back<T>(s: seq<T>, k: nat): T
    requires 1 <= k <= |s|
  {
    s[|s| - k]
  }

  /** `s[i]` for a possibly negative index `i`, as Python reads it. */
  function At<T>(s: seq<T>, i: int): T
    requires -|s| <= i < |s|
  {
    if i < 0 then s[|s| + i] else s[i]
  }

  /** `s[-n:]`, the newest `n` elements. */
  function Suffix<T>(s: seq<T>, n: nat): seq<T>
    requires n <= |s|
  {
    s[|s| - n..]
  }

  /** `s[-a:-b]`. */
  function Window<T>(s: seq<T>, a: nat, b: nat): seq<T>
    requires b <= a <= |s|
  {
    s[|s| - a..|s| - b]
  }

  /** `''.join(s).endswith(''.join(suffix))` for single-character symbols. */
  predicate EndsWith<T(==)>(s: seq<T>, suffix: seq<T>) {
    |suffix| <= |s| && s[|s| - |suffix|..] == suffix
  }

  /** `s[::2]`. */
  function EveryOther<T>(s: seq<T>): seq<T>
    decreases |s|
  {
    if |s| <= 1 then s else [s[0]] + EveryOther(s[2..])
  }

  /** `s[1::2]`. */
  function OddPositions<T>(s: seq<T>): seq<T> {
    if s == [] then [] else EveryOther(s[1..])
  }

  /** `s[::-1]`. */
  function Reverse<T>(s: seq<T>): seq<T> {
    if s == [] then [] else Reverse(s[1..]) + [s[0]]
  }

  /** `s[::-1]` has the length of `s` and holds element `i` of `s` at position `|s| - 1 - i`. */
  lemma {:induction false} ReverseIndex<T>(s: seq<T>)
    ensures |Reverse(s)| == |s|
    ensures forall i :: 0 <= i < |s| ==> Reverse(s)[i] == s[|s| - 1 - i]
  {
    if s != [] {
      ReverseIndex(s[1..]);
    }
  }

  /** `s[::2]` keeps the elements at even positions, ceil(|s| / 2) of them. */
  lemma {:induction false} EveryOtherLength<T>(s: seq<T>)
    ensures |EveryOther(s)| == (|s| + 1) / 2
    decreases |s|
  {
    if |s| > 1 {
      EveryOtherLength(s[2..]);
    }
  }

  /** `s[1::2]` keeps the elements at odd positions, floor(|s| / 2) of them. */
  lemma OddPositionsLength<T>(s: seq<T>)
    ensures |OddPositions(s)| == |s| / 2
  {
    if s != [] {
      EveryOtherLength(s[1..]);
    }
  }

  /** The number of occurrences of `x` in `s`, as `collections.Counter` counts. */
  function Count<T(==)>(s: seq<T>, x: T): nat {
    multiset(s)[x]
  }

  /** `set(s)`. */
  function Distinct<T(==)>(s: seq<T>): set<T> {
    set x | x in s
  }

  /** Decimal digits of `n`, as an f-string prints an `int`. */
  function Decimal(n: nat): string {
    if n < 10 then [Digit(n)] else Decimal(n / 10) + [Digit(n % 10)]
  }

  function Digit(d: nat): char
    requires d < 10
  {
    "0123456789"[d]
  }

  /** The lists of `parts` one after another. */
  function Flatten<T>(parts: seq<seq<T>>): seq<T> {
    if parts == [] then [] else Flatten(parts[..|parts| - 1]) + parts[|parts| - 1]
  }

  /** An element is in the flattened list exactly when it is in one of the parts. */
  lemma {:induction false} FlattenMembers<T>(parts: seq<seq<T>>, x: T)
    ensures x in Flatten(parts) <==> exists i :: 0 <= i < |parts| && x in parts[i]
    decreases |parts|
  {
    if parts != [] {
      var init := parts[..|parts| - 1];
      FlattenMembers(init, x);
      if x in Flatten(parts) && x !in parts[|parts| - 1] {
        var i :| 0 <= i < |init| && x in init[i];
        assert parts[i] == init[i];
      }
      if i :| 0 <= i < |init| && x in parts[i] {
        assert parts[i] == init[i];
      }
    }
  }
}
