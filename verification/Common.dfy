/** Small shared vocabulary: optional values, real minimum and maximum, and finite sums. */
module Common {
  datatype Option<+T> = None | Some(value: T)

  /** Instants are whole microseconds, the resolution of the planner's timestamps. */
  const MICROS_PER_SECOND := 1_000_000
  const MICROS_PER_HOUR := 3_600_000_000.0

  function Min(a: real, b: real): real { if a <= b then a else b }

  function Max(a: real, b: real): real { if a >= b then a else b }

  function Abs(a: real): real { if a >= 0.0 then a else -a }

  function Hours(from: int, to: int): real { (to - from) as real / MICROS_PER_HOUR }

  function Sum(s: seq<real>): real {
    if |s| == 0 then 0.0 else Sum(s[..|s| - 1]) + s[|s| - 1]
  }

  lemma {:induction false} SumZero(s: seq<real>)
    requires forall k | 0 <= k < |s| :: s[k] == 0.0
    ensures Sum(s) == 0.0
  {
    if |s| > 0 { SumZero(s[..|s| - 1]); }
  }

  /** A sum with a single term that may be nonzero. */
  lemma {:induction false} SumOne(s: seq<real>, i: nat)
    requires i < |s|
    requires forall k | 0 <= k < |s| && k != i :: s[k] == 0.0
    ensures Sum(s) == s[i]
  {
    var init := s[..|s| - 1];
    if i == |s| - 1 { SumZero(init); } else { SumOne(init, i); }
  }

  /** A sum with two terms that may be nonzero. */
  lemma {:induction false} SumTwo(s: seq<real>, i: nat, j: nat)
    requires i < |s| && j < |s| && i != j
    requires forall k | 0 <= k < |s| && k != i && k != j :: s[k] == 0.0
    ensures Sum(s) == s[i] + s[j]
  {
    var init := s[..|s| - 1];
    if i == |s| - 1 {
      SumOne(init, j);
    } else if j == |s| - 1 {
      SumOne(init, i);
    } else {
      SumTwo(init, i, j);
    }
  }

  lemma DivideMonotone(a: real, b: real, c: real)
    requires a <= b && c > 0.0
    ensures a / c <= b / c
  {}

  lemma ScaleMonotone(a: real, b: real, c: real)
    requires a <= b && c >= 0.0
    ensures a * c <= b * c
  {}

  lemma DivideScale(a: real, c: real)
    requires c > 0.0
    ensures (a / c) * c == a && (a * c) / c == a
    ensures a >= 0.0 ==> a / c >= 0.0 && a * c >= 0.0
  {}

  /** How an awaited operation ended: with a value, with an exception, or with the process. */
  datatype Outcome<+T> = Done(value: T) | Raised | Died
  {
    predicate IsFailure() { !Done? }

    function PropagateFailure<U>(): Outcome<U>
      requires IsFailure()
    {
      if Raised? then Outcome<U>.Raised else Outcome<U>.Died
    }

    function Extract(): T
      requires Done?
    {
      value
    }
  }

  /** How a save of the store ended, and whether the disk got it. */
  datatype Fault = Written | Delayed | FailedUnwritten | FailedWritten | DiedUnwritten | DiedWritten

  // ---------------------------------------------------------------- stable sorting by an integer key

  predicate Sorted<T>(s: seq<T>, key: T -> int) { forall i, j | 0 <= i < j < |s| :: key(s[i]) <= key(s[j]) }

  /** Insert into a sorted list, after equal keys. */
  function Inserted<T>(s: seq<T>, x: T, key: T -> int): (t: seq<T>)
    requires Sorted(s, key)
    ensures Sorted(t, key) && |t| == |s| + 1 && (t[0] == x || (|s| > 0 && t[0] == s[0]))
  {
    if |s| == 0 then [x]
    else if key(s[0]) <= key(x) then [s[0]] + Inserted(s[1..], x, key)
    else [x] + s
  }

  function SortedBy<T>(s: seq<T>, key: T -> int): (t: seq<T>)
    ensures Sorted(t, key) && |t| == |s|
  {
    if |s| == 0 then [] else Inserted(SortedBy(s[..|s| - 1], key), s[|s| - 1], key)
  }

  lemma {:induction false} InsertedPermutes<T>(s: seq<T>, x: T, key: T -> int)
    requires Sorted(s, key)
    ensures multiset(Inserted(s, x, key)) == multiset(s) + multiset{x}
  {
    if |s| > 0 && key(s[0]) <= key(x) {
      InsertedPermutes(s[1..], x, key);
      assert s == [s[0]] + s[1..];
    }
  }

  lemma {:induction false} SortingPermutes<T>(s: seq<T>, key: T -> int)
    ensures multiset(SortedBy(s, key)) == multiset(s)
  {
    if |s| > 0 {
      var n := |s| - 1;
      assert s == s[..n] + [s[n]];
      SortingPermutes(s[..n], key);
      InsertedPermutes(SortedBy(s[..n], key), s[n], key);
    }
  }
}
