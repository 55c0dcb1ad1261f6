/**
 * The derivation-path odometer: a variable-length, mixed-radix counter whose
 * digits are unsigned 32-bit words carried at a maximum digit value `max`.
 *
 * Everything here is stated for an arbitrary `max`, so the same lemmas apply to
 * the constant the search engine actually uses and to the bound its
 * documentation promises.
 */
module Odometer {

  /** An unsigned 32-bit machine word (Rust's `u32`). */
  type U32 = x: int | 0 <= x < 0x1_0000_0000

  /** Digits from position `from` onward have all reached `max`: an increment carries through them. */
  predicate CarriesFrom(max: U32, s: seq<U32>, from: nat)
  {
    forall j :: from <= j < |s| ==> s[j] >= max
  }

  /** No digit of `s` exceeds `max`. */
  predicate Bounded(max: U32, s: seq<U32>)
  {
    forall j :: 0 <= j < |s| ==> s[j] <= max
  }

  /**
   * The next value of the counter: the rightmost digit below `max` goes up by
   * one and every digit to its right is reset to zero; when there is no such
   * digit, all digits are reset and one more zero digit is added.
   */
  function Successor(max: U32, s: seq<U32>): (r: seq<U32>)
    decreases |s|
  {
    if s == [] then [0]
    else if s[|s| - 1] >= max then Successor(max, s[..|s| - 1]) + [0]
    else s[..|s| - 1] + [s[|s| - 1] + 1]
  }

  /** The digit an increment raises: the rightmost one below `max`. */
  function Pivot(max: U32, s: seq<U32>): (k: nat)
    requires !CarriesFrom(max, s, 0)
    ensures k < |s| && s[k] < max && CarriesFrom(max, s, k + 1)
    decreases |s|
  {
    if s[|s| - 1] < max then |s| - 1
    else Pivot(max, s[..|s| - 1])
  }

  /** `n` increments applied to `s`. */
  function Iterate(max: U32, s: seq<U32>, n: nat): seq<U32>
  {
    if n == 0 then s else Successor(max, Iterate(max, s, n - 1))
  }

  // ---------------------------------------------------------------------------
  // Shortlex order: shorter sequences first, equal lengths lexicographically.
  // ---------------------------------------------------------------------------

  /** `a` and `b` agree before position `k` and `a` is smaller at `k`. */
  predicate LexLessAt(a: seq<U32>, b: seq<U32>, k: nat)
  {
    k < |a| && k < |b| && (forall j :: 0 <= j < k ==> a[j] == b[j]) && a[k] < b[k]
  }

  predicate ShortlexLess(a: seq<U32>, b: seq<U32>)
  {
    |a| < |b| || (|a| == |b| && exists k :: 0 <= k < |a| && LexLessAt(a, b, k))
  }

  /** The first position at which two different sequences of one length differ. */
  function FirstDifference(a: seq<U32>, b: seq<U32>, from: nat): (k: nat)
    requires |a| == |b| && a != b && from < |a|
    requires forall j :: 0 <= j < from ==> a[j] == b[j]
    ensures from <= k < |a| && a[k] != b[k]
    ensures forall j :: 0 <= j < k ==> a[j] == b[j]
    decreases |a| - from
  {
    if a[from] != b[from] then from
    else FirstDifference(a, b, from + 1)
  }

  lemma ShortlexIrreflexive(a: seq<U32>)
    ensures !ShortlexLess(a, a)
  {
  }

  lemma ShortlexAsymmetric(a: seq<U32>, b: seq<U32>)
    requires ShortlexLess(a, b)
    ensures !ShortlexLess(b, a)
  {
    if |a| == |b| {
      var k: nat :| k < |a| && LexLessAt(a, b, k);
      forall m: nat | m < |a| ensures !LexLessAt(b, a, m) {
      }
    }
  }

  lemma ShortlexTransitive(a: seq<U32>, b: seq<U32>, c: seq<U32>)
    requires ShortlexLess(a, b) && ShortlexLess(b, c)
    ensures ShortlexLess(a, c)
  {
    if |a| == |b| && |b| == |c| {
      var k1: nat :| k1 < |a| && LexLessAt(a, b, k1);
      var k2: nat :| k2 < |b| && LexLessAt(b, c, k2);
      var k := if k1 < k2 then k1 else k2;
      forall j | 0 <= j < k ensures a[j] == c[j] {
        assert a[j] == b[j] && b[j] == c[j];
      }
      assert a[k] < c[k] by {
        assert a[k] <= b[k] <= c[k];
      }
      assert LexLessAt(a, c, k);
    }
  }

  /** Any two sequences are equal or comparable. */
  lemma ShortlexTotal(a: seq<U32>, b: seq<U32>)
    ensures a == b || ShortlexLess(a, b) || ShortlexLess(b, a)
  {
    if |a| == |b| && a != b {
      var k := FirstDifference(a, b, 0);
      if a[k] < b[k] {
        assert LexLessAt(a, b, k);
      } else {
        assert LexLessAt(b, a, k);
      }
    }
  }

  // ---------------------------------------------------------------------------
  // The carry pattern of one increment.
  // ---------------------------------------------------------------------------

  /** When every digit is at `max` or above (the empty sequence included), the result is all zeros and one digit longer. */
  lemma {:induction false} SuccessorOfAllMax(max: U32, s: seq<U32>)
    requires CarriesFrom(max, s, 0)
    ensures |Successor(max, s)| == |s| + 1
    ensures forall j :: 0 <= j <= |s| ==> Successor(max, s)[j] == 0
  {
    if s != [] {
      SuccessorOfAllMax(max, s[..|s| - 1]);
    }
  }

  /**
   * Otherwise the length is kept: the rightmost digit `k` below `max` rises by
   * one, the digits to its left are unchanged and those to its right become zero.
   */
  lemma {:induction false} SuccessorAtPivot(max: U32, s: seq<U32>, k: nat)
    requires k < |s| && s[k] < max && CarriesFrom(max, s, k + 1)
    ensures |Successor(max, s)| == |s|
    ensures forall j :: 0 <= j < k ==> Successor(max, s)[j] == s[j]
    ensures Successor(max, s)[k] == s[k] + 1
    ensures forall j :: k < j < |s| ==> Successor(max, s)[j] == 0
  {
    if k < |s| - 1 {
      SuccessorAtPivot(max, s[..|s| - 1], k);
    }
  }

  /** Digits at most `max` stay at most `max`. */
  lemma SuccessorBounded(max: U32, s: seq<U32>)
    requires Bounded(max, s)
    ensures Bounded(max, Successor(max, s))
  {
    if CarriesFrom(max, s, 0) {
      SuccessorOfAllMax(max, s);
    } else {
      SuccessorAtPivot(max, s, Pivot(max, s));
    }
  }

  /** Every increment moves strictly up in shortlex order. */
  lemma SuccessorIncreases(max: U32, s: seq<U32>)
    ensures ShortlexLess(s, Successor(max, s))
  {
    if CarriesFrom(max, s, 0) {
      SuccessorOfAllMax(max, s);
    } else {
      var k := Pivot(max, s);
      SuccessorAtPivot(max, s, k);
      assert LexLessAt(s, Successor(max, s), k);
    }
  }

  /** A sequence all of whose digits are at least `max` has nothing bounded above it at its own length. */
  lemma NothingAboveAllMax(max: U32, s: seq<U32>, t: seq<U32>)
    requires CarriesFrom(max, s, 0) && Bounded(max, t) && |s| == |t|
    ensures !ShortlexLess(s, t)
  {
  }

  /**
   * An increment skips nothing: no sequence with digits at most `max` lies
   * strictly between `s` and its successor.
   */
  lemma SuccessorIsImmediate(max: U32, s: seq<U32>, t: seq<U32>)
    requires Bounded(max, t) && ShortlexLess(s, t)
    ensures t == Successor(max, s) || ShortlexLess(Successor(max, s), t)
  {
    var r := Successor(max, s);
    if CarriesFrom(max, s, 0) {
      SuccessorOfAllMax(max, s);
      if |t| == |s| {
        NothingAboveAllMax(max, s, t);
      }
      if |t| == |r| && t != r {
        var d := FirstDifference(r, t, 0);
        assert LexLessAt(r, t, d);
      }
    } else {
      var k := Pivot(max, s);
      SuccessorAtPivot(max, s, k);
      if |t| == |s| && t != r {
        var m: nat :| m < |s| && LexLessAt(s, t, m);
        if m < k {
          assert LexLessAt(r, t, m);
        } else {
          var d := FirstDifference(r, t, 0);
          assert LexLessAt(r, t, d);
        }
      }
    }
  }

  /** Repeated increments never revisit a value: later values are strictly greater. */
  lemma {:induction false} IterateIncreases(max: U32, s: seq<U32>, m: nat, n: nat)
    requires m < n
    ensures ShortlexLess(Iterate(max, s, m), Iterate(max, s, n))
  {
    SuccessorIncreases(max, Iterate(max, s, n - 1));
    if m < n - 1 {
      IterateIncreases(max, s, m, n - 1);
      ShortlexTransitive(Iterate(max, s, m), Iterate(max, s, n - 1), Iterate(max, s, n));
    }
  }

  lemma IterateNeverRepeats(max: U32, s: seq<U32>, m: nat, n: nat)
    requires m != n
    ensures Iterate(max, s, m) != Iterate(max, s, n)
  {
    if m < n {
      IterateIncreases(max, s, m, n);
    } else {
      IterateIncreases(max, s, n, m);
    }
  }

  /**
   * Counting from the empty sequence reaches every bounded sequence in turn:
   * whatever bounded sequence is shortlex-below the `n`-th value was itself
   * one of the values before it.
   */
  lemma {:induction false} EnumerationComplete(max: U32, n: nat, t: seq<U32>)
    requires Bounded(max, t) && ShortlexLess(t, Iterate(max, [], n))
    ensures exists m :: 0 <= m < n && Iterate(max, [], m) == t
  {
    var s := Iterate(max, [], n - 1);
    ShortlexTotal(s, t);
    if ShortlexLess(t, s) {
      EnumerationComplete(max, n - 1, t);
    } else if t != s {
      ShortlexAsymmetric(t, Successor(max, s));
      SuccessorIsImmediate(max, s, t);
      assert false;
    }
  }

  /** From the empty sequence, the first `max + 1` values are `[0]`, `[1]`, ..., `[max]`. */
  lemma {:induction false} CountsUpFirstDigit(max: U32, k: nat)
    requires k <= max
    ensures Iterate(max, [], k + 1) == [k]
  {
    if k > 0 {
      CountsUpFirstDigit(max, k - 1);
    }
  }

  /** Counting from a bounded start stays bounded. */
  lemma {:induction false} IterateBounded(max: U32, s: seq<U32>, n: nat)
    requires Bounded(max, s)
    ensures Bounded(max, Iterate(max, s, n))
  {
    if n > 0 {
      IterateBounded(max, s, n - 1);
      SuccessorBounded(max, Iterate(max, s, n - 1));
    }
  }
}
