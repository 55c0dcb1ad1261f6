/**
 * The vanity-address search engine: the incrementable root path, its
 * conversion to a BIP 32 derivation path, the per-candidate prefix match and
 * the outer breadth-first search loop.
 *
 * Public-key derivation and address rendering are secp256k1 arithmetic and
 * bech32 encoding; they are a parameter `derive` of the operations that use
 * them, a deterministic function from a derivation path to a rendered address
 * or a failure.
 */
module Vanity {
  import opened Text
  import opened Odometer

  datatype Option<T> = None | Some(value: T)

  // ---------------------------------------------------------------------------
  // The carry constant.
  // ---------------------------------------------------------------------------

  /**
   * The digit value at which the root path carries, the source's `2 << 31 - 1`
   * on `u32`. Rust binds `-` tighter than `<<`, so this is `2 << (31 - 1)`,
   * which is 2^31; `MaxIndexValue` checks the value against that shift of a
   * 32-bit word.
   */
  const MAX_INDEX: U32 := 0x8000_0000

  /** BIP 32 normal (non-hardened) child indices are those below 2^31. */
  const NORMAL_LIMIT: U32 := 0x8000_0000

  /** The largest normal child index, 2^31 - 1: the bound the increment is documented to respect. */
  const NORMAL_MAX: U32 := NORMAL_LIMIT - 1

  /**
   * The carry constant is the source expression evaluated as a shift of a
   * 32-bit word, and it is 2^31: the first hardened index, one above the
   * largest normal index.
   */
  lemma MaxIndexValue()
    ensures MAX_INDEX == ((2 as bv32) << (31 - 1)) as int
    ensures MAX_INDEX == NORMAL_LIMIT == NORMAL_MAX + 1
  {
  }

  // ---------------------------------------------------------------------------
  // Derivation paths.
  // ---------------------------------------------------------------------------

  /** A child number of a BIP 32 path; the search only builds normal ones. */
  datatype ChildNumber = Normal(index: U32)

  type DerivationPath = seq<ChildNumber>

  /** `ChildNumber::from_normal_idx`: only indices below 2^31 are normal. */
  function FromNormalIdx(i: U32): (r: Option<ChildNumber>)
    ensures r.Some? <==> i < NORMAL_LIMIT
    ensures r.Some? ==> r.value == Normal(i)
  {
    if i < NORMAL_LIMIT then Some(Normal(i)) else None
  }

  /** Every digit is a valid normal index. */
  predicate AllNormal(digits: seq<U32>)
  {
    forall j :: 0 <= j < |digits| ==> digits[j] < NORMAL_LIMIT
  }

  /**
   * Each digit mapped through `from_normal_idx(..).expect(..)`; `None` stands
   * for the panic on the first digit that is not a normal index.
   */
  function ToDerivationPath(digits: seq<U32>): (r: Option<DerivationPath>)
    ensures r.Some? <==> AllNormal(digits)
    ensures r.Some? ==> |r.value| == |digits| && forall j :: 0 <= j < |digits| ==> r.value[j] == Normal(digits[j])
  {
    if digits == [] then Some([])
    else
      match FromNormalIdx(digits[0])
      case None => None
      case Some(child) =>
        match ToDerivationPath(digits[1..])
        case None => None
        case Some(rest) => Some([child] + rest)
  }

  // ---------------------------------------------------------------------------
  // The incrementable root path.
  // ---------------------------------------------------------------------------

  /** A derivation path held as raw `u32` digits that can only be incremented. */
  class IncrementablePath {
    var digits: seq<U32>

    /** The master path `m/`, with no digits. */
    constructor ()
      ensures digits == []
    {
      digits := [];
    }

    /**
     * Adds one with carry, scanning from the rightmost digit: a digit at
     * `MAX_INDEX` or above is reset to 0 and the scan goes on; the first digit
     * below it is incremented and the scan stops. If the scan runs off the left
     * end, a 0 digit is pushed.
     */
    method Increment()
      modifies this
      ensures digits == Successor(MAX_INDEX, old(digits))
      ensures ShortlexLess(old(digits), digits)
    {
      SuccessorIncreases(MAX_INDEX, digits);
      var i := |digits|;
      while i > 0
        invariant 0 <= i <= |digits| == |old(digits)|
        invariant forall j :: 0 <= j < i ==> digits[j] == old(digits)[j]
        invariant forall j :: i <= j < |digits| ==> digits[j] == 0
        invariant CarriesFrom(MAX_INDEX, old(digits), i)
      {
        i := i - 1;
        if digits[i] >= MAX_INDEX {
          digits := digits[i := 0];
        } else {
          digits := digits[i := digits[i] + 1];
          SuccessorAtPivot(MAX_INDEX, old(digits), i);
          return;
        }
      }
      SuccessorOfAllMax(MAX_INDEX, old(digits));
      digits := digits + [0];
    }

    /** The digits as a derivation path of normal indices, or `None` where the source panics. */
    function Path(): (r: Option<DerivationPath>)
      reads this
      ensures r.Some? <==> AllNormal(digits)
      ensures r.Some? ==> |r.value| == |digits| && forall j :: 0 <= j < |digits| ==> r.value[j] == Normal(digits[j])
    {
      ToDerivationPath(digits)
    }
  }

  /** A fresh incrementable path renders as the master path. */
  method NewPathIsMaster() returns (p: Option<DerivationPath>)
    ensures p == Some([])
  {
    var path := new IncrementablePath();
    p := path.Path();
  }

  /** `[0]` increments to `m/1` and `[MAX_INDEX]` increments to `m/0/0`. */
  method IncrementExamples() returns (start: Option<DerivationPath>, end: Option<DerivationPath>)
    ensures start == Some([Normal(1)])
    ensures end == Some([Normal(0), Normal(0)])
  {
    var pathStart := new IncrementablePath();
    pathStart.digits := [0];
    var pathEnd := new IncrementablePath();
    pathEnd.digits := [MAX_INDEX];
    pathStart.Increment();
    pathEnd.Increment();
    SuccessorAtPivot(MAX_INDEX, [0], 0);
    SuccessorOfAllMax(MAX_INDEX, [MAX_INDEX]);
    assert pathStart.digits == [1];
    assert pathEnd.digits == [0, 0];
    start := pathStart.Path();
    end := pathEnd.Path();
    assert start.value == [Normal(1)];
    assert end.value == [Normal(0), Normal(0)];
  }

  /**
   * The documented bound is not kept: the largest normal index increments to
   * 2^31, which is not a normal index, so `path()` panics on the result.
   */
  lemma IncrementLeavesNormalRange()
    ensures Successor(MAX_INDEX, [NORMAL_MAX]) == [NORMAL_LIMIT]
    ensures Bounded(NORMAL_MAX, [NORMAL_MAX]) && !Bounded(NORMAL_MAX, [NORMAL_LIMIT])
    ensures ToDerivationPath([NORMAL_MAX]).Some? && ToDerivationPath([NORMAL_LIMIT]) == None
  {
    SuccessorAtPivot(MAX_INDEX, [NORMAL_MAX], 0);
  }

  /** The root `[2^31]` is reached from `m/` after `2^31 + 1` increments, and it has no derivation path. */
  lemma OutOfRangeRootReachable()
    ensures Iterate(MAX_INDEX, [], MAX_INDEX + 1) == [NORMAL_LIMIT]
    ensures ToDerivationPath(Iterate(MAX_INDEX, [], MAX_INDEX + 1)) == None
  {
    CountsUpFirstDigit(MAX_INDEX, MAX_INDEX);
  }

  /**
   * With the documented carry value 2^31 - 1 instead, every root counted up
   * from `m/` is a valid derivation path.
   */
  lemma {:induction false} IntendedRootsStayNormal(n: nat)
    ensures Bounded(NORMAL_MAX, Iterate(NORMAL_MAX, [], n))
    ensures ToDerivationPath(Iterate(NORMAL_MAX, [], n)).Some?
  {
    IterateBounded(NORMAL_MAX, [], n);
  }

  // ---------------------------------------------------------------------------
  // Deriving and matching one candidate.
  // ---------------------------------------------------------------------------

  /** The outcome of deriving the public key at a path and rendering its P2WPKH address. */
  datatype Derivation = Rendered(address: string) | DeriveFailed | AddressFailed

  /** A match decision, or the panic that aborts the whole search. */
  datatype CheckOutcome = Checked(matched: bool) | Panicked(reason: string)

  const DERIVE_PANIC := "Failed to derive path"
  const ADDRESS_PANIC := "Failed to create address from public key"
  const INDEX_PANIC := "Index is not in valid index range"

  /** The rendered address starts with at least one of the prefixes. */
  function MatchesAny(address: string, prefixes: seq<string>): (r: bool)
    ensures r <==> exists p :: p in prefixes && StartsWith(address, p)
  {
    if prefixes == [] then false
    else StartsWith(address, prefixes[0]) || MatchesAny(address, prefixes[1..])
  }

  /** Whether the address derived at `path` starts with a prefix; derivation or rendering failures panic. */
  function CheckPath(derive: DerivationPath -> Derivation, prefixes: seq<string>, path: DerivationPath): (r: CheckOutcome)
    ensures r.Checked? <==> derive(path).Rendered?
    ensures r.Checked? ==> (r.matched <==> exists p :: p in prefixes && StartsWith(derive(path).address, p))
    ensures derive(path) == DeriveFailed ==> r == Panicked(DERIVE_PANIC)
    ensures derive(path) == AddressFailed ==> r == Panicked(ADDRESS_PANIC)
  {
    match derive(path)
    case Rendered(address) => Checked(MatchesAny(address, prefixes))
    case DeriveFailed => Panicked(DERIVE_PANIC)
    case AddressFailed => Panicked(ADDRESS_PANIC)
  }

  /** The order of the prefixes, and repetitions among them, do not change the match. */
  lemma MatchIgnoresOrder(address: string, prefixes: seq<string>, others: seq<string>)
    requires multiset(prefixes) == multiset(others)
    ensures MatchesAny(address, prefixes) == MatchesAny(address, others)
  {
    forall p ensures p in prefixes <==> p in others {
      assert p in prefixes <==> p in multiset(prefixes);
      assert p in others <==> p in multiset(others);
    }
  }

  /** A prefix list holding the first `k` characters of the address matches it. */
  lemma MatchesOwnPrefix(address: string, prefixes: seq<string>, k: nat)
    requires k <= |address| && address[..k] in prefixes
    ensures MatchesAny(address, prefixes)
  {
    assert StartsWith(address, address[..k]);
  }

  /** An empty prefix list never matches. */
  lemma NoPrefixesNoMatch(address: string)
    ensures !MatchesAny(address, [])
  {
  }

  // ---------------------------------------------------------------------------
  // One round of the search: the fan-out over a root's normal children.
  // ---------------------------------------------------------------------------

  predicate ChildMatches(derive: DerivationPath -> Derivation, prefixes: seq<string>, root: DerivationPath, i: int)
  {
    0 <= i < NORMAL_LIMIT && CheckPath(derive, prefixes, root + [Normal(i)]) == Checked(true)
  }

  predicate ChildPanics(derive: DerivationPath -> Derivation, prefixes: seq<string>, root: DerivationPath, i: int)
  {
    0 <= i < NORMAL_LIMIT && CheckPath(derive, prefixes, root + [Normal(i)]).Panicked?
  }

  /** Every normal child of `root` was checked and none matched. */
  predicate Exhausted(derive: DerivationPath -> Derivation, prefixes: seq<string>, root: DerivationPath)
  {
    forall i :: 0 <= i < NORMAL_LIMIT ==> CheckPath(derive, prefixes, root + [Normal(i)]) == Checked(false)
  }

  datatype ChildSearch = FoundChild(index: U32) | NoChildMatched | Aborted(reason: string)

  /**
   * `normal_children().par_bridge().find_any(check_path)`: any matching child
   * may be reported, not necessarily the lowest; a panicking check may abort
   * the round instead; only a root whose every child was checked false yields
   * no match.
   */
  method FindAnyChild(derive: DerivationPath -> Derivation, prefixes: seq<string>, root: DerivationPath)
    returns (r: ChildSearch)
    ensures r.FoundChild? ==> ChildMatches(derive, prefixes, root, r.index)
    ensures r.Aborted? ==> exists i :: ChildPanics(derive, prefixes, root, i) && CheckPath(derive, prefixes, root + [Normal(i)]).reason == r.reason
    ensures r.NoChildMatched? <==> Exhausted(derive, prefixes, root)
  {
    if i :| 0 <= i < NORMAL_LIMIT && ChildMatches(derive, prefixes, root, i) {
      r := FoundChild(i);
    } else if i :| 0 <= i < NORMAL_LIMIT && ChildPanics(derive, prefixes, root, i) {
      r := Aborted(CheckPath(derive, prefixes, root + [Normal(i)]).reason);
    } else {
      forall i | 0 <= i < NORMAL_LIMIT
        ensures CheckPath(derive, prefixes, root + [Normal(i)]) == Checked(false)
      {
        assert !ChildMatches(derive, prefixes, root, i) && !ChildPanics(derive, prefixes, root, i);
      }
      r := NoChildMatched;
    }
  }

  /** The root digits are a valid path and child `i` of it is `path`, which matches. */
  ghost predicate FoundUnder(derive: DerivationPath -> Derivation, prefixes: seq<string>, digits: seq<U32>, i: U32, path: DerivationPath)
  {
    && ToDerivationPath(digits).Some?
    && ChildMatches(derive, prefixes, ToDerivationPath(digits).value, i)
    && path == ToDerivationPath(digits).value + [Normal(i)]
  }

  /** The root digits are a valid path and none of its normal children matches. */
  ghost predicate ExhaustedUnder(derive: DerivationPath -> Derivation, prefixes: seq<string>, digits: seq<U32>)
  {
    ToDerivationPath(digits).Some? && Exhausted(derive, prefixes, ToDerivationPath(digits).value)
  }

  /** The root digits are not a valid path, or checking one of its children panics. */
  ghost predicate PanicsUnder(derive: DerivationPath -> Derivation, prefixes: seq<string>, digits: seq<U32>)
  {
    || ToDerivationPath(digits).None?
    || exists i :: ChildPanics(derive, prefixes, ToDerivationPath(digits).value, i)
  }

  datatype RoundOutcome = FoundPath(path: DerivationPath) | RootExhausted | RoundPanicked(reason: string)

  /**
   * The loop body before the increment: `root.path()`, which panics on a digit
   * that is not a normal index, then the fan-out over its children. The ghost
   * `child` names the matching child.
   */
  method SearchRound(derive: DerivationPath -> Derivation, prefixes: seq<string>, root: IncrementablePath)
    returns (r: RoundOutcome, ghost child: U32)
    ensures r.FoundPath? ==> FoundUnder(derive, prefixes, root.digits, child, r.path)
    ensures r.RootExhausted? <==> ExhaustedUnder(derive, prefixes, root.digits)
    ensures r.RoundPanicked? ==> PanicsUnder(derive, prefixes, root.digits)
  {
    child := 0;
    var path := root.Path();
    if path.None? {
      return RoundPanicked(INDEX_PANIC), child;
    }
    var outcome := FindAnyChild(derive, prefixes, path.value);
    match outcome {
      case FoundChild(i) =>
        r, child := FoundPath(path.value + [Normal(i)]), i;
      case NoChildMatched =>
        r := RootExhausted;
      case Aborted(reason) =>
        r := RoundPanicked(reason);
    }
  }

  // ---------------------------------------------------------------------------
  // The outer loop.
  // ---------------------------------------------------------------------------

  /** The root after `n` increments from `m/`. */
  function Root(n: nat): seq<U32>
  {
    Iterate(MAX_INDEX, [], n)
  }

  /** Round `n` ran on a valid root path and none of its children matched. */
  ghost predicate RoundExhausted(derive: DerivationPath -> Derivation, prefixes: seq<string>, n: nat)
  {
    ExhaustedUnder(derive, prefixes, Root(n))
  }

  /**
   * `path` is a normal child of the root of round `n`, and the address derived
   * at it is `address`, which starts with one of the prefixes.
   */
  ghost predicate MatchedInRound(derive: DerivationPath -> Derivation, prefixes: seq<string>, n: nat, path: DerivationPath, address: string)
  {
    && ToDerivationPath(Root(n)).Some?
    && |path| == |Root(n)| + 1
    && path[..|path| - 1] == ToDerivationPath(Root(n)).value
    && path[|path| - 1].index < NORMAL_LIMIT
    && derive(path) == Rendered(address)
    && MatchesAny(address, prefixes)
  }

  /** A child found under the root of round `n` renders an address that matches. */
  lemma FoundIsMatch(derive: DerivationPath -> Derivation, prefixes: seq<string>, n: nat, i: U32, path: DerivationPath)
    requires FoundUnder(derive, prefixes, Root(n), i, path)
    ensures derive(path).Rendered? && MatchedInRound(derive, prefixes, n, path, derive(path).address)
  {
  }

  datatype SearchOutcome =
    | Ok(path: DerivationPath, address: string)
    | Err(message: string)
    | Panic(reason: string)
    | Cancelled

  const DERIVE_AT_FOUND_PATH_FAILED := "Failed to derive xpub at found path"

  /** `r` is what the search may return after exhausting rounds `0` to `n - 1` and stopping in round `n`. */
  ghost predicate StopsInRound(derive: DerivationPath -> Derivation, prefixes: seq<string>, n: nat, r: SearchOutcome)
  {
    && (r.Ok? ==> MatchedInRound(derive, prefixes, n, r.path, r.address))
    && !r.Err?
    && !r.Cancelled?
    && (r.Panic? ==> PanicsUnder(derive, prefixes, Root(n)))
  }

  datatype Step = Continue | Stop(outcome: SearchOutcome)

  /**
   * One pass of the loop body: search the children of the current root, then
   * either stop with the result or increment the root for the next round.
   */
  method RunRound(derive: DerivationPath -> Derivation, prefixes: seq<string>, root: IncrementablePath, ghost n: nat)
    returns (step: Step)
    requires root.digits == Root(n)
    requires forall m :: 0 <= m < n ==> RoundExhausted(derive, prefixes, m)
    modifies root
    ensures step.Continue? ==> root.digits == Root(n + 1)
    ensures step.Continue? ==> forall m :: 0 <= m < n + 1 ==> RoundExhausted(derive, prefixes, m)
    ensures step.Stop? ==> StopsInRound(derive, prefixes, n, step.outcome) && root.digits == Root(n)
  {
    var outcome;
    ghost var child;
    outcome, child := SearchRound(derive, prefixes, root);
    match outcome {
      case FoundPath(path) =>
        FoundIsMatch(derive, prefixes, n, child, path);
        match derive(path) {
          case Rendered(address) =>
            return Stop(Ok(path, address));
          case _ =>
            return Stop(Err(DERIVE_AT_FOUND_PATH_FAILED));
        }
      case RoundPanicked(reason) =>
        return Stop(Panic(reason));
      case RootExhausted =>
        root.Increment();
        return Continue;
    }
  }

  /**
   * `search_address`: fan out over the children of the current root; if one
   * matches, return it with its address, otherwise increment the root and go
   * on. The source loops until a match is found; `budget` is the number of
   * rounds after which the caller cancels the search.
   */
  method SearchAddress(derive: DerivationPath -> Derivation, prefixes: seq<string>, budget: nat)
    returns (r: SearchOutcome, rounds: nat)
    ensures rounds <= budget
    ensures forall m :: 0 <= m < rounds ==> RoundExhausted(derive, prefixes, m)
    ensures r.Cancelled? <==> rounds == budget
    ensures !r.Cancelled? ==> StopsInRound(derive, prefixes, rounds, r)
  {
    var root := new IncrementablePath();
    rounds := 0;
    while rounds < budget
      invariant root.digits == Root(rounds) && rounds <= budget
      invariant forall m :: 0 <= m < rounds ==> RoundExhausted(derive, prefixes, m)
      decreases budget - rounds
    {
      var step := RunRound(derive, prefixes, root, rounds);
      if step.Stop? {
        return step.outcome, rounds;
      }
      rounds := rounds + 1;
    }
    r := Cancelled;
  }

  /**
   * The search is breadth first: when it reaches round `n`, every root with
   * digits at most `MAX_INDEX` that comes before the current one in shortlex
   * order was a valid path whose children were all checked without a match.
   */
  lemma EarlierRootsExhausted(derive: DerivationPath -> Derivation, prefixes: seq<string>, n: nat, t: seq<U32>)
    requires forall m :: 0 <= m < n ==> RoundExhausted(derive, prefixes, m)
    requires Bounded(MAX_INDEX, t) && ShortlexLess(t, Root(n))
    ensures ExhaustedUnder(derive, prefixes, t)
  {
    EnumerationComplete(MAX_INDEX, n, t);
    var m :| 0 <= m < n && Iterate(MAX_INDEX, [], m) == t;
    assert RoundExhausted(derive, prefixes, m);
  }
}
