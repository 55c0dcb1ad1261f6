/**
 * The `--prefix` argument validator: a vanity prefix must start with `bc1q`
 * (the human-readable part `bc`, the separator `1` and witness version `q`),
 * be 5 to 24 bytes long and hold none of `1`, `b`, `i` or `o` after those four
 * characters. No other character is refused.
 */
module Cli {
  import opened Text

  /** Rust's `Result<(), String>`. */
  datatype Validation = Ok | Err(message: string)

  const REQUIRED_START := "bc1q"

  /** The characters that may not follow the required start. */
  const EXCLUDED := "1bio"

  const NEEDS_BC1Q := "Prefix needs to start with \"bc1q\""
  const TOO_SHORT := "Prefix is too short"
  const TOO_LONG := "Prefix is too long"
  const BAD_CHARACTER := "Prefix can't have the characters '1', 'b', 'i' or 'o'"

  /** Number of bytes in the UTF-8 encoding of `c`. */
  function Utf8Width(c: char): (w: nat)
  {
    if c as int < 0x80 then 1
    else if c as int < 0x800 then 2
    else if c as int < 0x1_0000 then 3
    else 4
  }

  predicate IsAscii(s: string)
  {
    forall j :: 0 <= j < |s| ==> s[j] as int < 0x80
  }

  /** `String::len()`: the length of the UTF-8 encoding, in bytes. */
  function ByteLen(s: string): (n: nat)
    ensures |s| <= n <= 4 * |s|
    ensures IsAscii(s) ==> n == |s|
  {
    if s == [] then 0 else Utf8Width(s[0]) + ByteLen(s[1..])
  }

  /** The byte length of a concatenation is the sum of the byte lengths. */
  lemma {:induction false} ByteLenConcat(a: string, b: string)
    ensures ByteLen(a + b) == ByteLen(a) + ByteLen(b)
  {
    if a != [] {
      assert (a + b)[1..] == a[1..] + b;
      ByteLenConcat(a[1..], b);
    } else {
      assert a + b == b;
    }
  }

  /** `n` copies of one character take `n` times its width. */
  lemma {:induction false} ByteLenRepeated(c: char, n: nat)
    ensures ByteLen(seq(n, _ => c)) == n * Utf8Width(c)
  {
    if n > 0 {
      assert seq(n, _ => c)[1..] == seq(n - 1, _ => c);
      ByteLenRepeated(c, n - 1);
    }
  }

  /** `s.chars().any(|c| chars.contains(c))`. */
  function ContainsAnyOf(s: string, chars: string): (r: bool)
    ensures r <==> exists j :: 0 <= j < |s| && s[j] in chars
  {
    if s == [] then false else s[0] in chars || ContainsAnyOf(s[1..], chars)
  }

  /** What an accepted prefix is, stated without regard to the order of the checks. */
  predicate ValidPrefix(p: string)
  {
    && StartsWith(p, REQUIRED_START)
    && 4 < ByteLen(p) < 25
    && forall j :: 4 <= j < |p| ==> p[j] !in EXCLUDED
  }

  /** The message of every condition `p` violates, in the order the checks run. */
  function Violations(p: string): seq<string>
  {
    (if StartsWith(p, REQUIRED_START) then [] else [NEEDS_BC1Q])
    + (if ByteLen(p) <= 4 then [TOO_SHORT] else [])
    + (if ByteLen(p) >= 25 then [TOO_LONG] else [])
    + (if exists j :: 4 <= j < |p| && p[j] in EXCLUDED then [BAD_CHARACTER] else [])
  }

  /**
   * `check_prefix`: accepts exactly the valid prefixes; a rejected prefix
   * gets the message of the first check it fails.
   */
  function CheckPrefix(prefix: string): (r: Validation)
    ensures r == Ok <==> ValidPrefix(prefix)
    ensures r == Ok <==> Violations(prefix) == []
    ensures r.Err? ==> r.message == Violations(prefix)[0]
  {
    if !StartsWith(prefix, REQUIRED_START) then Err(NEEDS_BC1Q)
    else if ByteLen(prefix) <= 4 then Err(TOO_SHORT)
    else if ByteLen(prefix) >= 25 then Err(TOO_LONG)
    else if ContainsAnyOf(prefix[4..], EXCLUDED) then Err(BAD_CHARACTER)
    else Ok
  }

  /** An accepted prefix starts with `bc1q` and has between 5 and 24 characters. */
  lemma AcceptedShape(p: string)
    requires CheckPrefix(p) == Ok
    ensures p[..4] == REQUIRED_START && 5 <= |p| <= 24
  {
  }

  /** The required start alone is too short. */
  lemma TooShortExample()
    ensures CheckPrefix(REQUIRED_START) == Err(TOO_SHORT)
  {
    assert IsAscii(REQUIRED_START);
  }

  /** Twenty-six ASCII characters are too long. */
  lemma TooLongExample()
    ensures CheckPrefix("bc1qqqqqqqqqqqqqqqqqqqqqqq") == Err(TOO_LONG)
  {
    assert StartsWith("bc1qqqqqqqqqqqqqqqqqqqqqqq", REQUIRED_START);
  }

  /** `btc1q` does not start with `bc1q`. */
  lemma WrongStartExample()
    ensures CheckPrefix("btc1q") == Err(NEEDS_BC1Q)
  {
    assert "btc1q"[1] != REQUIRED_START[1];
  }

  /** Each excluded character right after the required start is rejected. */
  lemma ExcludedCharacterExamples(c: char)
    requires c in EXCLUDED
    ensures CheckPrefix(REQUIRED_START + [c]) == Err(BAD_CHARACTER)
  {
    var p := REQUIRED_START + [c];
    assert IsAscii(p);
    assert p[4] == c;
  }

  /**
   * `"bc1qq"` is accepted although its required start holds a `b` and a `1`;
   * a string that is both too short and lacks `bc1q` gets the "start with"
   * message.
   */
  lemma OrderExamples()
    ensures CheckPrefix("bc1qq") == Ok
    ensures CheckPrefix("bc") == Err(NEEDS_BC1Q)
  {
    assert IsAscii("bc1qq");
  }

  /**
   * Only `1bio` is refused after the required start: a character outside the
   * bech32 data alphabet, such as `A` or `!`, passes the check.
   */
  lemma OtherCharactersAccepted(c: char)
    requires c == 'A' || c == '!'
    ensures CheckPrefix(REQUIRED_START + [c]) == Ok
  {
    var p := REQUIRED_START + [c];
    assert IsAscii(p);
    assert p[4] == c;
  }

  /**
   * Length is counted in bytes: `bc1q` followed by eleven `\U{e9}` (two UTF-8
   * bytes each) is fifteen characters but 26 bytes, and is too long.
   */
  lemma ByteLengthExample()
    ensures |REQUIRED_START + seq(11, _ => '\U{e9}')| == 15
    ensures CheckPrefix(REQUIRED_START + seq(11, _ => '\U{e9}')) == Err(TOO_LONG)
  {
    var tail := seq(11, _ => '\U{e9}');
    ByteLenConcat(REQUIRED_START, tail);
    ByteLenRepeated('\U{e9}', 11);
    assert IsAscii(REQUIRED_START);
  }
}
