# senzu vanity-address search, modelled in Dafny

senzu searches the BIP 32 tree below an extended public key for a P2WPKH
(bech32, `bc1q...`) address that starts with one of the prefixes the user
asks for. This project models two parts of it:

- **The search engine** (`src/vanity.rs`):
  - `IncrementablePath` is a variable-length counter of `u32` digits. It
    starts at the master path `m/` and is incremented with carry.
    `increment` is modelled as a method of a class whose `digits` field it
    rewrites in a loop.
  - `path()` converts the digits to a derivation path of normal child
    indices.
  - `check_path` decides whether the address derived at a path starts with
    one of the prefixes, or panics.
  - The outer `search_address` loop fans out over the normal children of the
    current root and stops at a matching child. Otherwise it increments the
    root.
- **The prefix validator** (`src/cli.rs`): `check_prefix` is the guard chain
  that accepts a prefix when it starts with `bc1q`, is 5 to 24 bytes long and
  has none of `1`, `b`, `i` or `o` after the first four characters. Other
  characters outside the bech32 data alphabet, such as upper-case letters or
  punctuation, are accepted (`Cli.OtherCharactersAccepted`).

Files:

- `odometer.dfy` (module `Odometer`): the counter as a value, for an
  arbitrary carry value `max`.
  - `Successor` is one increment and `Iterate` is `n` increments.
  - It defines the shortlex order (shorter first, then lexicographic) and
    proves it is a strict total order.
  - It proves the carry pattern of one increment, the digit bound, strict
    increase, and that no bounded value is skipped. So counting up from `m/`
    never repeats a value, and every bounded digit sequence below the current
    value was reached before it, in breadth-first order.
- `vanity.dfy` (module `Vanity`):
  - the constant `MAX_INDEX`;
  - the class `IncrementablePath`, whose `Increment` is proved against
    `Successor`;
  - the path conversion, the per-candidate check and the search loop.
- `cli.dfy` (module `Cli`): `CheckPrefix`. It is characterised exactly by a
  predicate for valid prefixes, and by the ordered list of violated
  conditions, whose first entry is the reported message.
- `text.dfy` (module `Text`): `StartsWith`, shared by both parts.

Abstractions:

- **Key derivation and address rendering** are a parameter
  `derive: DerivationPath -> Derivation`. It is a deterministic function that
  renders an address string or fails in one of the two ways the source
  panics on.
- **`find_any`** is a nondeterministic choice of a matching child. It may
  also abort the round with the panic of some child whose check panics.
- **The unbounded search loop** takes a `budget` of rounds after which the
  caller gives up. The outcome `Cancelled` stands for that.

Where the comment on `increment` and the code disagree, the model follows the
code: the bound is documented as 2^31 − 1, but the constant `2 << 31 - 1` is
`2 << 30` = 2^31, because Rust binds `-` tighter than `<<`. See Findings.

## Model

| member | source | states |
|---|---|---|
| Vanity.MaxIndexValue | src/vanity.rs:10 | `2 << (31 - 1)` evaluated on a 32-bit word is 2^31: one above the largest normal index 2^31 − 1 |
| Vanity.FromNormalIdx | src/vanity.rs:73 | a normal child number exists exactly for indices below 2^31, and it carries that index |
| Vanity.ToDerivationPath | src/vanity.rs:69-76 | the digits convert to a path iff every digit is a normal index; then the path has the same length and child `j` is `Normal(digits[j])` |
| Vanity.IncrementablePath.constructor | src/vanity.rs:48-51 | a new counter holds no digits (the master path) |
| Vanity.IncrementablePath.Increment | src/vanity.rs:53-66 | the new digits are the successor of the old ones at carry value `MAX_INDEX`, and they are strictly greater in shortlex order |
| Vanity.IncrementablePath.Path | src/vanity.rs:68-76 | `path()` succeeds iff every digit is a normal index, and then maps digit `j` to child `Normal(digits[j])`; failure is the `expect` panic |
| Vanity.NewPathIsMaster | src/vanity.rs:111-116 | a new counter renders as the master path `m/` |
| Vanity.IncrementExamples | src/vanity.rs:118-128 | `[0]` increments to `m/1` and `[MAX_INDEX]` increments to `m/0/0` |
| Vanity.IncrementLeavesNormalRange | src/vanity.rs:53-73 | the documented bound is not kept: `[2^31 − 1]`, a valid path, increments to `[2^31]`, which has no derivation path |
| Vanity.OutOfRangeRootReachable | src/vanity.rs:17-29 | counting up from `m/`, the search's root after 2^31 + 1 increments is `[2^31]`, on which `path()` panics |
| Vanity.IntendedRootsStayNormal | src/vanity.rs:53 | with the documented carry value 2^31 − 1, every root counted up from `m/` keeps digits at most 2^31 − 1 and converts to a derivation path |
| Vanity.MatchesAny | src/vanity.rs:89 | the address matches iff some prefix in the list is a prefix of it |
| Vanity.CheckPath | src/vanity.rs:79-99 | the check yields a decision iff the address renders, and then the decision is true iff some prefix starts the address; a derivation failure panics with "Failed to derive path" and a rendering failure with "Failed to create address from public key" |
| Vanity.MatchIgnoresOrder | src/vanity.rs:89 | permuting or regrouping the prefix list (same multiset) does not change the match |
| Vanity.MatchesOwnPrefix | src/vanity.rs:89 | a list holding any leading part of the address matches it |
| Vanity.NoPrefixesNoMatch | src/vanity.rs:89 | an empty prefix list never matches |
| Vanity.FindAnyChild | src/vanity.rs:22-26 | a reported child is a normal index whose check is true; an abort carries the panic message of some child whose check panics; no child is reported iff every normal child was checked false |
| Vanity.SearchRound | src/vanity.rs:21-26 | a round reports the child `root ++ [i]` of a valid root path with a true check; it reports exhaustion iff the root is valid and all its children check false; otherwise the root is invalid or a child's check panics |
| Vanity.FoundIsMatch | src/vanity.rs:33-37 | a child found in round `n` derives to a rendered address that starts with a prefix |
| Vanity.RunRound | src/vanity.rs:21-41 | one pass of the loop either increments the root exactly once, having exhausted it, or stops: with the found path and its matching address, or with a panic of this round; the "Failed to derive xpub at found path" error is never returned |
| Vanity.SearchAddress | src/vanity.rs:13-42 | every round before the last was exhausted. Success returns a child of the current root, with an address that matches. The final error is unreachable. A panic comes from the current root (an invalid index or a panicking check). The search is cancelled exactly when it ran all `budget` rounds; any other outcome comes from a round that ran |
| Vanity.EarlierRootsExhausted | src/vanity.rs:12 | the search is breadth first: every root with digits at most `MAX_INDEX` that is shortlex-smaller than the current root was visited and exhausted |
| Odometer.Pivot | src/vanity.rs:55-61 | when some digit is below the carry value, the increment stops at the rightmost such digit; every digit to its right carries |
| Odometer.ShortlexIrreflexive | src/vanity.rs:12 | no path comes before itself in the search order |
| Odometer.ShortlexAsymmetric | src/vanity.rs:12 | two paths are never each before the other |
| Odometer.ShortlexTransitive | src/vanity.rs:12 | the search order is transitive |
| Odometer.ShortlexTotal | src/vanity.rs:12 | any two distinct paths are ordered one way or the other |
| Odometer.SuccessorOfAllMax | src/vanity.rs:55-65 | when every digit carries (also for no digits), the result is all zeros and one digit longer; `[]` becomes `[0]` |
| Odometer.SuccessorAtPivot | src/vanity.rs:55-61 | otherwise the length is kept. The rightmost digit below the carry value rises by exactly one. Digits to its left are unchanged and digits to its right become 0 |
| Odometer.SuccessorBounded | src/vanity.rs:53-66 | digits at most the carry value stay at most the carry value |
| Odometer.SuccessorIncreases | src/vanity.rs:54-66 | every increment moves strictly up in shortlex order |
| Odometer.NothingAboveAllMax | src/vanity.rs:55-65 | a sequence whose digits all carry is the largest bounded sequence of its length |
| Odometer.SuccessorIsImmediate | src/vanity.rs:54-66 | the increment skips no bounded sequence: anything above the old value is the new value or above it |
| Odometer.IterateIncreases | src/vanity.rs:12 | later roots of the search are strictly greater than earlier ones |
| Odometer.IterateNeverRepeats | src/vanity.rs:12 | the search never revisits a root |
| Odometer.EnumerationComplete | src/vanity.rs:12 | every bounded sequence below the `n`-th root is one of the first `n` roots |
| Odometer.CountsUpFirstDigit | src/vanity.rs:55-65 | from `m/`, the roots after 1, 2, ..., `max` + 1 increments are `[0]`, `[1]`, ..., `[max]` |
| Odometer.IterateBounded | src/vanity.rs:53-66 | counting up from bounded digits stays bounded |
| Cli.ByteLen | src/cli.rs:36-41 | the UTF-8 length is between one and four bytes per character, and equals the character count for ASCII |
| Cli.ByteLenConcat | src/cli.rs:36-41 | the byte length of a concatenation is the sum of the byte lengths |
| Cli.ByteLenRepeated | src/cli.rs:36-41 | `n` copies of one character take `n` times its UTF-8 width |
| Cli.ContainsAnyOf | src/cli.rs:42 | true iff some character of the string is one of the given characters |
| Cli.CheckPrefix | src/cli.rs:31-47 | `Ok` iff the prefix starts with `bc1q`, is 5 to 24 bytes long and has no `1`, `b`, `i` or `o` after the first four characters; otherwise the error is the message of the first failing check, in source order |
| Cli.AcceptedShape | src/cli.rs:32-46 | every accepted prefix starts with `bc1q` and has 5 to 24 characters |
| Cli.TooShortExample | src/cli.rs:55 | `bc1q` alone is rejected as too short |
| Cli.TooLongExample | src/cli.rs:56 | the 26-character `bc1qqq...` test string is rejected as too long |
| Cli.WrongStartExample | src/cli.rs:63 | `btc1q` is rejected for not starting with `bc1q` |
| Cli.ExcludedCharacterExamples | src/cli.rs:57-62 | `bc1q1`, `bc1qb`, `bc1qi` and `bc1qo` are rejected for the excluded character |
| Cli.OrderExamples | src/cli.rs:33-44 | `bc1qq` is accepted, although its required start holds a `b` and a `1`; `bc`, both too short and lacking `bc1q`, gets the "start with" message |
| Cli.OtherCharactersAccepted | src/cli.rs:42-46 | only `1`, `b`, `i` and `o` are excluded after `bc1q`: `bc1qA` and `bc1q!`, which no bech32 address starts with, are accepted |
| Cli.ByteLengthExample | src/cli.rs:39-41 | length is counted in bytes: 15 characters of which eleven are two-byte `é` make 26 bytes, which is too long |

## Left out

- Public-key derivation (`derive_pub`), P2WPKH address construction and `to_string` are secp256k1 arithmetic and bech32 encoding in the `bitcoin` crate. They are the `derive` parameter. The `Secp256k1` context is not modelled.
- The panic messages of `check_path` drop their formatted tail (the public key or path), and the `expect` panic of `path()` drops the error that `expect` appends after the message. Only the fixed text is kept.
- Rayon's `par_bridge().find_any` parallelism, thread scheduling and the cancellation of in-flight work are not modelled. The round is a nondeterministic choice among the allowed outcomes.
- `normal_children()` enumeration is modelled as the normal indices 0 to 2^31 − 1. Hardened child numbers never occur in the search and are not modelled.
- `cli::matches()`, the clap argument-parser builder, is library glue and is not part of this model.
- `src/main.rs` (argument extraction, xpub parsing, printing) is not part of this model.
- Vanity.SearchAddress: the source loops until a match is found, however long that takes. The model stops after `budget` rounds with `Cancelled`, so an endless search is represented by its finite prefixes.
- Vanity.SearchAddress: the source's single `while` loop is split into one pass (`Vanity.RunRound`), which handles the re-derivation after a match, and the loop that repeats it. The behaviour is the same.
- Vanity.FindAnyChild: does not say which matching child is returned, because `find_any` gives no such promise.
- Vanity.IncrementablePath: keeps `MAX_INDEX` as written (2^31). This is what the program does. The corrected carry value is covered by the generic odometer lemmas instantiated at 2^31 − 1 (see Findings).
- Cli.CheckPrefix: Rust's `prefix[4..]` slices at byte 4, while the model slices at character 4. The two agree whenever that check runs, because the prefix then starts with the four ASCII characters `bc1q`.

## Findings

| source | as written | input that shows it | evidently intended | confidence | as-written member | corrected member |
|---|---|---|---|---|---|---|
| src/vanity.rs:10 | `MAX_INDEX` is `2 << 31 - 1`, which Rust parses as `2 << 30` = 2^31, so `increment` lets a digit reach 2^31 | counting up from `m/`, the root after 2^31 + 1 increments is `[2^31]`; `path()` then panics in `from_normal_idx(..).expect(..)` at src/vanity.rs:73 | the carry value 2^31 − 1 documented at src/vanity.rs:53, so that every root is a valid path of normal indices | not executed | Vanity.OutOfRangeRootReachable | Vanity.IntendedRootsStayNormal |

The search engine model keeps the constant as written, because it describes
what the program does. The corrected behaviour is the same odometer
(`Odometer.Successor`, `Odometer.Iterate` and their lemmas, all generic in the
carry value) instantiated at 2^31 − 1. `Vanity.IntendedRootsStayNormal` proves
that every root then converts to a derivation path.
