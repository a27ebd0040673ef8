/** The small pieces of Python's string library the proxy relies on:
    `str.strip()`, ASCII `str.lower()`, `str.endswith` and `sep.join(parts)`,
    plus the Option type used for values that may be absent. */
module Text {

  datatype Option<+T> = None | Some(value: T) {
    /** The value, or `default` when absent (Python's `dict.get(key, default)`). */
    function GetOr(default: T): T {
      match this
      case Some(v) => v
      case None => default
    }
  }

  /** The characters Python's `str.isspace()` accepts, which is the set `str.strip()` removes. */
  predicate IsSpace(c: char) {
    var n := c as int;
    (9 <= n <= 13) || (28 <= n <= 32) || n == 0x85 || n == 0xA0 || n == 0x1680
    || (0x2000 <= n <= 0x200A) || n == 0x2028 || n == 0x2029 || n == 0x202F
    || n == 0x205F || n == 0x3000
  }

  /** `s.lstrip()`: drop whitespace from the front, one character at a time. */
  function TrimStart(s: string): string
    decreases |s|
  {
    if s != [] && IsSpace(s[0]) then TrimStart(s[1..]) else s
  }

  /** `s.rstrip()`: drop whitespace from the back, one character at a time. */
  function TrimEnd(s: string): string
    decreases |s|
  {
    if s != [] && IsSpace(s[|s| - 1]) then TrimEnd(s[..|s| - 1]) else s
  }

  /** `s.lstrip()` is the longest suffix of `s` that does not start with whitespace. */
  lemma {:induction false} TrimStartSpec(s: string)
    ensures var r := TrimStart(s);
      && |r| <= |s| && r == s[|s| - |r|..]
      && (r == [] || !IsSpace(r[0]))
      && (forall i :: 0 <= i < |s| - |r| ==> IsSpace(s[i]))
    decreases |s|
  {
    if s != [] && IsSpace(s[0]) {
      TrimStartSpec(s[1..]);
      assert forall i :: 1 <= i < |s| ==> s[i] == s[1..][i - 1];
    }
  }

  /** `s.rstrip()` is the longest prefix of `s` that does not end with whitespace. */
  lemma {:induction false} TrimEndSpec(s: string)
    ensures var r := TrimEnd(s);
      && |r| <= |s| && r == s[..|r|]
      && (r == [] || !IsSpace(r[|r| - 1]))
      && (forall i :: |r| <= i < |s| ==> IsSpace(s[i]))
    decreases |s|
  {
    if s != [] && IsSpace(s[|s| - 1]) {
      TrimEndSpec(s[..|s| - 1]);
    }
  }

  /** How many whitespace characters `s.lstrip()` cuts from the front of `s`. */
  function LeadingSpaces(s: string): (n: nat)
    ensures n <= |s|
  {
    TrimStartSpec(s);
    |s| - |TrimStart(s)|
  }

  /** Neither starting nor ending with whitespace. */
  predicate Trimmed(s: string) {
    s == [] || (!IsSpace(s[0]) && !IsSpace(s[|s| - 1]))
  }

  /** `s.strip()`: `lstrip`, then `rstrip`. */
  function Strip(s: string): string {
    TrimEnd(TrimStart(s))
  }

  /** `s.strip()` is the slice of `s` that starts after its leading whitespace, with only
      whitespace cut away after it, and neither starting nor ending with whitespace. */
  lemma StripSpec(s: string)
    ensures var r := Strip(s);
      && LeadingSpaces(s) + |r| <= |s| && r == s[LeadingSpaces(s)..LeadingSpaces(s) + |r|]
      && (forall k :: 0 <= k < LeadingSpaces(s) ==> IsSpace(s[k]))
      && (forall k :: LeadingSpaces(s) + |r| <= k < |s| ==> IsSpace(s[k]))
      && Trimmed(r)
  {
    TrimStartSpec(s);
    TrimEndSpec(TrimStart(s));
  }

  /** A string with no surrounding whitespace strips to itself. */
  lemma TrimmedIsStripped(s: string)
    requires Trimmed(s)
    ensures Strip(s) == s
  {
    if s != [] {
      assert TrimStart(s) == s;
      assert TrimEnd(s) == s;
    }
  }

  /** Stripping twice is stripping once: a stripped prompt is its own cache key. */
  lemma StripIdempotent(s: string)
    ensures Strip(Strip(s)) == Strip(s)
  {
    StripSpec(s);
    TrimmedIsStripped(Strip(s));
  }

  /** A string strips to nothing exactly when it is all whitespace
      (Python's `not s.strip()`). */
  lemma StripEmptyIff(s: string)
    ensures Strip(s) == [] <==> forall k :: 0 <= k < |s| ==> IsSpace(s[k])
  {
    StripSpec(s);
    TrimStartSpec(s);
    if forall k :: 0 <= k < |s| ==> IsSpace(s[k]) {
      var r := TrimStart(s);
      assert r != [] ==> r[0] == s[|s| - |r|];
    }
  }

  /** Nothing but whitespace (Python's `not s.strip()`), read character by character. */
  predicate Blank(s: string)
    decreases |s|
  {
    s == [] || (IsSpace(s[0]) && Blank(s[1..]))
  }

  lemma {:induction false} BlankAllSpace(s: string)
    ensures Blank(s) <==> forall k :: 0 <= k < |s| ==> IsSpace(s[k])
    decreases |s|
  {
    if s != [] {
      BlankAllSpace(s[1..]);
      assert forall k :: 0 <= k < |s| - 1 ==> s[1..][k] == s[k + 1];
    }
  }

  /** A string is blank exactly when it strips to nothing. */
  lemma BlankIff(s: string)
    ensures Blank(s) <==> Strip(s) == []
  {
    BlankAllSpace(s);
    StripEmptyIff(s);
  }

  /** ASCII lower-casing of one character. */
  function LowerChar(c: char): char {
    if 'A' <= c <= 'Z' then (c as int + 32) as char else c
  }

  /** `s.lower()` restricted to ASCII letters, character by character. */
  function Lower(s: string): string {
    seq(|s|, i requires 0 <= i < |s| => LowerChar(s[i]))
  }

  /** Lower-casing twice is lower-casing once. */
  lemma LowerIdempotent(s: string)
    ensures Lower(Lower(s)) == Lower(s)
  {
  }

  /** `s.endswith(suffix)`. */
  predicate EndsWith(s: string, suffix: string) {
    |suffix| <= |s| && s[|s| - |suffix|..] == suffix
  }

  /** `s.startswith(prefix)`. */
  predicate StartsWith(s: string, prefix: string) {
    |prefix| <= |s| && s[..|prefix|] == prefix
  }

  /** `sep.join(parts)`. */
  function Join(sep: string, parts: seq<string>): string
    decreases |parts|
  {
    if |parts| == 0 then ""
    else if |parts| == 1 then parts[0]
    else Join(sep, parts[..|parts| - 1]) + sep + parts[|parts| - 1]
  }

  /** The number of occurrences of `c` in `s`. */
  function Occurrences(c: char, s: string): nat {
    if s == [] then 0 else (if s[0] == c then 1 else 0) + Occurrences(c, s[1..])
  }

  lemma {:induction false} OccurrencesAppend(c: char, a: string, b: string)
    ensures Occurrences(c, a + b) == Occurrences(c, a) + Occurrences(c, b)
  {
    if a != [] {
      assert (a + b)[0] == a[0];
      assert (a + b)[1..] == a[1..] + b;
      OccurrencesAppend(c, a[1..], b);
    } else {
      assert a + b == b;
    }
  }

  /** The total number of occurrences of `c` across `parts`. */
  function OccurrencesIn(c: char, parts: seq<string>): nat
    decreases |parts|
  {
    if parts == [] then 0
    else OccurrencesIn(c, parts[..|parts| - 1]) + Occurrences(c, parts[|parts| - 1])
  }

  /** Joining `n` parts adds exactly `n - 1` separators: a separator character
      occurs in the join as often as in the parts, plus once per gap. */
  lemma {:induction false} JoinOccurrences(c: char, parts: seq<string>)
    requires |parts| > 0
    ensures Occurrences(c, Join([c], parts)) == OccurrencesIn(c, parts) + |parts| - 1
    decreases |parts|
  {
    if |parts| == 1 {
      assert parts[..0] == [];
    } else {
      var init := parts[..|parts| - 1];
      JoinOccurrences(c, init);
      OccurrencesAppend(c, Join([c], init), [c]);
      OccurrencesAppend(c, Join([c], init) + [c], parts[|parts| - 1]);
      assert Occurrences(c, [c]) == 1;
    }
  }

  /** Joining is associative over a split of the parts: the join of `a + b`
      is the join of `a`, the separator, and the join of `b`. */
  lemma {:induction false} JoinAppend(sep: string, a: seq<string>, b: seq<string>)
    requires a != [] && b != []
    ensures Join(sep, a + b) == Join(sep, a) + sep + Join(sep, b)
    decreases |b|
  {
    if |b| == 1 {
      assert (a + b)[..|a + b| - 1] == a;
    } else {
      var init := b[..|b| - 1];
      assert (a + b)[..|a + b| - 1] == a + init;
      JoinAppend(sep, a, init);
    }
  }
}
