/** Python string operations the daemons rely on, written out as Dafny functions:
    slicing, str.strip/lstrip/rstrip, str.lower, `in`, str.startswith, str.split,
    str.join, str.replace, str(int) and int(float). Character classes are the ASCII ones. */
module Text {
  import opened Optional

  /** The characters Python's str.strip() removes that lie in ASCII. */
  const Whitespace: set<char> :=
    {' ', '\t', '\n', '\r', '\U{0B}', '\U{0C}', '\U{1C}', '\U{1D}', '\U{1E}', '\U{1F}'}

  predicate IsDigit(c: char) { '0' <= c <= '9' }

  /** Python's `\w` restricted to ASCII: letters, digits and underscore. */
  predicate IsWordChar(c: char) {
    ('a' <= c <= 'z') || ('A' <= c <= 'Z') || IsDigit(c) || c == '_'
  }

  predicate AllDigits(s: string) { forall i :: 0 <= i < |s| ==> IsDigit(s[i]) }

  // ---------------------------------------------------------------------------
  // Slicing

  /** `xs[:n]` for n >= 0. */
  function Take<T>(xs: seq<T>, n: nat): (r: seq<T>)
    ensures |r| == if n < |xs| then n else |xs|
    ensures r <= xs
  {
    if n < |xs| then xs[..n] else xs
  }

  /** `xs[-n:]` for n > 0: the newest n entries, or all of them when there are fewer. */
  function Last<T>(xs: seq<T>, n: nat): (r: seq<T>)
    ensures |r| == if n < |xs| then n else |xs|
  {
    if n < |xs| then xs[|xs| - n..] else xs
  }

  /** The entries `Last` keeps are the newest ones, in order. */
  lemma LastIndex<T>(xs: seq<T>, n: nat)
    ensures forall i :: 0 <= i < |Last(xs, n)| ==> Last(xs, n)[i] == xs[|xs| - |Last(xs, n)| + i]
  {
  }

  /** Appending one entry to a list and keeping only its newest `cap` entries. */
  function PushCapped<T>(xs: seq<T>, x: T, cap: nat): (r: seq<T>)
    requires cap > 0
    ensures |r| <= cap
    ensures |xs| < cap ==> r == xs + [x]
    ensures r != [] && r[|r| - 1] == x
  {
    Last(xs + [x], cap)
  }

  /** What is kept is the newest `cap` entries of the list with `x` appended: all of
      them while there are at most `cap`, and otherwise the oldest are dropped. */
  lemma PushCappedKeepsNewest<T>(xs: seq<T>, x: T, cap: nat)
    requires cap > 0
    ensures var r := PushCapped(xs, x, cap);
      |r| == (if |xs| < cap then |xs| + 1 else cap) && r == (xs + [x])[|xs| + 1 - |r|..]
  {
  }

  // ---------------------------------------------------------------------------
  // Stripping

  /** `s.lstrip(chars)`. */
  function LStrip(s: string, chars: set<char>): (r: string)
    ensures |r| <= |s| && r == s[|s| - |r|..]
    ensures r == [] || r[0] !in chars
    ensures forall i :: 0 <= i < |s| - |r| ==> s[i] in chars
  {
    if |s| > 0 && s[0] in chars then LStrip(s[1..], chars) else s
  }

  /** `s.rstrip(chars)`. */
  function RStrip(s: string, chars: set<char>): (r: string)
    ensures |r| <= |s| && r == s[..|r|]
    ensures r == [] || r[|r| - 1] !in chars
    ensures forall i :: |r| <= i < |s| ==> s[i] in chars
  {
    if |s| > 0 && s[|s| - 1] in chars then RStrip(s[..|s| - 1], chars) else s
  }

  /** `s.strip()`: no leading and no trailing whitespace is left. */
  function Strip(s: string): (r: string)
    ensures r == [] || (r[0] !in Whitespace && r[|r| - 1] !in Whitespace)
  {
    var l := LStrip(s, Whitespace);
    var r := RStrip(l, Whitespace);
    assert r != [] ==> r[0] == l[0];
    r
  }

  /** Where the stripped string starts in the original. */
  function StripStart(s: string): nat {
    |s| - |LStrip(s, Whitespace)|
  }

  /** The stripped string is a slice of the original. */
  lemma StripSlice(s: string)
    ensures StripStart(s) + |Strip(s)| <= |s|
    ensures Strip(s) == s[StripStart(s)..StripStart(s) + |Strip(s)|]
  {
    var l := LStrip(s, Whitespace);
    var a := |s| - |l|;
    var r := Strip(s);
    assert r == l[..|r|];
    assert s[a..a + |r|] == l[..|r|];
  }

  /** A string with a non-blank character does not strip to nothing. */
  lemma StripNonBlank(s: string, i: nat)
    requires i < |s| && s[i] !in Whitespace
    ensures Strip(s) != []
  {
    var l := LStrip(s, Whitespace);
    assert i >= |s| - |l|;
    assert l[i - (|s| - |l|)] == s[i];
    var r := RStrip(l, Whitespace);
    assert |r| > i - (|s| - |l|);
  }

  lemma {:induction false} LStripIdle(s: string, chars: set<char>)
    requires s == [] || s[0] !in chars
    ensures LStrip(s, chars) == s
  {
  }

  lemma {:induction false} RStripIdle(s: string, chars: set<char>)
    requires s == [] || s[|s| - 1] !in chars
    ensures RStrip(s, chars) == s
  {
  }

  /** Stripping twice is stripping once. */
  lemma StripIdempotent(s: string)
    ensures Strip(Strip(s)) == Strip(s)
  {
    var t := Strip(s);
    LStripIdle(t, Whitespace);
    RStripIdle(t, Whitespace);
  }

  // ---------------------------------------------------------------------------
  // Case

  /** `c.lower()` for ASCII letters; every other character is its own lower case. */
  function LowerChar(c: char): (r: char)
    ensures 'A' <= c <= 'Z' ==> 'a' <= r <= 'z'
    ensures !('A' <= r <= 'Z')
  {
    if 'A' <= c <= 'Z' then (c as int + 32) as char else c
  }

  /** `s.lower()`. */
  function Lower(s: string): (r: string)
    ensures |r| == |s|
    ensures forall i :: 0 <= i < |s| ==> r[i] == LowerChar(s[i])
  {
    seq(|s|, i requires 0 <= i < |s| => LowerChar(s[i]))
  }

  lemma LowerIdempotent(s: string)
    ensures Lower(Lower(s)) == Lower(s)
  {
  }

  // ---------------------------------------------------------------------------
  // Searching

  predicate StartsWith(s: string, p: string) { |p| <= |s| && s[..|p|] == p }

  predicate OccursAt(s: string, p: string, i: int) {
    0 <= i && i + |p| <= |s| && s[i..i + |p|] == p
  }

  /** The first index at or after `from` where `p` occurs in `s`. */
  function IndexFrom(s: string, p: string, from: nat): (r: Option<nat>)
    ensures r.Some? ==> from <= r.value && OccursAt(s, p, r.value)
    ensures r.Some? ==> forall j :: from <= j < r.value ==> !OccursAt(s, p, j)
    ensures r.None? ==> forall j :: from <= j ==> !OccursAt(s, p, j)
    decreases |s| - from
  {
    if from + |p| > |s| then None
    else if s[from..from + |p|] == p then Some(from)
    else IndexFrom(s, p, from + 1)
  }

  /** `s.find(p)`, with None for -1. */
  function IndexOf(s: string, p: string): (r: Option<nat>)
    ensures r.Some? <==> exists j :: OccursAt(s, p, j)
    ensures r.Some? ==> OccursAt(s, p, r.value) && forall j :: 0 <= j < r.value ==> !OccursAt(s, p, j)
  {
    IndexFrom(s, p, 0)
  }

  /** Python's `p in s`. */
  predicate Contains(s: string, p: string) { IndexOf(s, p).Some? }

  /** A substring's characters all occur in the string. */
  lemma ContainsChars(s: string, p: string, c: char)
    requires Contains(s, p) && c in p
    ensures c in s
  {
    var k := IndexOf(s, p).value;
    var j :| 0 <= j < |p| && p[j] == c;
    assert s[k + j] == s[k..k + |p|][j];
  }

  lemma ContainsAt(s: string, p: string, i: int)
    requires OccursAt(s, p, i)
    ensures Contains(s, p)
  {
  }

  lemma ContainsPrefix(s: string, p: string)
    requires StartsWith(s, p)
    ensures Contains(s, p)
  {
    assert OccursAt(s, p, 0);
  }

  lemma {:induction false} ContainsInConcat(a: string, p: string, b: string)
    ensures Contains(a + p + b, p)
  {
    assert (a + p + b)[|a|..|a| + |p|] == p;
    assert OccursAt(a + p + b, p, |a|);
  }

  /** A string that contains `p` still does once extended at either end. */
  lemma ContainsExtended(s: string, p: string, t: string)
    requires Contains(s, p)
    ensures Contains(s + t, p)
  {
    var k := IndexOf(s, p).value;
    assert (s + t)[k..k + |p|] == s[k..k + |p|];
    ContainsAt(s + t, p, k);
  }

  lemma ContainsBetween(h: string, s: string, t: string, p: string)
    requires Contains(s, p)
    ensures Contains(h + s + t, p)
  {
    ContainsPrepended(h, s, p);
    ContainsExtended(h + s, p, t);
  }

  lemma ContainsPrepended(t: string, s: string, p: string)
    requires Contains(s, p)
    ensures Contains(t + s, p)
  {
    var k := IndexOf(s, p).value;
    assert (t + s)[|t| + k..|t| + k + |p|] == s[k..k + |p|];
    ContainsAt(t + s, p, |t| + k);
  }

  lemma StartsWithConcat(a: string, b: string)
    ensures StartsWith(a + b, a)
  {
    assert (a + b)[..|a|] == a;
  }

  lemma StartsWithExtended(s: string, p: string, t: string)
    requires StartsWith(s, p)
    ensures StartsWith(s + t, p)
  {
    assert (s + t)[..|p|] == s[..|p|];
  }

  /** A string containing `a + p + b` contains `p`. */
  lemma ContainsInfix(s: string, a: string, p: string, b: string)
    requires Contains(s, a + p + b)
    ensures Contains(s, p)
  {
    var k := IndexOf(s, a + p + b).value;
    assert s[k + |a|..k + |a| + |p|] == s[k..k + |a| + |p| + |b|][|a|..|a| + |p|];
    ContainsAt(s, p, k + |a|);
  }

  // ---------------------------------------------------------------------------
  // Replacing

  /** `s.replace(p, r)` for a non-empty pattern: every non-overlapping occurrence,
      scanned left to right, is replaced. */
  function Replace(s: string, p: string, rep: string): (r: string)
    requires |p| > 0
    ensures !Contains(s, p) ==> r == s
    ensures Contains(s, p) ==> Contains(r, rep)
    ensures |rep| >= |p| ==> |r| >= |s|
    ensures Contains(s, p) && |rep| > |p| ==> |r| > |s|
    decreases |s|
  {
    match IndexOf(s, p)
    case None => s
    case Some(k) =>
      var tail := Replace(s[k + |p|..], p, rep);
      ContainsInConcat(s[..k], rep, tail);
      s[..k] + rep + tail
  }

  // ---------------------------------------------------------------------------
  // Splitting and joining

  /** `sep.join(parts)`. */
  function Join(parts: seq<string>, sep: string): (r: string)
  {
    if |parts| == 0 then ""
    else if |parts| == 1 then parts[0]
    else parts[0] + sep + Join(parts[1..], sep)
  }

  /** Every piece occurs in the joined string. */
  lemma {:induction false} JoinContains(parts: seq<string>, sep: string, k: nat)
    requires k < |parts|
    ensures Contains(Join(parts, sep), parts[k])
    decreases |parts|
  {
    if k == 0 {
      if |parts| > 1 {
        assert Join(parts, sep)[..|parts[0]|] == parts[0];
      }
      ContainsPrefix(Join(parts, sep), parts[0]);
    } else {
      JoinContains(parts[1..], sep, k - 1);
      ContainsPrepended(parts[0] + sep, Join(parts[1..], sep), parts[k]);
    }
  }

  /** `s.split(sep)` for a one-character separator: never empty, no piece contains the
      separator, and joining the pieces with the separator gives `s` back. */
  function Split(s: string, sep: char): (r: seq<string>)
    ensures |r| >= 1
    ensures forall i :: 0 <= i < |r| ==> sep !in r[i]
    ensures Join(r, [sep]) == s
    decreases |s|
  {
    match IndexOf(s, [sep])
    case None =>
      SepFree(s, sep, |s|);
      assert s[..|s|] == s;
      [s]
    case Some(k) =>
      SepFree(s, sep, k);
      var rest := Split(s[k + 1..], sep);
      SplitAt(s, sep, k);
      [s[..k]] + rest
  }

  /** A prefix before the first occurrence of a character does not hold it. */
  lemma SepFree(s: string, sep: char, k: nat)
    requires k <= |s|
    requires forall j :: 0 <= j < k ==> !OccursAt(s, [sep], j)
    ensures sep !in s[..k]
  {
    forall j | 0 <= j < k ensures s[j] != sep {
      assert !OccursAt(s, [sep], j);
      assert s[j..j + 1] == [s[j]];
    }
  }

  lemma SplitAt(s: string, sep: char, k: nat)
    requires OccursAt(s, [sep], k)
    ensures s == s[..k] + [sep] + s[k + 1..]
  {
    assert s[k..k + 1] == [sep];
  }

  /** Splitting pieces joined by the separator gives the pieces back. */
  lemma {:induction false} SplitJoin(parts: seq<string>, sep: char)
    requires |parts| >= 1
    requires forall i :: 0 <= i < |parts| ==> sep !in parts[i]
    ensures Split(Join(parts, [sep]), sep) == parts
    decreases |parts|
  {
    var h := parts[0];
    if |parts| == 1 {
      NoOccurrence(h, sep);
    } else {
      var tail := Join(parts[1..], [sep]);
      var s := h + [sep] + tail;
      assert Join(parts, [sep]) == s;
      FirstSeparator(h, sep, tail);
      assert s[..|h|] == h;
      assert s[|h| + 1..] == tail;
      SplitJoin(parts[1..], sep);
      assert parts == [h] + parts[1..];
    }
  }

  lemma NoOccurrence(s: string, sep: char)
    requires sep !in s
    ensures IndexOf(s, [sep]).None?
  {
    forall j | 0 <= j && j + 1 <= |s| ensures !OccursAt(s, [sep], j) {
      assert s[j..j + 1] == [s[j]];
    }
  }

  lemma FirstSeparator(h: string, sep: char, tail: string)
    requires sep !in h
    ensures IndexOf(h + [sep] + tail, [sep]) == Some(|h|)
  {
    var s := h + [sep] + tail;
    assert OccursAt(s, [sep], |h|) by { assert s[|h|..|h| + 1] == [sep]; }
    forall j | 0 <= j < |h| ensures !OccursAt(s, [sep], j) {
      assert s[j..j + 1] == [h[j]];
    }
  }

  // ---------------------------------------------------------------------------
  // Numbers

  function DigitChar(d: nat): (c: char)
    requires d < 10
    ensures IsDigit(c)
  {
    ('0' as int + d) as char
  }

  /** `str(n)` for n >= 0: decimal digits without leading zeros. */
  function NatToString(n: nat): (r: string)
    ensures |r| >= 1 && AllDigits(r)
    ensures |r| > 1 ==> r[0] != '0'
    decreases n
  {
    if n < 10 then [DigitChar(n)] else NatToString(n / 10) + [DigitChar(n % 10)]
  }

  /** `str(i)`. */
  function IntToString(i: int): (r: string)
    ensures |r| >= 1
    ensures (r[0] == '-') <==> i < 0
  {
    if i < 0 then "-" + NatToString(-i) else NatToString(i)
  }

  /** `int(s)` for a string of ASCII digits (empty gives 0). */
  function ParseNat(s: string): (n: nat)
    requires AllDigits(s)
  {
    if s == [] then 0 else 10 * ParseNat(s[..|s| - 1]) + (s[|s| - 1] as int - '0' as int)
  }

  /** Printing a number and reading it back gives the number. */
  lemma {:induction false} ParseNatToString(n: nat)
    ensures ParseNat(NatToString(n)) == n
    decreases n
  {
    if n >= 10 {
      var s := NatToString(n);
      assert s[..|s| - 1] == NatToString(n / 10);
      ParseNatToString(n / 10);
    }
  }

  /** `int(x)` for a float: truncation toward zero. */
  function Trunc(x: real): (r: int)
    ensures x >= 0.0 ==> r == x.Floor
    ensures x >= 0.0 ==> r as real <= x < r as real + 1.0
    ensures x < 0.0 ==> r == -((-x).Floor)
  {
    if x >= 0.0 then x.Floor else -((-x).Floor)
  }
}
