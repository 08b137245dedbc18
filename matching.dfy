/** The regular expressions the daemons apply to GM command text, each written as a
    deterministic matcher at one position (every pattern here is unambiguous: each greedy
    run is followed by a character its class excludes, so backtracking never changes the
    match), plus `re.search` (leftmost position) and `re.findall` (left to right, without
    overlap). `\w`, `\d` and `\s` are the ASCII classes. */
module Matching {
  import opened Optional
  import opened Text

  predicate IsSpace(c: char) { c in Whitespace }
  predicate IsQuote(c: char) { c == '"' || c == '\'' }
  predicate NotCloseParen(c: char) { c != ')' }

  /** The character classes the patterns repeat: `\d`, `\w`, `\s` and `[^)]`. */
  datatype CharClass = Digit | WordChar | Space | NotParen

  predicate InClass(c: char, cls: CharClass) {
    match cls
    case Digit => IsDigit(c)
    case WordChar => IsWordChar(c)
    case Space => IsSpace(c)
    case NotParen => NotCloseParen(c)
  }

  /** The end of the longest run of characters of class `cls` from `i`. */
  function RunEnd(s: string, i: nat, cls: CharClass): (j: nat)
    requires i <= |s|
    ensures i <= j <= |s|
    decreases |s| - i
  {
    if i < |s| && InClass(s[i], cls) then RunEnd(s, i + 1, cls) else i
  }

  /** Every character of the run is in the class, and the one that stops it is not. */
  lemma {:induction false} RunEndFacts(s: string, i: nat, cls: CharClass)
    requires i <= |s|
    ensures forall k :: i <= k < RunEnd(s, i, cls) ==> InClass(s[k], cls)
    ensures RunEnd(s, i, cls) < |s| ==> !InClass(s[RunEnd(s, i, cls)], cls)
    decreases |s| - i
  {
    if i < |s| && InClass(s[i], cls) {
      RunEndFacts(s, i + 1, cls);
    }
  }

  /** A run is determined by where it stops. */
  lemma {:induction false} RunEndIs(s: string, i: nat, cls: CharClass, j: nat)
    requires i <= j <= |s|
    requires forall k :: i <= k < j ==> InClass(s[k], cls)
    requires j < |s| ==> !InClass(s[j], cls)
    ensures RunEnd(s, i, cls) == j
    decreases j - i
  {
    if i < j {
      assert InClass(s[i], cls);
      RunEndIs(s, i + 1, cls, j);
    }
  }

  /** The length of the longest prefix of `t` whose characters are of class `cls`. */
  function RunLen(t: string, cls: CharClass): (n: nat)
    ensures n <= |t|
  {
    if t != [] && InClass(t[0], cls) then 1 + RunLen(t[1..], cls) else 0
  }

  lemma {:induction false} RunLenFacts(t: string, cls: CharClass)
    ensures forall k :: 0 <= k < RunLen(t, cls) ==> InClass(t[k], cls)
    ensures RunLen(t, cls) < |t| ==> !InClass(t[RunLen(t, cls)], cls)
  {
    if t != [] && InClass(t[0], cls) {
      RunLenFacts(t[1..], cls);
    }
  }

  /** A run over a whole first part stops where the second part starts, unless the
      second part continues it. */
  lemma {:induction false} RunLenConcat(a: string, b: string, cls: CharClass)
    requires forall k :: 0 <= k < |a| ==> InClass(a[k], cls)
    requires b != [] ==> !InClass(b[0], cls)
    ensures RunLen(a + b, cls) == |a|
  {
    if a == [] {
      assert a + b == b;
    } else {
      assert (a + b)[1..] == a[1..] + b;
      RunLenConcat(a[1..], b, cls);
    }
  }

  // ---------------------------------------------------------------------------
  // Pattern pieces: each takes a position and gives the position after the piece.

  /** A literal string. */
  function Lit(s: string, i: nat, p: string): (r: Option<nat>)
    ensures r.Some? <==> OccursAt(s, p, i)
    ensures r.Some? ==> r.value == i + |p| <= |s|
  {
    if OccursAt(s, p, i) then Some(i + |p|) else None
  }

  /** A single literal character. */
  function Char(s: string, i: nat, c: char): (r: Option<nat>)
    ensures r.Some? <==> i < |s| && s[i] == c
    ensures r.Some? ==> r.value == i + 1
  {
    if i < |s| && s[i] == c then Some(i + 1) else None
  }

  /** `\d+`. */
  function Digits(s: string, i: nat): (r: Option<nat>)
    ensures r.Some? ==> i < r.value <= |s| && AllDigits(s[i..r.value])
  {
    if i <= |s| && RunEnd(s, i, Digit) > i then
      RunEndFacts(s, i, Digit);
      Some(RunEnd(s, i, Digit))
    else None
  }

  /** `\w+`. */
  function Word(s: string, i: nat): (r: Option<nat>)
    ensures r.Some? ==> i < r.value <= |s|
  {
    if i <= |s| && RunEnd(s, i, WordChar) > i then Some(RunEnd(s, i, WordChar)) else None
  }

  /** `\s*`. */
  function Spaces(s: string, i: nat): (r: nat)
    requires i <= |s|
    ensures i <= r <= |s|
  {
    RunEnd(s, i, Space)
  }

  /** `["']?`. */
  function OptQuote(s: string, i: nat): (r: nat)
    requires i <= |s|
    ensures i <= r <= |s|
  {
    if i < |s| && IsQuote(s[i]) then i + 1 else i
  }

  // ---------------------------------------------------------------------------
  // re.search

  /** The leftmost position at or after `from` where `at` matches. */
  function SearchFrom<T>(s: string, at: (string, nat) -> Option<T>, from: nat): (r: Option<nat>)
    ensures r.Some? ==> from <= r.value <= |s| && at(s, r.value).Some?
    decreases |s| + 1 - from
  {
    if from > |s| then None
    else if at(s, from).Some? then Some(from)
    else SearchFrom(s, at, from + 1)
  }

  /** The position `SearchFrom` returns is the leftmost match, and when it returns
      nothing there is no match at all. */
  lemma {:induction false} SearchFromLeftmost<T>(s: string, at: (string, nat) -> Option<T>, from: nat)
    ensures SearchFrom(s, at, from).Some? ==> forall i :: from <= i < SearchFrom(s, at, from).value ==> at(s, i).None?
    ensures SearchFrom(s, at, from).None? ==> forall i :: from <= i <= |s| ==> at(s, i).None?
    decreases |s| + 1 - from
  {
    if from <= |s| && at(s, from).None? {
      SearchFromLeftmost(s, at, from + 1);
    }
  }

  /** Conversely, a match with no match between `from` and it is what `SearchFrom`
      returns. */
  lemma {:induction false} SearchFromIs<T>(s: string, at: (string, nat) -> Option<T>, from: nat, i: nat)
    requires from <= i <= |s| && at(s, i).Some?
    requires forall k :: from <= k < i ==> at(s, k).None?
    ensures SearchFrom(s, at, from) == Some(i)
    decreases i - from
  {
    if from < i {
      assert at(s, from).None?;
      SearchFromIs(s, at, from + 1, i);
    }
  }

  /** And with no match at all from `from` on, `SearchFrom` returns nothing. */
  lemma {:induction false} SearchFromNone<T>(s: string, at: (string, nat) -> Option<T>, from: nat)
    requires forall k :: from <= k <= |s| ==> at(s, k).None?
    ensures SearchFrom(s, at, from).None?
    decreases |s| + 1 - from
  {
    if from <= |s| {
      assert at(s, from).None?;
      SearchFromNone(s, at, from + 1);
    }
  }

  /** `re.search(pattern, s)`: the groups of the leftmost match. */
  function Search<T>(s: string, at: (string, nat) -> Option<T>): (r: Option<T>)
    ensures r.None? <==> forall i :: 0 <= i <= |s| ==> at(s, i).None?
    ensures at(s, 0).Some? ==> r == at(s, 0)
  {
    SearchFromLeftmost(s, at, 0);
    match SearchFrom(s, at, 0)
    case Some(i) => at(s, i)
    case None => None
  }

  /** Whenever `at` matches only where "GM." occurs, a string without "GM." has no
      match. */
  lemma SearchNeedsGm<T>(s: string, at: (string, nat) -> Option<T>)
    requires forall i: nat :: at(s, i).Some? ==> OccursAt(s, "GM.", i)
    requires !Contains(s, "GM.")
    ensures Search(s, at).None?
  {
  }

  // ---------------------------------------------------------------------------
  // The GM-call pattern `GM\.\w+\([^)]*\)`

  /** The end of a GM call starting at `i`. */
  function GmCallAt(s: string, i: nat): (r: Option<nat>)
    ensures r.Some? ==> OccursAt(s, "GM.", i) && i + 6 <= r.value <= |s| && s[r.value - 1] == ')'
  {
    if !OccursAt(s, "GM.", i) then None
    else
      var b := RunEnd(s, i + 3, WordChar);
      if b == i + 3 || b == |s| || s[b] != '(' then None
      else
        var d := RunEnd(s, b + 1, NotParen);
        RunEndFacts(s, b + 1, NotParen);
        if d == |s| then None else Some(d + 1)
  }

  /** A whole string that is one GM call: "GM.", a name of word characters, "(",
      arguments without ")", and ")". */
  predicate IsGmCall(c: string) { GmCallAt(c, 0) == Some(|c|) }

  /** A call's name: a non-empty run of word characters. */
  predicate IsCallName(w: string) {
    w != [] && forall k :: 0 <= k < |w| ==> IsWordChar(w[k])
  }

  /** A call's arguments: anything without a ")". */
  predicate IsCallArgs(a: string) { ')' !in a }

  /** The text of the call of `name` on `args`. */
  function CallText(name: string, args: string): string {
    "GM." + name + "(" + args + ")"
  }

  /** Every call text built from a name and arguments is a whole GM call. */
  lemma CallTextIsGmCall(name: string, args: string)
    requires IsCallName(name) && IsCallArgs(args)
    ensures IsGmCall(CallText(name, args))
  {
    var c := CallText(name, args);
    var b := 3 + |name|;
    assert c[0..3] == "GM.";
    forall k | 3 <= k < b ensures InClass(c[k], WordChar) {
      assert c[k] == name[k - 3];
    }
    assert c[b] == '(';
    RunEndIs(c, 3, WordChar, b);
    forall k | b + 1 <= k < |c| - 1 ensures InClass(c[k], NotParen) {
      assert c[k] == args[k - b - 1];
    }
    RunEndIs(c, b + 1, NotParen, |c| - 1);
  }

  /** Every whole GM call is such a call text: its name runs from 3 to the first
      ")"-free run's "(", its arguments from there to the last character. */
  lemma GmCallIsCallText(c: string)
    requires IsGmCall(c)
    ensures var b := RunEnd(c, 3, WordChar);
      b < |c| && IsCallName(c[3..b]) && IsCallArgs(c[b + 1..|c| - 1])
      && c == CallText(c[3..b], c[b + 1..|c| - 1])
  {
    GmCallSplit(c);
    GmCallName(c);
    GmCallArgs(c);
    CallTextOfParts(c, RunEnd(c, 3, WordChar));
  }

  /** The name of a whole GM call is a name. */
  lemma GmCallName(c: string)
    requires IsGmCall(c)
    ensures 3 <= RunEnd(c, 3, WordChar) <= |c| && IsCallName(c[3..RunEnd(c, 3, WordChar)])
  {
    GmCallSplit(c);
    var b := RunEnd(c, 3, WordChar);
    var name := c[3..b];
    forall k | 0 <= k < |name| ensures IsWordChar(name[k]) {
      assert name[k] == c[3 + k];
    }
  }

  /** The arguments of a whole GM call hold no ")". */
  lemma GmCallArgs(c: string)
    requires IsGmCall(c)
    ensures 3 <= RunEnd(c, 3, WordChar) < |c| - 1 && IsCallArgs(c[RunEnd(c, 3, WordChar) + 1..|c| - 1])
  {
    GmCallSplit(c);
    var b := RunEnd(c, 3, WordChar);
    var args := c[b + 1..|c| - 1];
    forall k | 0 <= k < |args| ensures args[k] != ')' {
      assert args[k] == c[b + 1 + k];
    }
  }

  /** The pieces of a whole GM call, as positions in it. */
  lemma GmCallSplit(c: string)
    requires IsGmCall(c)
    ensures 3 < RunEnd(c, 3, WordChar) < |c| - 1
    ensures c[..3] == "GM." && c[RunEnd(c, 3, WordChar)] == '(' && c[|c| - 1] == ')'
    ensures forall k :: 3 <= k < RunEnd(c, 3, WordChar) ==> IsWordChar(c[k])
    ensures forall k :: RunEnd(c, 3, WordChar) < k < |c| - 1 ==> c[k] != ')'
  {
    assert OccursAt(c, "GM.", 0);
    var b := RunEnd(c, 3, WordChar);
    RunEndFacts(c, 3, WordChar);
    RunEndFacts(c, b + 1, NotParen);
  }

  /** A string cut into "GM.", a name, "(", arguments and ")" is their call text. */
  lemma CallTextOfParts(c: string, b: nat)
    requires 3 <= b < |c| - 1 && c[..3] == "GM." && c[b] == '(' && c[|c| - 1] == ')'
    ensures c == CallText(c[3..b], c[b + 1..|c| - 1])
  {
    assert c == c[..3] + c[3..b] + [c[b]] + c[b + 1..|c| - 1] + [c[|c| - 1]];
  }

  /** `IsGmCall` is exactly the pattern `GM\.\w+\([^)]*\)` over a whole string. */
  lemma IsGmCallIff(c: string)
    ensures IsGmCall(c) <==> exists name, args :: IsCallName(name) && IsCallArgs(args) && c == CallText(name, args)
  {
    if IsGmCall(c) {
      GmCallIsCallText(c);
      var b := RunEnd(c, 3, WordChar);
      var name, args := c[3..b], c[b + 1..|c| - 1];
      assert IsCallName(name) && IsCallArgs(args) && c == CallText(name, args);
    }
    forall name, args | IsCallName(name) && IsCallArgs(args) && c == CallText(name, args)
      ensures IsGmCall(c)
    {
      CallTextIsGmCall(name, args);
    }
  }

  /** Whether and where a GM call matches depends only on the characters it spans: the
      same characters anywhere else match the same way, there too. */
  lemma GmCallLocal(s: string, i: nat, t: string, j: nat)
    requires GmCallAt(s, i).Some?
    requires OccursAt(t, s[i..GmCallAt(s, i).value], j)
    ensures GmCallAt(t, j) == Some(j + GmCallAt(s, i).value - i)
  {
    var e := GmCallAt(s, i).value;
    var b := RunEnd(s, i + 3, WordChar);
    var d := RunEnd(s, b + 1, NotParen);
    assert b != i + 3 && b < |s| && s[b] == '(' && d < |s| && e == d + 1;
    RunEndFacts(s, b + 1, NotParen);
    GmCallPartsMove(s, i, t, j, b, d);
  }

  /** The pieces of a GM call carry over to the same characters elsewhere: the "GM."
      prefix, where the name run stops, the "(", where the argument run stops, and the
      ")". */
  lemma GmCallPartsMove(s: string, i: nat, t: string, j: nat, b: nat, d: nat)
    requires i + 3 <= b < d < |s|
    requires b == RunEnd(s, i + 3, WordChar) && d == RunEnd(s, b + 1, NotParen)
    requires OccursAt(t, s[i..d + 1], j)
    ensures OccursAt(t, s[i..i + 3], j)
    ensures RunEnd(t, j + 3, WordChar) == j + (b - i)
    ensures t[j + (b - i)] == s[b]
    ensures RunEnd(t, j + (b - i) + 1, NotParen) == j + (d - i)
    ensures t[j + (d - i)] == s[d]
  {
    NamePartMove(s, i, t, j, b, d);
    ArgsPartMove(s, i, t, j, b, d);
  }

  /** The "GM." prefix and the name run of a call, moved. */
  lemma NamePartMove(s: string, i: nat, t: string, j: nat, b: nat, d: nat)
    requires i + 3 <= b < d < |s|
    requires b == RunEnd(s, i + 3, WordChar)
    requires OccursAt(t, s[i..d + 1], j)
    ensures OccursAt(t, s[i..i + 3], j)
    ensures RunEnd(t, j + 3, WordChar) == j + (b - i)
    ensures t[j + (b - i)] == s[b]
  {
    var u := s[i..d + 1];
    OccursAtSub(t, u, j, 0, 3, j);
    SliceOfSlice(s, i, d + 1, 0, 3, i, i + 3);
    OccursAtSub(t, u, j, 3, b - i + 1, j + 3);
    SliceOfSlice(s, i, d + 1, 3, b - i + 1, i + 3, b + 1);
    RunEndMove(s, i + 3, t, j + 3, WordChar, b, j + (b - i));
  }

  /** The argument run of a call and its ")", moved. */
  lemma ArgsPartMove(s: string, i: nat, t: string, j: nat, b: nat, d: nat)
    requires i + 3 <= b < d < |s|
    requires d == RunEnd(s, b + 1, NotParen)
    requires OccursAt(t, s[i..d + 1], j)
    ensures RunEnd(t, j + (b - i) + 1, NotParen) == j + (d - i)
    ensures t[j + (d - i)] == s[d]
  {
    var u := s[i..d + 1];
    OccursAtSub(t, u, j, b - i + 1, |u|, j + (b - i) + 1);
    SliceOfSlice(s, i, d + 1, b - i + 1, |u|, b + 1, d + 1);
    RunEndMove(s, b + 1, t, j + (b - i) + 1, NotParen, d, j + (d - i));
  }

  /** A piece of an occurrence occurs at the matching offset `at`. */
  lemma OccursAtSub(t: string, u: string, j: nat, x: nat, y: nat, at: nat)
    requires OccursAt(t, u, j) && x <= y <= |u| && at == j + x
    ensures OccursAt(t, u[x..y], at)
  {
    SliceOfSlice(t, j, j + |u|, x, y, at, j + y);
  }

  /** A slice of a slice is a slice, from `lo` to `hi`. */
  lemma SliceOfSlice(s: string, a: nat, b: nat, x: nat, y: nat, lo: nat, hi: nat)
    requires a <= b <= |s| && x <= y <= b - a && lo == a + x && hi == a + y
    ensures s[a..b][x..y] == s[lo..hi]
  {
    forall k | 0 <= k < y - x ensures s[a..b][x..y][k] == s[lo..hi][k] {
      assert s[a..b][x..y][k] == s[a..b][x + k] == s[a + x + k];
    }
  }

  /** A run that stops at `e` in `s` stops at the matching place `r` wherever the
      characters from the start of the run up to and including `e` occur again. */
  lemma RunEndMove(s: string, p: nat, t: string, q: nat, cls: CharClass, e: nat, r: nat)
    requires p <= e < |s| && e == RunEnd(s, p, cls)
    requires OccursAt(t, s[p..e + 1], q) && r == q + (e - p)
    ensures RunEnd(t, q, cls) == r
    ensures t[r] == s[e]
  {
    var u := s[p..e + 1];
    assert t[q..q + |u|] == u;
    RunEndFacts(s, p, cls);
    forall k | q <= k < r ensures InClass(t[k], cls) {
      assert t[q..q + |u|][k - q] == u[k - q];
    }
    assert t[r] == t[q..q + |u|][e - p];
    RunEndIs(t, q, cls, r);
  }

  /** `re.findall(r'GM\.\w+\([^)]*\)', s[from:])`, scanning from `from`. */
  function FindCallsFrom(s: string, from: nat): (r: seq<string>)
    decreases |s| + 1 - from
  {
    match SearchFrom(s, GmCallAt, from)
    case None => []
    case Some(i) =>
      var e := GmCallAt(s, i).value;
      [s[i..e]] + FindCallsFrom(s, e)
  }

  function FindCalls(s: string): seq<string> { FindCallsFrom(s, 0) }

  /** Every string `findall` returns is a whole GM call. */
  lemma {:induction false} FindCallsSound(s: string, from: nat)
    ensures forall k :: 0 <= k < |FindCallsFrom(s, from)| ==> IsGmCall(FindCallsFrom(s, from)[k])
    decreases |s| + 1 - from
  {
    match SearchFrom(s, GmCallAt, from)
    case None =>
    case Some(i) =>
      var e := GmCallAt(s, i).value;
      GmCallLocal(s, i, s[i..e], 0);
      FindCallsSound(s, e);
  }

  /** A string without "GM." holds no GM call. */
  lemma NoGmNoCalls(s: string, from: nat)
    requires !Contains(s, "GM.")
    ensures FindCallsFrom(s, from) == []
  {
  }

  /** Concatenated GM calls are found again, one by one and in order. */
  lemma FindCallsConcat(calls: seq<string>)
    requires forall k :: 0 <= k < |calls| ==> IsGmCall(calls[k])
    ensures FindCalls(Concat(calls)) == calls
  {
    var prose := seq(|calls| + 1, _ => "");
    ConcatIsInterleave(calls);
    assert !Contains("", "GM.");
    assert NoGmIn(prose);
    FindCallsInProse(prose, calls);
  }

  /** Calls written one after another are calls amid empty prose. */
  lemma {:induction false} ConcatIsInterleave(calls: seq<string>)
    ensures Concat(calls) == Interleave(seq(|calls| + 1, _ => ""), calls)
    decreases |calls|
  {
    if calls != [] {
      ConcatIsInterleave(calls[1..]);
      assert seq(|calls| + 1, _ => "")[1..] == seq(|calls[1..]| + 1, _ => "");
    }
  }

  /** One step of `findall`: when `i` is the first position from `from` on where a
      GM call matches, the result is that call, then the scan after it. */
  lemma FindCallsLeftmost(s: string, from: nat, i: nat)
    requires from <= i && GmCallAt(s, i).Some?
    requires forall k :: from <= k < i ==> GmCallAt(s, k).None?
    ensures FindCallsFrom(s, from) == [s[i..GmCallAt(s, i).value]] + FindCallsFrom(s, GmCallAt(s, i).value)
  {
    SearchFromIs(s, GmCallAt, from, i);
  }

  /** The same, with the match's end and text given. */
  lemma FindCallsAt(s: string, from: nat, i: nat, e: nat, c: string)
    requires from <= i && GmCallAt(s, i) == Some(e) && i <= e <= |s| && s[i..e] == c
    requires forall k :: from <= k < i ==> GmCallAt(s, k).None?
    ensures FindCallsFrom(s, from) == [c] + FindCallsFrom(s, e)
  {
    FindCallsLeftmost(s, from, i);
  }

  /** Without a GM call from `from` on, `findall` returns nothing. */
  lemma FindCallsNone(s: string, from: nat)
    requires forall k :: from <= k <= |s| ==> GmCallAt(s, k).None?
    ensures FindCallsFrom(s, from) == []
  {
    SearchFromNone(s, GmCallAt, from);
  }

  /** Where the matches `findall` returns start (what `m.start()` gives over
      `re.finditer`). */
  function MatchStartsFrom(s: string, from: nat): (r: seq<nat>)
    decreases |s| + 1 - from
  {
    match SearchFrom(s, GmCallAt, from)
    case None => []
    case Some(i) => [i] + MatchStartsFrom(s, GmCallAt(s, i).value)
  }

  /** The k-th result of `findall` is the text of a match at the k-th start, and each
      match ends at or before the next one starts, so the starts strictly increase. */
  lemma {:induction false} MatchesInOrder(s: string, from: nat)
    ensures |MatchStartsFrom(s, from)| == |FindCallsFrom(s, from)|
    ensures forall k :: 0 <= k < |MatchStartsFrom(s, from)| ==>
      var i := MatchStartsFrom(s, from)[k];
      from <= i && GmCallAt(s, i).Some? && FindCallsFrom(s, from)[k] == s[i..GmCallAt(s, i).value]
    ensures forall k :: 0 <= k < |MatchStartsFrom(s, from)| - 1 ==>
      GmCallAt(s, MatchStartsFrom(s, from)[k]).Some?
      && GmCallAt(s, MatchStartsFrom(s, from)[k]).value <= MatchStartsFrom(s, from)[k + 1]
    decreases |s| + 1 - from
  {
    match SearchFrom(s, GmCallAt, from)
    case None =>
    case Some(i) =>
      var e := GmCallAt(s, i).value;
      MatchesInOrder(s, e);
      var st, st' := MatchStartsFrom(s, from), MatchStartsFrom(s, e);
      var calls, calls' := FindCallsFrom(s, from), FindCallsFrom(s, e);
      assert st == [i] + st' && calls == [s[i..e]] + calls';
      forall k | 0 < k < |st| ensures st[k] == st'[k - 1] && calls[k] == calls'[k - 1] {}
  }

  /** Nothing is skipped: every position where a GM call matches lies inside one of
      the matches `findall` returns; only matches overlapping an earlier one are not
      returned. */
  lemma {:induction false} MatchesCovered(s: string, from: nat, p: nat)
    requires from <= p && GmCallAt(s, p).Some?
    ensures exists k :: (0 <= k < |MatchStartsFrom(s, from)| && MatchStartsFrom(s, from)[k] <= p &&
      GmCallAt(s, MatchStartsFrom(s, from)[k]).Some? && p < GmCallAt(s, MatchStartsFrom(s, from)[k]).value)
    decreases |s| + 1 - from
  {
    SearchFromLeftmost(s, GmCallAt, from);
    assert SearchFrom(s, GmCallAt, from).Some?;
    var i := SearchFrom(s, GmCallAt, from).value;
    var e := GmCallAt(s, i).value;
    var st := MatchStartsFrom(s, from);
    assert st == [i] + MatchStartsFrom(s, e);
    assert i <= p;
    if p < e {
      assert st[0] == i;
    } else {
      MatchesCovered(s, e, p);
      var k :| 0 <= k < |MatchStartsFrom(s, e)| && MatchStartsFrom(s, e)[k] <= p
        && GmCallAt(s, MatchStartsFrom(s, e)[k]).Some? && p < GmCallAt(s, MatchStartsFrom(s, e)[k]).value;
      assert st[k + 1] == MatchStartsFrom(s, e)[k];
    }
  }

  /** Text written around GM calls: `prose[0] + calls[0] + prose[1] + ... + prose[n]`. */
  function Interleave(prose: seq<string>, calls: seq<string>): string
    requires |prose| == |calls| + 1
    decreases |calls|
  {
    if calls == [] then prose[0] else prose[0] + calls[0] + Interleave(prose[1..], calls[1..])
  }

  /** No piece of prose holds "GM.". */
  predicate NoGmIn(prose: seq<string>) {
    forall k :: 0 <= k < |prose| ==> !Contains(prose[k], "GM.")
  }

  /** Every piece is a whole GM call. */
  predicate AllGmCalls(calls: seq<string>) {
    forall k :: 0 <= k < |calls| ==> IsGmCall(calls[k])
  }

  /** GM calls written amid prose that holds no "GM." are found again, exactly and
      in order. */
  lemma FindCallsInProse(prose: seq<string>, calls: seq<string>)
    requires |prose| == |calls| + 1 && NoGmIn(prose) && AllGmCalls(calls)
    ensures FindCalls(Interleave(prose, calls)) == calls
  {
    var s := Interleave(prose, calls);
    assert s[0..] == s;
    FindCallsFromProse(s, 0, prose, calls);
  }

  /** The same from any position where the rest of the string is such text. */
  lemma {:induction false} FindCallsFromProse(s: string, from: nat, prose: seq<string>, calls: seq<string>)
    requires |prose| == |calls| + 1 && NoGmIn(prose) && AllGmCalls(calls)
    requires from <= |s| && s[from..] == Interleave(prose, calls)
    ensures FindCallsFrom(s, from) == calls
    decreases |calls|
  {
    assert !Contains(prose[0], "GM.");
    if calls == [] {
      ProseOnly(s, from, prose[0]);
    } else {
      var rest := Interleave(prose[1..], calls[1..]);
      var e := from + |prose[0]| + |calls[0]|;
      PiecesHold(prose, calls);
      assert s[from..] == prose[0] + calls[0] + rest;
      ProseThenCallStep(s, from, prose[0], calls[0], rest, e);
      FindCallsFromProse(s, e, prose[1..], calls[1..]);
      assert calls == [calls[0]] + calls[1..];
    }
  }

  /** Prose without "GM." up to the end holds no call. */
  lemma ProseOnly(s: string, from: nat, p: string)
    requires from <= |s| && s[from..] == p && !Contains(p, "GM.")
    ensures FindCallsFrom(s, from) == []
  {
    assert s[from..|s|] == p;
    ProseHasNoCall(s, from, |s|, p);
    FindCallsNone(s, from);
  }

  /** What holds of every piece holds of the later ones. */
  lemma PiecesHold(prose: seq<string>, calls: seq<string>)
    requires |prose| == |calls| + 1 && calls != [] && NoGmIn(prose) && AllGmCalls(calls)
    ensures NoGmIn(prose[1..]) && AllGmCalls(calls[1..]) && IsGmCall(calls[0])
  {
    assert forall k :: 0 <= k < |prose[1..]| ==> prose[1..][k] == prose[k + 1];
    assert forall k :: 0 <= k < |calls[1..]| ==> calls[1..][k] == calls[k + 1];
  }

  /** A suffix of prose without "GM.", a call and a rest: `findall` returns the call,
      then what it finds in the rest. */
  lemma ProseThenCallStep(s: string, from: nat, p: string, c: string, rest: string, e: nat)
    requires from <= |s| && s[from..] == p + c + rest && e == from + |p| + |c|
    requires !Contains(p, "GM.") && IsGmCall(c)
    ensures e <= |s| && FindCallsFrom(s, from) == [c] + FindCallsFrom(s, e)
    ensures s[e..] == rest
  {
    var q := from + |p|;
    assert GmCallAt(s, q) == Some(q + |c|) by {
      PiecesAt(s, from, p, c, rest);
      assert c[0..|c|] == c;
      GmCallLocal(c, 0, s, q);
    }
    assert forall k :: from <= k < q ==> GmCallAt(s, k).None? by {
      PiecesAt(s, from, p, c, rest);
      assert s[q] == c[0] == 'G' by { assert c[0..3] == "GM."; }
      ProseHasNoCall(s, from, q, p);
    }
    assert s[q..q + |c|] == c && s[q + |c|..] == rest by {
      PiecesAt(s, from, p, c, rest);
    }
    FindCallsAt(s, from, q, e, c);
  }

  /** The three pieces of a suffix `p + c + rest`, as slices of the whole string. */
  lemma PiecesAt(s: string, from: nat, p: string, c: string, rest: string)
    requires from <= |s| && s[from..] == p + c + rest
    ensures s[from..from + |p|] == p
    ensures s[from + |p|..from + |p| + |c|] == c
    ensures s[from + |p| + |c|..] == rest
  {
    assert s[from..][..|p|] == p;
    assert s[from..][|p|..|p| + |c|] == c;
    assert s[from..][|p| + |c|..] == rest;
  }

  /** No GM call starts inside a stretch `s[from..q]` of prose without "GM." that is
      followed by the end of the string or by a call's "G". */
  lemma ProseHasNoCall(s: string, from: nat, q: nat, p: string)
    requires from <= q <= |s| && s[from..q] == p && !Contains(p, "GM.")
    requires q < |s| ==> s[q] == 'G'
    ensures forall k :: from <= k < q ==> GmCallAt(s, k).None?
    ensures q == |s| ==> GmCallAt(s, q).None?
  {
    forall k | from <= k < q ensures !OccursAt(s, "GM.", k) {
      if k + 3 <= q {
        SliceOfSlice(s, from, q, k - from, k - from + 3, k, k + 3);
        assert !OccursAt(p, "GM.", k - from);
      } else if k + 3 <= |s| {
        assert s[k..k + 3][q - k] == s[q];
      }
    }
  }

    function Concat(parts: seq<string>): string {
    if parts == [] then "" else parts[0] + Concat(parts[1..])
  }
}
