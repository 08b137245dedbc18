/** `_get_pending_arcs` of agentic_emerald.py: the lines of the playthrough notes that
    record a promised payoff, cleaned of markdown emphasis, at most five of them. The
    file's text is a parameter (None when the file is absent or cannot be read). */
module Arcs {
  import opened Optional
  import opened Text

  /** The markers that flag a promised payoff, matched ignoring case. */
  const Markers: seq<string> := [
    "IMMEDIATE PAYOFF:", "PENDING PAYOFF:", "PENDING:", "STATUS:", "PAYOFF OWED:",
    "\U{2192} immediate shiny", "\U{2192} give it", "\U{2192} teach"]

  /** Stripped lines shorter than this are headers or noise. */
  const MinArcLength: nat := 20

  /** At most this many arcs are returned. */
  const MaxArcs: nat := 5

  /** `lstrip('*- ')` and `rstrip('*')`. */
  const LeadingNoise: set<char> := {'*', '-', ' '}
  const TrailingNoise: set<char> := {'*'}

  /** Whether some marker occurs in the line, both lower-cased. */
  predicate HasMarker(stripped: string) {
    exists k :: 0 <= k < |Markers| && Contains(Lower(stripped), Lower(Markers[k]))
  }

  /** The markdown clean-up: no emphasis or list marker is left at either end. */
  function Clean(stripped: string): (r: string)
    ensures r == [] || (r[0] !in LeadingNoise && r[|r| - 1] !in TrailingNoise)
  {
    var l := LStrip(stripped, LeadingNoise);
    var r := RStrip(l, TrailingNoise);
    assert r != [] ==> r[0] == l[0];
    r
  }

  /** What one line of the notes contributes. */
  function ArcOf(line: string): Option<string> {
    var stripped := Strip(line);
    if |stripped| < MinArcLength || !HasMarker(stripped) then None
    else
      var clean := Clean(stripped);
      if clean == [] then None else Some(clean)
  }

  /** What `f` makes of each line, the lines it makes nothing of dropped, in order. */
  function Collect(lines: seq<string>, f: string -> Option<string>): seq<string>
    decreases |lines|
  {
    if lines == [] then []
    else
      var last := f(lines[|lines| - 1]);
      Collect(lines[..|lines| - 1], f) + (if last.Some? then [last.value] else [])
  }

  /** Every arc of the given lines, in order. */
  function CollectArcs(lines: seq<string>): seq<string> {
    Collect(lines, ArcOf)
  }

  /** `_get_pending_arcs`, given the file's text. */
  function PendingArcs(notes: Option<string>): seq<string> {
    match notes
    case None => []
    case Some(text) => Take(CollectArcs(Split(text, '\n')), MaxArcs)
  }

  /** The loop of `_get_pending_arcs`. */
  method ReadPendingArcs(notes: Option<string>) returns (pending: seq<string>)
    ensures pending == PendingArcs(notes)
  {
    pending := [];
    if notes.Some? {
      var lines := Split(notes.value, '\n');
      for i := 0 to |lines|
        invariant pending == CollectArcs(lines[..i])
      {
        assert lines[..i + 1] == lines[..i] + [lines[i]];
        CollectArcsSnoc(lines[..i], lines[i]);
        var stripped := Strip(lines[i]);
        if |stripped| < MinArcLength {
          continue;
        }
        if HasMarker(stripped) {
          var clean := Clean(stripped);
          if clean != [] {
            pending := pending + [clean];
          }
        }
      }
      assert lines[..|lines|] == lines;
    }
    pending := Take(pending, MaxArcs);
  }

  // ---------------------------------------------------------------------------
  // Properties

  /** What `ArcOf` gives back is a cleaned, stripped line that is long enough and
      carries a marker. */
  lemma ArcOfFacts(line: string)
    ensures ArcOf(line).Some? ==>
      var a := ArcOf(line).value;
      a == Clean(Strip(line)) && a != [] && a[0] !in LeadingNoise && a[|a| - 1] !in TrailingNoise
      && |Strip(line)| >= MinArcLength && HasMarker(Strip(line))
  {
  }

  /** One more line adds what `f` makes of it, if anything, after the others. */
  lemma CollectSnoc(lines: seq<string>, line: string, f: string -> Option<string>)
    ensures Collect(lines + [line], f) == Collect(lines, f) + (if f(line).Some? then [f(line).value] else [])
  {
    assert (lines + [line])[..|lines|] == lines;
  }

  lemma CollectArcsSnoc(lines: seq<string>, line: string)
    ensures CollectArcs(lines + [line]) == CollectArcs(lines) + (if ArcOf(line).Some? then [ArcOf(line).value] else [])
  {
    CollectSnoc(lines, line, ArcOf);
  }

  /** Everything collected is what `f` makes of some line. */
  lemma {:induction false} CollectComesFromLines(lines: seq<string>, f: string -> Option<string>)
    ensures forall k :: 0 <= k < |Collect(lines, f)| ==>
      exists j :: 0 <= j < |lines| && f(lines[j]) == Some(Collect(lines, f)[k])
    decreases |lines|
  {
    if lines != [] {
      var front := lines[..|lines| - 1];
      var last := lines[|lines| - 1];
      CollectComesFromLines(front, f);
      var all := Collect(lines, f);
      var before := Collect(front, f);
      assert all == before + (if f(last).Some? then [f(last).value] else []);
      forall k | 0 <= k < |all|
        ensures exists j :: 0 <= j < |lines| && f(lines[j]) == Some(all[k])
      {
        if k < |before| {
          assert all[k] == before[k];
          var j :| 0 <= j < |front| && f(front[j]) == Some(before[k]);
          assert lines[j] == front[j];
          assert f(lines[j]) == Some(all[k]);
        } else {
          assert f(lines[|lines| - 1]) == Some(all[k]);
        }
      }
    } else {
      assert Collect(lines, f) == [];
    }
  }

  /** Every arc comes from some line of the notes. */
  lemma ArcsComeFromLines(lines: seq<string>)
    ensures forall k :: 0 <= k < |CollectArcs(lines)| ==>
      exists j :: 0 <= j < |lines| && ArcOf(lines[j]) == Some(CollectArcs(lines)[k])
  {
    var f := ArcOf;
    CollectComesFromLines(lines, f);
    forall k | 0 <= k < |CollectArcs(lines)|
      ensures exists j :: 0 <= j < |lines| && ArcOf(lines[j]) == Some(CollectArcs(lines)[k])
    {
      var j :| 0 <= j < |lines| && f(lines[j]) == Some(Collect(lines, f)[k]);
      assert ArcOf(lines[j]) == Some(CollectArcs(lines)[k]);
    }
    assert forall k :: 0 <= k < |CollectArcs(lines)| ==>
      exists j :: 0 <= j < |lines| && ArcOf(lines[j]) == Some(CollectArcs(lines)[k]);
  }

  /** The j-th line is long enough, carries a marker and cleans up to `a`. */
  predicate MarkedLine(lines: seq<string>, j: int, a: string) {
    0 <= j < |lines| && |Strip(lines[j])| >= MinArcLength && HasMarker(Strip(lines[j]))
    && a == Clean(Strip(lines[j]))
  }

  ghost predicate MarkedLineOf(lines: seq<string>, a: string) {
    exists j :: 0 <= j < |lines| && MarkedLine(lines, j, a)
  }

  /** At most five arcs are returned, none without notes, and each is a cleaned line of
      the notes that is long enough and carries a marker. */
  lemma PendingArcsBounded(notes: Option<string>)
    ensures |PendingArcs(notes)| <= MaxArcs
    ensures notes.None? ==> PendingArcs(notes) == []
    ensures notes.Some? ==> forall k :: 0 <= k < |PendingArcs(notes)| ==>
      PendingArcs(notes)[k] != [] && MarkedLineOf(Split(notes.value, '\n'), PendingArcs(notes)[k])
  {
    if notes.Some? {
      var lines := Split(notes.value, '\n');
      var all := CollectArcs(lines);
      var r := PendingArcs(notes);
      ArcsComeFromLines(lines);
      forall k | 0 <= k < |r|
        ensures r[k] != [] && MarkedLineOf(lines, r[k])
      {
        assert r[k] == all[k];
        var j :| 0 <= j < |lines| && ArcOf(lines[j]) == Some(all[k]);
        ArcOfFacts(lines[j]);
        assert MarkedLine(lines, j, r[k]);
      }
    }
  }

  /** A short line never makes an arc, whatever marker it carries. */
  lemma ShortLineIgnored(lines: seq<string>, line: string)
    requires |Strip(line)| < MinArcLength
    ensures CollectArcs(lines + [line]) == CollectArcs(lines)
  {
    ShortLineNoArc(line);
    CollectArcsSnoc(lines, line);
  }

  lemma ShortLineNoArc(line: string)
    requires |Strip(line)| < MinArcLength
    ensures ArcOf(line).None?
  {
  }

  /** A long enough line that carries a marker and does not clean up to nothing is kept,
      after the arcs of the lines before it. */
  lemma MarkedLineKept(lines: seq<string>, line: string)
    requires |Strip(line)| >= MinArcLength && HasMarker(Strip(line)) && Clean(Strip(line)) != []
    ensures CollectArcs(lines + [line]) == CollectArcs(lines) + [Clean(Strip(line))]
  {
    MarkedLineArc(line);
    CollectArcsSnoc(lines, line);
  }

  lemma MarkedLineArc(line: string)
    requires |Strip(line)| >= MinArcLength && HasMarker(Strip(line)) && Clean(Strip(line)) != []
    ensures ArcOf(line) == Some(Clean(Strip(line)))
  {
  }
}
