/** Reading the agent's response in both daemons: agentic_emerald.py reads the first 15
    lines, collects every GM call on them and remembers the last ACTION line; maya_gm.py
    reads the first 10 lines and remembers only the last ACTION line. What is then
    executed: the collected calls, or else the ACTION line as a legacy shell command,
    with `nc` given a timeout. */
module Parser {
  import opened Optional
  import opened Text
  import opened Matching

  /** How many response lines each daemon reads. */
  const EmeraldLineLimit: nat := 15
  const MayaLineLimit: nat := 10

  /** The command of an ACTION line: the text after the first "ACTION:", stripped. A line
      is an ACTION line when, stripped, it starts with "ACTION:". */
  function ActionOf(line: string): (r: Option<string>)
    ensures r.Some? <==> StartsWith(Strip(line), "ACTION:")
    ensures r.Some? ==> r.value == [] || (r.value[0] !in Whitespace && r.value[|r.value| - 1] !in Whitespace)
  {
    if !StartsWith(Strip(line), "ACTION:") then None
    else
      ActionOccurs(line);
      var k := IndexOf(line, "ACTION:").value;
      Some(Strip(line[k + 7..]))
  }

  lemma ActionOccurs(line: string)
    requires StartsWith(Strip(line), "ACTION:")
    ensures Contains(line, "ACTION:")
  {
    StripSlice(line);
    var r := Strip(line);
    var a := StripStart(line);
    assert line[a..a + 7] == r[..7];
    ContainsAt(line, "ACTION:", a);
  }

  /** An ACTION line written as "ACTION:" followed by a command gives back the command,
      stripped. */
  lemma ActionLineRoundTrip(cmd: string)
    ensures ActionOf("ACTION:" + cmd) == Some(Strip(cmd))
  {
    var line := "ACTION:" + cmd;
    ActionLineIsAction(cmd);
    PrefixIndex(line, "ACTION:");
    assert line[7..] == cmd;
  }

  /** Stripping a line that starts with "ACTION:" keeps that start. */
  lemma ActionLineIsAction(cmd: string)
    ensures StartsWith(Strip("ACTION:" + cmd), "ACTION:")
  {
    var line := "ACTION:" + cmd;
    LStripIdle(line, Whitespace);
    var r := RStrip(line, Whitespace);
    assert line[6] == ':';
    assert |r| >= 7;
    assert r[..7] == line[..7];
  }

  /** A string that starts with `p` has its first occurrence of `p` at 0. */
  lemma PrefixIndex(s: string, p: string)
    requires StartsWith(s, p)
    ensures IndexOf(s, p) == Some(0)
  {
    ContainsPrefix(s, p);
  }

  // ---------------------------------------------------------------------------
  // The line loop

  /** What the line loop leaves behind: the GM calls found, in order, and the command
      of the last ACTION line. */
  datatype Parsed = Parsed(calls: seq<string>, action: Option<string>)

  /** The GM calls of the non-blank lines, in order, when the daemon collects them. */
  function CollectCalls(lines: seq<string>, collectCalls: bool): seq<string> {
    if lines == [] then []
    else
      var line := lines[|lines| - 1];
      CollectCalls(lines[..|lines| - 1], collectCalls)
        + (if collectCalls && Strip(line) != [] then FindCalls(line) else [])
  }

  /** The command of the last ACTION line. */
  function LastAction(lines: seq<string>): Option<string> {
    if lines == [] then None
    else if ActionOf(lines[|lines| - 1]).Some? then ActionOf(lines[|lines| - 1])
    else LastAction(lines[..|lines| - 1])
  }

  function ParseLines(lines: seq<string>, collectCalls: bool): Parsed {
    Parsed(CollectCalls(lines, collectCalls), LastAction(lines))
  }

  /** The response text, split into lines, of which the first `limit` are read. */
  function ParseResponse(text: string, limit: nat, collectCalls: bool): Parsed {
    ParseLines(Take(Split(text, '\n'), limit), collectCalls)
  }

  /** The loop of `run_agent` over the first `limit` lines of the response. */
  method ReadResponse(text: string, limit: nat, collectCalls: bool) returns (calls: seq<string>, action: Option<string>)
    ensures Parsed(calls, action) == ParseResponse(text, limit, collectCalls)
  {
    var lines := Take(Split(text, '\n'), limit);
    calls, action := [], None;
    for i := 0 to |lines|
      invariant calls == CollectCalls(lines[..i], collectCalls)
      invariant action == LastAction(lines[..i])
    {
      ParseOneMore(lines, i, collectCalls);
      var line := lines[i];
      if Strip(line) != [] {
        if collectCalls {
          calls := calls + FindCalls(line);
        }
        if StartsWith(Strip(line), "ACTION:") {
          action := ActionOf(line);
        }
      }
    }
    assert lines[..|lines|] == lines;
  }

  lemma ParseOneMore(lines: seq<string>, i: nat, collectCalls: bool)
    requires i < |lines|
    ensures CollectCalls(lines[..i + 1], collectCalls)
            == CollectCalls(lines[..i], collectCalls) + (if collectCalls && Strip(lines[i]) != [] then FindCalls(lines[i]) else [])
    ensures LastAction(lines[..i + 1]) == if ActionOf(lines[i]).Some? then ActionOf(lines[i]) else LastAction(lines[..i])
    ensures StartsWith(Strip(lines[i]), "ACTION:") ==> Strip(lines[i]) != []
  {
    assert lines[..i + 1][..i] == lines[..i];
  }

  // ---------------------------------------------------------------------------
  // What the loop promises

  /** Every collected call is a whole GM call. */
  lemma {:induction false} CollectedCallsSound(lines: seq<string>, collectCalls: bool)
    ensures forall k :: 0 <= k < |CollectCalls(lines, collectCalls)| ==> IsGmCall(CollectCalls(lines, collectCalls)[k])
  {
    if lines != [] {
      var front := lines[..|lines| - 1];
      CollectedCallsSound(front, collectCalls);
      FindCallsSound(lines[|lines| - 1], 0);
    }
  }

  /** maya_gm.py collects no calls. */
  lemma {:induction false} NoCallsWithoutCollecting(lines: seq<string>)
    ensures CollectCalls(lines, false) == []
  {
    if lines != [] {
      NoCallsWithoutCollecting(lines[..|lines| - 1]);
    }
  }

  /** The remembered command is the one of the last ACTION line. */
  lemma {:induction false} LastActionWins(lines: seq<string>, k: nat)
    requires k < |lines| && ActionOf(lines[k]).Some?
    requires forall j :: k < j < |lines| ==> ActionOf(lines[j]).None?
    ensures LastAction(lines) == ActionOf(lines[k])
    decreases |lines|
  {
    var front := lines[..|lines| - 1];
    if k < |lines| - 1 {
      assert ActionOf(lines[|lines| - 1]).None?;
      assert LastAction(lines) == LastAction(front);
      forall j | k < j < |front| ensures ActionOf(front[j]).None? {
        assert front[j] == lines[j];
      }
      assert front[k] == lines[k];
      LastActionWins(front, k);
    }
  }

  /** Without an ACTION line nothing is remembered. */
  lemma {:induction false} NoActionLine(lines: seq<string>)
    requires forall j :: 0 <= j < |lines| ==> ActionOf(lines[j]).None?
    ensures LastAction(lines).None?
  {
    if lines != [] {
      var front := lines[..|lines| - 1];
      assert forall j :: 0 <= j < |front| ==> front[j] == lines[j];
      NoActionLine(front);
    }
  }

  /** Lines past the limit are never read: a response whose first `limit` lines are
      fixed parses the same whatever follows them. */
  lemma LinesPastLimitIgnored(lines: seq<string>, more: seq<string>, limit: nat, collectCalls: bool)
    requires |lines| >= limit && limit >= 1
    requires forall i :: 0 <= i < |lines + more| ==> '\n' !in (lines + more)[i]
    ensures ParseResponse(Join(lines + more, "\n"), limit, collectCalls) == ParseLines(lines[..limit], collectCalls)
  {
    SplitJoin(lines + more, '\n');
    assert Join(lines + more, "\n") == Join(lines + more, ['\n']);
    assert Take(lines + more, limit) == lines[..limit];
  }

  /** The calls `findall` finds on each line, line after line. */
  function CallsOfLines(lines: seq<string>): seq<string> {
    if lines == [] then [] else CallsOfLines(lines[..|lines| - 1]) + FindCalls(lines[|lines| - 1])
  }

  /** Skipping blank lines loses no call: the calls collected are those of every line,
      in line order. */
  lemma {:induction false} CollectAllCalls(lines: seq<string>)
    ensures CollectCalls(lines, true) == CallsOfLines(lines)
    decreases |lines|
  {
    if lines != [] {
      CallsOnlyOnNonBlank(lines[|lines| - 1]);
      CollectAllCalls(lines[..|lines| - 1]);
    }
  }

  /** A line holding a GM call is not blank: the call's "G" is not whitespace. */
  lemma CallsOnlyOnNonBlank(line: string)
    ensures FindCalls(line) != [] ==> Strip(line) != []
  {
    match SearchFrom(line, GmCallAt, 0)
    case None =>
    case Some(i) =>
      assert line[i..i + 3] == "GM.";
      assert line[i] == 'G';
      StripNonBlank(line, i);
  }

  /** A response of at most `limit` lines runs the calls of all of its lines, line by
      line and left to right within a line. */
  lemma LinesOfCalls(lines: seq<string>, limit: nat)
    requires 1 <= |lines| <= limit
    requires forall i :: 0 <= i < |lines| ==> '\n' !in lines[i]
    ensures ParseResponse(Join(lines, "\n"), limit, true).calls == CallsOfLines(lines)
  {
    SplitJoin(lines, '\n');
    assert Join(lines, "\n") == Join(lines, ['\n']);
    CollectAllCalls(lines);
  }

  /** Prose holds no "GM." when it holds no "G". */
  lemma GmNeedsG(p: string)
    ensures Contains(p, "GM.") ==> 'G' in p
  {
    if Contains(p, "GM.") {
      ContainsChars(p, "GM.", 'G');
    }
  }

  /** A line of prose without "G" followed by one call holds just that call. */
  lemma ProseThenCall(p: string, c: string)
    requires 'G' !in p && IsGmCall(c)
    ensures FindCalls(p + c) == [c]
  {
    GmNeedsG(p);
    GmNeedsG("");
    assert Interleave([p, ""], [c]) == p + c;
    FindCallsInProse([p, ""], [c]);
  }

  /** Two lines, each prose without "G" followed by one call: both calls run, the
      first line's first. */
  lemma TwoLinesOfProseAndCall(p1: string, c1: string, p2: string, c2: string, limit: nat)
    requires limit >= 2 && IsGmCall(c1) && IsGmCall(c2)
    requires 'G' !in p1 && 'G' !in p2
    requires '\n' !in p1 + c1 && '\n' !in p2 + c2
    ensures ParseResponse(p1 + c1 + "\n" + p2 + c2, limit, true).calls == [c1, c2]
  {
    var l1, l2 := p1 + c1, p2 + c2;
    ProseThenCall(p1, c1);
    ProseThenCall(p2, c2);
    assert Join([l1, l2], "\n") == p1 + c1 + "\n" + p2 + c2;
    LinesOfCalls([l1, l2], limit);
    CallsOfTwoLines(l1, l2);
  }

  lemma CallsOfTwoLines(l1: string, l2: string)
    ensures CallsOfLines([l1, l2]) == FindCalls(l1) + FindCalls(l2)
  {
    assert [l1, l2][..1] == [l1];
    assert [l1][..0] == [];
    assert CallsOfLines([l1]) == FindCalls(l1);
  }

  /** A call whose name and arguments are on one line is on one line. */
  lemma CallTextOneLine(name: string, args: string)
    requires '\n' !in name && '\n' !in args
    ensures '\n' !in CallText(name, args)
  {
  }

  /** A MEMORY line and an ACTION line, each with a call after its prose: both calls
      run, the MEMORY one first. */
  lemma MemoryAndActionCalls(story: string, memoryCall: string, actionCall: string)
    requires 'G' !in story && '\n' !in story
    requires IsGmCall(memoryCall) && IsGmCall(actionCall)
    requires '\n' !in memoryCall && '\n' !in actionCall
    ensures ParseResponse("MEMORY: " + story + " " + memoryCall + "\nACTION: " + actionCall,
      EmeraldLineLimit, true).calls == [memoryCall, actionCall]
  {
    var p1 := "MEMORY: " + story + " ";
    assert "MEMORY: " + story + " " + memoryCall + "\nACTION: " + actionCall
      == p1 + memoryCall + "\n" + "ACTION: " + actionCall;
    TwoLinesOfProseAndCall(p1, memoryCall, "ACTION: ", actionCall, EmeraldLineLimit);
  }

  /** For instance, EVs noted on the MEMORY line and a heal on the ACTION line. */
  lemma EvMemoryHealAction(story: string, evArgs: string)
    requires 'G' !in story && '\n' !in story
    requires IsCallArgs(evArgs) && '\n' !in evArgs
    ensures ParseResponse("MEMORY: " + story + " " + CallText("addEVs", evArgs)
      + "\nACTION: " + CallText("healParty", ""), EmeraldLineLimit, true).calls
      == [CallText("addEVs", evArgs), CallText("healParty", "")]
  {
    CallTextIsGmCall("addEVs", evArgs);
    CallTextIsGmCall("healParty", "");
    CallTextOneLine("addEVs", evArgs);
    CallTextOneLine("healParty", "");
    MemoryAndActionCalls(story, CallText("addEVs", evArgs), CallText("healParty", ""));
  }

  /** A one-line response made of GM calls runs exactly those calls, in order. */
  lemma OneLineOfCalls(calls: seq<string>, limit: nat)
    requires limit >= 1 && calls != []
    requires forall k :: 0 <= k < |calls| ==> IsGmCall(calls[k]) && '\n' !in calls[k]
    ensures ParseResponse(Concat(calls), limit, true).calls == calls
  {
    NoNewline(calls);
    FindCallsConcat(calls);
    ConcatStartsWithGm(calls);
    OneLineOfFoundCalls(Concat(calls), calls, limit);
  }

  lemma OneLineOfFoundCalls(t: string, calls: seq<string>, limit: nat)
    requires limit >= 1 && '\n' !in t && |t| > 0 && t[0] == 'G' && FindCalls(t) == calls
    ensures ParseResponse(t, limit, true).calls == calls
  {
    SplitJoin([t], '\n');
    assert Join([t], ['\n']) == t;
    assert Split(t, '\n') == [t];
    StripNonBlank(t, 0);
    var lines := Take(Split(t, '\n'), limit);
    assert lines == [t];
    assert lines[..0] == [];
    assert CollectCalls(lines, true) == CollectCalls([], true) + FindCalls(t);
  }

  lemma {:induction false} NoNewline(calls: seq<string>)
    requires forall k :: 0 <= k < |calls| ==> '\n' !in calls[k]
    ensures '\n' !in Concat(calls)
  {
    if calls != [] {
      NoNewline(calls[1..]);
    }
  }

  lemma ConcatStartsWithGm(calls: seq<string>)
    requires calls != [] && IsGmCall(calls[0])
    ensures |Concat(calls)| > 0 && Concat(calls)[0] == 'G'
  {
    assert calls[0][0..3] == "GM.";
  }

  // ---------------------------------------------------------------------------
  // What gets executed

  /** `classify_target`: the first collected call, else the ACTION command. */
  function ClassifyTarget(p: Parsed): (r: Option<string>)
    ensures p.calls != [] ==> r == Some(p.calls[0])
    ensures p.calls == [] ==> r == p.action
  {
    if p.calls != [] then Some(p.calls[0]) else p.action
  }

  /** Giving `nc` a one-second timeout: "| nc " becomes "| nc -w 1 " when the command has
      no " -w " (and, for maya_gm.py, no " -q ") already. */
  predicate NeedsTimeout(cmd: string, honourQ: bool) {
    Contains(cmd, "| nc ") && !Contains(cmd, " -w ") && !(honourQ && Contains(cmd, " -q "))
  }

  function AddNcTimeout(cmd: string, honourQ: bool): (r: string)
    ensures NeedsTimeout(cmd, honourQ) ==> Contains(r, " -w ") && |r| > |cmd|
    ensures !NeedsTimeout(cmd, honourQ) ==> r == cmd
    ensures Contains(r, "| nc ") ==> Contains(r, " -w ") || (honourQ && Contains(r, " -q "))
  {
    if NeedsTimeout(cmd, honourQ) then
      var r := Replace(cmd, "| nc ", "| nc -w 1 ");
      assert "| nc" + " -w " + "1 " == "| nc -w 1 ";
      ContainsInfix(r, "| nc", " -w ", "1 ");
      r
    else cmd
  }

  /** Adding the timeout is idempotent, and it changes a command exactly when the
      command needed it. */
  lemma AddNcTimeoutIdempotent(cmd: string, honourQ: bool)
    ensures AddNcTimeout(AddNcTimeout(cmd, honourQ), honourQ) == AddNcTimeout(cmd, honourQ)
    ensures AddNcTimeout(cmd, honourQ) != cmd <==> NeedsTimeout(cmd, honourQ)
  {
  }

  /** agentic_emerald.py's legacy fallback, taken only when no GM call was found: an
      ACTION command that is neither blank nor "none" (ignoring case and surrounding
      blanks) has " HOST " and "nc HOST" replaced by the socket host and gets the `nc`
      timeout. */
  function EmeraldShellCommand(p: Parsed, host: string): (r: Option<string>)
    ensures r.Some? ==> p.calls == [] && p.action.Some?
    ensures p.calls == [] && p.action.Some? && Strip(Lower(p.action.value)) != [] && Strip(Lower(p.action.value)) != "none"
            ==> r.Some?
    ensures r.Some? && Contains(r.value, "| nc ") ==> Contains(r.value, " -w ")
  {
    if p.calls != [] then None
    else
      var check := Strip(Lower(p.action.GetOr("")));
      if check == [] || check == "none" then None
      else
        var cmd := Replace(Replace(p.action.value, " HOST ", " " + host + " "), "nc HOST", "nc " + host);
        Some(AddNcTimeout(cmd, false))
  }

  /** maya_gm.py's execution of the ACTION command: non-empty and not "none" in lower
      case, with the `nc` timeout added unless " -w " or " -q " is present. */
  function MayaShellCommand(p: Parsed): (r: Option<string>)
    ensures r.Some? <==> p.action.Some? && p.action.value != [] && Lower(p.action.value) != "none"
    ensures r.Some? && Contains(r.value, "| nc ") ==> Contains(r.value, " -w ") || Contains(r.value, " -q ")
  {
    match p.action
    case Some(a) => if a != [] && Lower(a) != "none" then Some(AddNcTimeout(a, true)) else None
    case None => None
  }

  /** A "NONE" ACTION line, in any case and with blanks around it, runs nothing in
      agentic_emerald.py. */
  lemma NoneActionRunsNothing(host: string, pad: string)
    requires forall k :: 0 <= k < |pad| ==> pad[k] in Whitespace
    ensures EmeraldShellCommand(Parsed([], Some(pad + "NONE" + pad)), host).None?
  {
    var s := pad + "NONE" + pad;
    var low := Lower(s);
    assert low == pad + "none" + pad by {
      forall k | 0 <= k < |s| ensures low[k] == (pad + "none" + pad)[k] {
        if k < |pad| { assert s[k] == pad[k]; }
        else if k < |pad| + 4 { assert s[k] == "NONE"[k - |pad|]; }
        else { assert s[k] == pad[k - |pad| - 4]; }
      }
    }
    StripPadded(pad, "none");
  }

  /** Stripping a word padded by whitespace on both sides gives the word. */
  lemma {:induction false} StripPadded(pad: string, w: string)
    requires forall k :: 0 <= k < |pad| ==> pad[k] in Whitespace
    requires w != [] && w[0] !in Whitespace && w[|w| - 1] !in Whitespace
    ensures Strip(pad + w + pad) == w
  {
    LStripPadded(pad, w);
    RStripPad(w, pad);
  }

  lemma LStripPadded(pad: string, w: string)
    requires forall k :: 0 <= k < |pad| ==> pad[k] in Whitespace
    requires w != [] && w[0] !in Whitespace
    ensures LStrip(pad + w + pad, Whitespace) == w + pad
  {
    assert pad + w + pad == pad + (w + pad);
    LStripPad(pad, w + pad);
  }

  lemma {:induction false} LStripPad(pad: string, rest: string)
    requires forall k :: 0 <= k < |pad| ==> pad[k] in Whitespace
    requires rest != [] && rest[0] !in Whitespace
    ensures LStrip(pad + rest, Whitespace) == rest
  {
    if pad != [] {
      assert (pad + rest)[1..] == pad[1..] + rest;
      LStripPad(pad[1..], rest);
    }
  }

  lemma {:induction false} RStripPad(w: string, pad: string)
    requires forall k :: 0 <= k < |pad| ==> pad[k] in Whitespace
    requires w != [] && w[|w| - 1] !in Whitespace
    ensures RStrip(w + pad, Whitespace) == w
  {
    if pad != [] {
      var n := |pad| - 1;
      assert (w + pad)[..|w + pad| - 1] == w + pad[..n];
      RStripPad(w, pad[..n]);
    } else {
      assert w + pad == w;
    }
  }
}
