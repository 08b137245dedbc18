/** The reward classifier of agentic_emerald.py (`_classify_reward`) and the bookkeeping
    `run_agent` does with its label after every non-empty response: the last ten labels,
    the drought counter (consecutive responses without a visible reward) and the number
    of visible rewards this session, which `build_prompt` turns into warnings. */
module Rewards {
  import opened Optional
  import opened Text
  import opened Matching
  import opened Parser

  /** The three labels: 'none', 'ev' (invisible in the game) and 'visible'. */
  datatype Reward = NoReward | Ev | Visible

  /** `reward_history` keeps this many labels. */
  const MaxRewardHistory: nat := 10

  /** `build_prompt` warns from this drought on. */
  const DroughtWarningAt: nat := 3

  /** `build_prompt` adds its session note once this many labels are recorded. */
  const SessionNoteAfter: nat := 5

  /** A command that counts as no command: empty, or "none" in any case with any
      surrounding whitespace. */
  predicate IsNoneText(cmd: string) {
    cmd == [] || Strip(Lower(cmd)) == "none"
  }

  /** Commands whose effect the player cannot see: EV and friendship changes. */
  predicate IsInvisibleCommand(cmd: string) {
    Contains(cmd, "addEVs") || Contains(cmd, "setFriendship")
  }

  /** `_classify_reward`, over the classified target (None when the response had neither
      a GM call nor an ACTION line). */
  function Classify(target: Option<string>): (r: Reward)
    ensures r == NoReward <==> target.None? || IsNoneText(target.value)
    ensures r == Ev <==> target.Some? && !IsNoneText(target.value) && IsInvisibleCommand(target.value)
  {
    match target
    case None => NoReward
    case Some(cmd) =>
      if IsNoneText(cmd) then NoReward
      else if IsInvisibleCommand(cmd) then Ev
      else Visible
  }

  /** "none" is recognised whatever its case and whatever blanks surround it. */
  lemma NoneInAnyCase(pad: string)
    requires forall k :: 0 <= k < |pad| ==> pad[k] in Whitespace
    ensures Classify(Some(pad + "NONE" + pad)) == NoReward
  {
    var s := pad + "NONE" + pad;
    var low := Lower(s);
    assert low == pad + "none" + pad by {
      forall k | 0 <= k < |s| ensures low[k] == (pad + "none" + pad)[k] {
        if k < |pad| { assert s[k] == pad[k]; }
        else if k < |pad| + 4 { assert s[k] == "NONE"[k - |pad|]; }
        else { assert s[k] == pad[k - |pad| - 4]; }
      }
    }
    StripPadded(pad, "none");
  }

  /** A GM call is never taken for "none": it is visible unless it changes EVs or
      friendship. */
  lemma GmCallIsRewarded(call: string)
    requires IsGmCall(call)
    ensures Classify(Some(call)) != NoReward
    ensures Classify(Some(call)) == Ev <==> IsInvisibleCommand(call)
  {
    assert call[0..3] == "GM.";
    var low := Lower(call);
    assert low[0] == 'g';
    StripNonBlank(low, 0);
    LStripIdle(low, Whitespace);
    assert Strip(Lower(call))[0] == 'g';
  }

  /** A response in which the parser found GM calls always earns a reward label other
      than 'none': the first call decides between 'ev' and 'visible'. */
  lemma ResponseWithCallsIsRewarded(text: string)
    requires ParseResponse(text, EmeraldLineLimit, true).calls != []
    ensures var p := ParseResponse(text, EmeraldLineLimit, true);
      Classify(ClassifyTarget(p)) != NoReward
      && (Classify(ClassifyTarget(p)) == Ev <==> IsInvisibleCommand(p.calls[0]))
  {
    var p := ParseResponse(text, EmeraldLineLimit, true);
    CollectedCallsSound(Take(Split(text, '\n'), EmeraldLineLimit), true);
    GmCallIsRewarded(p.calls[0]);
  }

  // ---------------------------------------------------------------------------
  // The bookkeeping after a response

  /** `reward_history`, `ev_drought_count` and `session_visible_rewards`. */
  datatype RewardState = RewardState(history: seq<Reward>, drought: nat, visible: nat)

  const InitialRewards: RewardState := RewardState([], 0, 0)

  /** One label added: a visible reward ends the drought and is counted; anything else
      lengthens the drought. */
  function Record(s: RewardState, r: Reward): (t: RewardState)
    ensures |t.history| <= MaxRewardHistory
  {
    RewardState(PushCapped(s.history, r, MaxRewardHistory),
                if r == Visible then 0 else s.drought + 1,
                if r == Visible then s.visible + 1 else s.visible)
  }

  /** The labels of several responses, oldest first. */
  function RecordAll(s: RewardState, rs: seq<Reward>): RewardState
    decreases |rs|
  {
    if rs == [] then s else Record(RecordAll(s, rs[..|rs| - 1]), rs[|rs| - 1])
  }

  /** How many labels at the end of `rs` are not visible. */
  function TrailingInvisible(rs: seq<Reward>): (n: nat)
    ensures n <= |rs|
  {
    if rs == [] || rs[|rs| - 1] == Visible then 0 else 1 + TrailingInvisible(rs[..|rs| - 1])
  }

  function CountVisible(rs: seq<Reward>): (n: nat)
    ensures n <= |rs|
  {
    if rs == [] then 0 else CountVisible(rs[..|rs| - 1]) + (if rs[|rs| - 1] == Visible then 1 else 0)
  }

  /** The drought counter counts the responses since the last visible reward, or all of
      them added to the old count when none was visible. */
  lemma {:induction false} DroughtCountsSinceVisible(s: RewardState, rs: seq<Reward>)
    ensures Visible in rs ==> RecordAll(s, rs).drought == TrailingInvisible(rs)
    ensures Visible !in rs ==> RecordAll(s, rs).drought == s.drought + |rs|
    decreases |rs|
  {
    if rs != [] {
      var front := rs[..|rs| - 1];
      DroughtCountsSinceVisible(s, front);
      assert rs == front + [rs[|rs| - 1]];
      assert Visible in rs <==> Visible in front || rs[|rs| - 1] == Visible;
    }
  }

  /** The session counter counts the visible rewards. */
  lemma {:induction false} VisibleRewardsCounted(s: RewardState, rs: seq<Reward>)
    ensures RecordAll(s, rs).visible == s.visible + CountVisible(rs)
    decreases |rs|
  {
    if rs != [] {
      VisibleRewardsCounted(s, rs[..|rs| - 1]);
    }
  }

  lemma LastOfPushed<T>(xs: seq<T>, x: T, n: nat)
    requires n > 0
    ensures Last(Last(xs, n) + [x], n) == Last(xs + [x], n)
  {
    var a := Last(Last(xs, n) + [x], n);
    var b := Last(xs + [x], n);
    assert |a| == |b|;
    forall i | 0 <= i < |a| ensures a[i] == b[i] {
      if i == |a| - 1 {
      } else {
        assert a[i] == (Last(xs, n) + [x])[|Last(xs, n)| + 1 - |a| + i];
      }
    }
  }

  /** The history holds the newest ten labels, in order. */
  lemma {:induction false} HistoryKeepsNewest(s: RewardState, rs: seq<Reward>)
    requires |s.history| <= MaxRewardHistory
    ensures RecordAll(s, rs).history == Last(s.history + rs, MaxRewardHistory)
    decreases |rs|
  {
    if rs == [] {
      assert s.history + rs == s.history;
    } else {
      var front := rs[..|rs| - 1];
      var x := rs[|rs| - 1];
      HistoryKeepsNewest(s, front);
      LastOfPushed(s.history + front, x, MaxRewardHistory);
      assert s.history + front + [x] == s.history + rs;
    }
  }

  /** `build_prompt`'s impact warning condition. */
  predicate DroughtWarning(s: RewardState) { s.drought >= DroughtWarningAt }

  /** `build_prompt`'s session note condition: nothing visible yet, five labels recorded. */
  predicate SessionNote(s: RewardState) {
    s.visible == 0 && |s.history| >= SessionNoteAfter
  }

  lemma {:induction false} TrailingInvisibleAtLeast(rs: seq<Reward>, k: nat)
    requires k <= |rs|
    ensures TrailingInvisible(rs) >= k <==> forall j :: |rs| - k <= j < |rs| ==> rs[j] != Visible
    decreases |rs|
  {
    if k > 0 {
      var front := rs[..|rs| - 1];
      TrailingInvisibleAtLeast(front, k - 1);
      assert forall j :: |front| - (k - 1) <= j < |front| ==> front[j] == rs[j];
    }
  }

  /** After at least three responses, the warning is shown exactly when none of the last
      three earned a visible reward, whatever came before. */
  lemma WarningAfterThreeInvisible(s: RewardState, rs: seq<Reward>)
    requires |rs| >= DroughtWarningAt
    ensures DroughtWarning(RecordAll(s, rs))
            <==> forall j :: |rs| - DroughtWarningAt <= j < |rs| ==> rs[j] != Visible
  {
    DroughtCountsSinceVisible(s, rs);
    TrailingInvisibleAtLeast(rs, DroughtWarningAt);
    if Visible in rs {
    } else {
      assert forall j :: 0 <= j < |rs| ==> rs[j] != Visible;
    }
  }

  lemma {:induction false} NoVisibleCounted(rs: seq<Reward>)
    ensures CountVisible(rs) == 0 <==> Visible !in rs
    decreases |rs|
  {
    if rs != [] {
      NoVisibleCounted(rs[..|rs| - 1]);
      assert rs == rs[..|rs| - 1] + [rs[|rs| - 1]];
    }
  }

  /** From a fresh session, the session note appears exactly when five or more
      responses came back and none earned a visible reward. */
  lemma SessionNoteFromStart(rs: seq<Reward>)
    ensures SessionNote(RecordAll(InitialRewards, rs)) <==> |rs| >= SessionNoteAfter && Visible !in rs
  {
    VisibleRewardsCounted(InitialRewards, rs);
    HistoryKeepsNewest(InitialRewards, rs);
    NoVisibleCounted(rs);
    assert InitialRewards.history + rs == rs;
  }
}
