/** The uncertainty gate of agentic_emerald.py: `score_event_uncertainty`,
    `should_invoke_agent` and `_summarize_event`. Scores are exact reals. */
module Gate {
  import opened Optional
  import opened Text
  import opened Events

  /** The default admission threshold of `should_invoke_agent`. */
  const DefaultThreshold: real := 0.15

  /** What the scan over a battle buffer leaves in `is_trainer` / `is_close`: the flag
      of the last START record, and the flag of the last END record (False when absent). */
  function TrainerFlag(buffer: seq<BufferRecord>): bool
  {
    if buffer == [] then false
    else if buffer[|buffer| - 1].Start? then buffer[|buffer| - 1].isTrainer
    else TrainerFlag(buffer[..|buffer| - 1])
  }

  function CloseFlag(buffer: seq<BufferRecord>): bool
  {
    if buffer == [] then false
    else if buffer[|buffer| - 1].End? then buffer[|buffer| - 1].wasClose
    else CloseFlag(buffer[..|buffer| - 1])
  }

  /** Whether an exploration summary mentions a rarity or capture keyword. */
  predicate MentionsRarity(summary: string) {
    Contains(Lower(summary), "rare") || Contains(Lower(summary), "caught")
  }

  /** `score_event_uncertainty`. The result is one of seven fixed values, so it lies in
      [0, 1], and badges and rematches always score 1.0. */
  function Score(eventType: string, ctx: Context): (r: real)
    ensures r in {0.2, 0.3, 0.5, 0.7, 0.8, 0.9, 1.0}
    ensures 0.0 <= r <= 1.0
    ensures eventType == BADGE_OBTAINED || eventType == TRAINER_REMATCH ==> r == 1.0
  {
    if eventType == BADGE_OBTAINED || eventType == TRAINER_REMATCH then 1.0
    else if eventType == BATTLE_SUMMARY then
      var trainer := TrainerFlag(ctx.buffer);
      var close := CloseFlag(ctx.buffer);
      if trainer then (if close then 0.9 else 0.7)
      else if !close then 0.2
      else 0.5
    else if eventType == EXPLORATION_SUMMARY then
      if MentionsRarity(ctx.summary.GetOr("")) then 0.8 else 0.3
    else 0.5
  }

  /** `should_invoke_agent`: admit iff the score reaches the threshold. */
  predicate ShouldInvoke(eventType: string, ctx: Context, threshold: real) {
    Score(eventType, ctx) >= threshold
  }

  /** The battle-summary part of the table, in the order the source tests it. */
  lemma BattleScores(ctx: Context)
    ensures var t, c := TrainerFlag(ctx.buffer), CloseFlag(ctx.buffer);
      Score(BATTLE_SUMMARY, ctx) == (if t && c then 0.9 else if t then 0.7 else if c then 0.5 else 0.2)
  {
  }

  /** The exploration part of the table: 0.8 when the summary mentions a rarity or a
      capture, 0.3 otherwise; a context without a summary scores as an empty one. */
  lemma ExplorationScores(ctx: Context)
    ensures Score(EXPLORATION_SUMMARY, ctx) == (if MentionsRarity(ctx.summary.GetOr("")) then 0.8 else 0.3)
    ensures ctx.summary.None? ==> Score(EXPLORATION_SUMMARY, ctx) == 0.3
  {
    assert Lower("") == "";
    assert !Contains("", "rare") && !Contains("", "caught");
  }

  /** The keyword test ignores case and position: "rare" written in any case anywhere
      in the summary makes it score 0.8. */
  lemma RarityInAnyCase(ctx: Context, before: string, word: string, after: string)
    requires ctx.summary == Some(before + word + after) && Lower(word) == "rare"
    ensures Score(EXPLORATION_SUMMARY, ctx) == 0.8
  {
    var s := before + word + after;
    var l := Lower(s);
    assert l[|before|..|before| + 4] == Lower(word);
    ContainsAt(l, "rare", |before|);
  }

  /** Every other event type scores 0.5. */
  lemma UnknownScoresHalf(eventType: string, ctx: Context)
    requires eventType !in {BADGE_OBTAINED, TRAINER_REMATCH, BATTLE_SUMMARY, EXPLORATION_SUMMARY}
    ensures Score(eventType, ctx) == 0.5
  {
  }

  /** Admission is monotone: an event admitted at one threshold is admitted at every
      lower threshold. */
  lemma AdmissionMonotone(eventType: string, ctx: Context, t: real, t': real)
    requires ShouldInvoke(eventType, ctx, t) && t' <= t
    ensures ShouldInvoke(eventType, ctx, t')
  {
  }

  /** At the default threshold of 0.15, every event is admitted (the lowest score is 0.2). */
  lemma DefaultAdmitsAll(eventType: string, ctx: Context)
    ensures ShouldInvoke(eventType, ctx, DefaultThreshold)
  {
  }

  /** An event is suppressed only below 1.0: badges are admitted at every threshold up
      to 1.0. */
  lemma BadgeAlwaysAdmitted(ctx: Context, threshold: real)
    requires threshold <= 1.0
    ensures ShouldInvoke(BADGE_OBTAINED, ctx, threshold)
  {
  }

  /** The trainer flag is the flag of the last START record in the buffer. */
  lemma {:induction false} TrainerFlagIsLastStart(buffer: seq<BufferRecord>, k: nat)
    requires k < |buffer| && buffer[k].Start?
    requires forall j :: k < j < |buffer| ==> !buffer[j].Start?
    ensures TrainerFlag(buffer) == buffer[k].isTrainer
    decreases |buffer|
  {
    if k < |buffer| - 1 {
      var front := buffer[..|buffer| - 1];
      assert forall j :: k < j < |front| ==> front[j] == buffer[j];
      TrainerFlagIsLastStart(front, k);
    }
  }

  /** The close flag is the flag of the last END record in the buffer. */
  lemma {:induction false} CloseFlagIsLastEnd(buffer: seq<BufferRecord>, k: nat)
    requires k < |buffer| && buffer[k].End?
    requires forall j :: k < j < |buffer| ==> !buffer[j].End?
    ensures CloseFlag(buffer) == buffer[k].wasClose
    decreases |buffer|
  {
    if k < |buffer| - 1 {
      var front := buffer[..|buffer| - 1];
      assert forall j :: k < j < |front| ==> front[j] == buffer[j];
      CloseFlagIsLastEnd(front, k);
    }
  }

  /** The score of a battle summary whose buffer is [START, END], as the battle
      tracker emits it. */
  lemma StartEndScore(s: BufferRecord, e: BufferRecord, ctx: Context)
    requires s.Start? && e.End? && ctx.buffer == [s, e]
    ensures Score(BATTLE_SUMMARY, ctx) ==
      (if s.isTrainer then (if e.wasClose then 0.9 else 0.7) else if e.wasClose then 0.5 else 0.2)
  {
    TrainerFlagIsLastStart(ctx.buffer, 0);
    CloseFlagIsLastEnd(ctx.buffer, 1);
  }

  /** `score_event_uncertainty` as the source writes it, with the loop over the buffer. */
  method ScoreEventUncertainty(eventType: string, ctx: Context) returns (r: real)
    ensures r == Score(eventType, ctx)
  {
    if eventType == BADGE_OBTAINED || eventType == TRAINER_REMATCH {
      return 1.0;
    }
    if eventType == BATTLE_SUMMARY {
      var buffer := ctx.buffer;
      var isTrainer, isClose := false, false;
      var i := 0;
      while i < |buffer|
        invariant 0 <= i <= |buffer|
        invariant isTrainer == TrainerFlag(buffer[..i])
        invariant isClose == CloseFlag(buffer[..i])
      {
        assert buffer[..i + 1][..i] == buffer[..i];
        if buffer[i].Start? {
          isTrainer := buffer[i].isTrainer;
        } else if buffer[i].End? {
          isClose := buffer[i].wasClose;
        }
        i := i + 1;
      }
      assert buffer[..i] == buffer;
      if isTrainer {
        return if isClose then 0.9 else 0.7;
      }
      if !isClose {
        return 0.2;
      }
      return 0.5;
    }
    if eventType == EXPLORATION_SUMMARY {
      var summary := ctx.summary.GetOr("");
      if Contains(Lower(summary), "rare") || Contains(Lower(summary), "caught") {
        return 0.8;
      }
      return 0.3;
    }
    return 0.5;
  }

  // ---------------------------------------------------------------------------
  // Summaries of skipped events

  /** The enemy of the first START record, if any. */
  function FirstStartEnemy(buffer: seq<BufferRecord>): (r: Option<string>)
    ensures r.Some? <==> exists k :: 0 <= k < |buffer| && buffer[k].Start?
    ensures r.Some? ==> exists k :: 0 <= k < |buffer| && buffer[k].Start? && buffer[k].enemy == r.value
                          && forall j :: 0 <= j < k ==> !buffer[j].Start?
  {
    if buffer == [] then None
    else if buffer[0].Start? then Some(buffer[0].enemy)
    else
      var r := FirstStartEnemy(buffer[1..]);
      assert forall k :: 1 <= k < |buffer| ==> buffer[k] == buffer[1..][k - 1];
      if r.Some? then
        var k' :| 0 <= k' < |buffer[1..]| && buffer[1..][k'].Start? && buffer[1..][k'].enemy == r.value
                  && forall j :: 0 <= j < k' ==> !buffer[1..][j].Start?;
        assert buffer[k' + 1] == buffer[1..][k'];
        assert forall j :: 0 <= j < k' + 1 ==> !buffer[j].Start? by {
          forall j | 0 <= j < k' + 1 ensures !buffer[j].Start? {
            if j > 0 { assert buffer[j] == buffer[1..][j - 1]; }
          }
        }
        r
      else r
  }

  /** `_summarize_event`: the one-line summary kept for a suppressed event. */
  function Summarize(eventType: string, ctx: Context): string {
    if eventType == BATTLE_SUMMARY then
      match FirstStartEnemy(ctx.buffer)
      case Some(enemy) => "Wild battle vs " + enemy
      case None => "Wild battle"
    else if eventType == EXPLORATION_SUMMARY then ctx.summary.GetOr("Explored")
    else eventType
  }

  /** A battle summary names the enemy of its first START record; one without a START
      record says only "Wild battle"; events of other kinds are summarised by their type. */
  lemma SummarizeFacts(eventType: string, ctx: Context)
    ensures eventType == BATTLE_SUMMARY && ctx.buffer != [] && ctx.buffer[0].Start? ==>
              Summarize(eventType, ctx) == "Wild battle vs " + ctx.buffer[0].enemy
    ensures eventType == BATTLE_SUMMARY && (forall k :: 0 <= k < |ctx.buffer| ==> !ctx.buffer[k].Start?) ==>
              Summarize(eventType, ctx) == "Wild battle"
    ensures eventType != BATTLE_SUMMARY && eventType != EXPLORATION_SUMMARY ==>
              Summarize(eventType, ctx) == eventType
  {
  }
}
