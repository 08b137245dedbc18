/** The state and event pipeline of agentic_emerald.py's `PokemonGM`: `process_event`
    updates the battle tracker and hands events to `prompt_agent_async`, which gates,
    queues or starts a dispatch; `run_agent` builds the prompt when the dispatch starts
    (the model captures what the prompt reads at that moment and renders it from that
    snapshot) and, once the backend has answered, parses the response, books the reward
    and relays the commands, then pops the next waiting event.

    The model is sequential: a dispatch runs from the `prompt_agent_async` call that
    starts it to the `FinishAgent` call that completes it, and the clock, the time stamps,
    the playthrough notes and the backend's answer are parameters. Each operation is a
    function on the daemon's `State`, with its properties proved as lemmas; the methods of
    `EmeraldGM` update the fields step by step as the source does and are proved to
    agree with those functions. */
module Emerald {
  import opened Optional
  import opened Text
  import opened Events
  import opened Party
  import opened Battle
  import opened Gate
  import opened Rematch
  import opened Parser
  import opened Rewards
  import opened Arcs
  import opened Prompt
  import opened Exploration
  import Dispatch

  /** `skipped_events` keeps this many entries. */
  const MaxSkipped: nat := 20

  /** What a call sees of the world: the clock, `datetime.now().isoformat()`, and the
      text of PLAYTHROUGH.md (None when it is missing or unreadable). */
  datatype Env = Env(now: real, stamp: string, notes: Option<string>)

  /** The settings fixed when the daemon starts. */
  datatype Config = Config(speciesNames: map<int, string>, moveNames: map<int, string>, socketHost: string,
                           socketPort: int, sessionPersistent: bool, sessionStart: real, threshold: real)

  /** The dispatch in flight: its event and what `build_prompt` read for it. */
  datatype InFlight = InFlight(req: Request, inputs: PromptInputs)

  /** The battle tracker: what battle_start sets and battle_end reads. */
  datatype Tracker = Tracker(buffer: seq<BufferRecord>, inBattle: bool, startTime: Option<real>,
                             startHp: map<int, int>, startLevels: map<int, int>, encounters: Ledger,
                             enemy: string)

  /** Everything the daemon updates: the dispatch (`agent_busy`, `pending_events`,
      `skipped_events`, the dispatch in flight), the latest record, the move counts, the
      running totals, the reward bookkeeping, the battle history, the battle tracker and
      the session history. */
  datatype State = State(busy: bool, pending: seq<Request>, skipped: seq<SkippedEntry>,
                         inFlight: Option<InFlight>, current: Option<Telemetry>, moveUsage: map<int, int>,
                         stats: Stats, rewards: RewardState, battles: seq<BattleRecord>, tracker: Tracker,
                         history: seq<HistoryEntry>)

  /** A fresh daemon; the saved history is what `_load_session_history` read (None when
      the file is missing or unreadable), used only in persistent mode. */
  function Initial(c: Config, saved: Option<seq<HistoryEntry>>): State {
    State(false, [], [], None, None, map[], Stats(0, 0, 0), InitialRewards, [],
          Tracker([], false, None, map[], map[], map[], "Unknown"),
          if c.sessionPersistent then saved.GetOr([]) else [])
  }

  function QueueOf(s: State): Dispatch.Queue<Request> {
    Dispatch.Queue(s.busy, s.pending)
  }

  /** `should_invoke_agent` at the daemon's threshold, the gate of the queue. */
  function Admit(threshold: real): Request -> bool {
    (r: Request) => ShouldInvoke(r.eventType, r.ctx, threshold)
  }

  /** What holds between calls: a dispatch is in flight exactly while busy, nothing waits
      while idle, only admitted events wait, and the lists stay within their caps. */
  ghost predicate Invariant(c: Config, s: State) {
    && (s.busy <==> s.inFlight.Some?)
    && Dispatch.Valid(QueueOf(s), Admit(c.threshold))
    && |s.skipped| <= MaxSkipped
    && |s.rewards.history| <= MaxRewardHistory
    && |s.battles| <= MaxBattleHistory
  }

  /** A fresh daemon is idle, with nothing waiting. */
  lemma InitialInvariant(c: Config, saved: Option<seq<HistoryEntry>>)
    ensures Invariant(c, Initial(c, saved))
    ensures !Initial(c, saved).busy && Initial(c, saved).pending == [] && Initial(c, saved).skipped == []
  {
  }

  // ---------------------------------------------------------------------------
  // prompt_agent_async

  /** The `skipped_events` entry for a gated-out event. */
  function SkipEntry(r: Request, env: Env): SkippedEntry {
    SkippedEntry(r.eventType, env.stamp, Summarize(r.eventType, r.ctx))
  }

  /** What `build_prompt` reads for a request. */
  function Inputs(c: Config, s: State, r: Request, env: Env): PromptInputs {
    PromptInputs(c.speciesNames, c.moveNames, r.eventType, r.ctx, SessionMinutes(env.now, c.sessionStart),
                 s.stats, s.rewards, s.battles, s.skipped, c.sessionPersistent, s.history, PendingArcs(env.notes))
  }

  /** `prompt_agent_async`: the queue moves as `Dispatch.Arrive` says; a gated-out event
      is summarised into `skipped_events`; a started one captures the prompt's inputs,
      the skipped events among them, and clears them. */
  function PromptAgent(c: Config, s: State, r: Request, env: Env): (t: (State, Dispatch.Step<Request>))
    ensures (QueueOf(t.0), t.1) == Dispatch.Arrive(QueueOf(s), r, Admit(c.threshold))
  {
    if !ShouldInvoke(r.eventType, r.ctx, c.threshold) then
      (s.(skipped := PushCapped(s.skipped, SkipEntry(r, env), MaxSkipped)), Dispatch.Skipped(r))
    else if s.busy then (s.(pending := s.pending + [r]), Dispatch.Queued)
    else (s.(busy := true, skipped := [], inFlight := Some(InFlight(r, Inputs(c, s, r, env)))), Dispatch.Started(r))
  }

  /** A gated-out event changes nothing but `skipped_events`, which gains its summary as
      the newest of at most twenty entries. */
  lemma GatedOutIsSkipped(c: Config, s: State, r: Request, env: Env)
    requires !ShouldInvoke(r.eventType, r.ctx, c.threshold)
    ensures var (t, step) := PromptAgent(c, s, r, env);
      && step == Dispatch.Skipped(r)
      && t == s.(skipped := t.skipped)
      && |t.skipped| <= MaxSkipped
      && t.skipped[|t.skipped| - 1] == SkipEntry(r, env)
      && (|s.skipped| < MaxSkipped ==> t.skipped == s.skipped + [SkipEntry(r, env)])
  {
  }

  /** An admitted event that arrives while busy waits at the end of `pending_events`, and
      nothing else changes. */
  lemma BusyQueues(c: Config, s: State, r: Request, env: Env)
    requires ShouldInvoke(r.eventType, r.ctx, c.threshold) && s.busy
    ensures PromptAgent(c, s, r, env) == (s.(pending := s.pending + [r]), Dispatch.Queued)
  {
  }

  /** An admitted event that arrives while idle starts a dispatch whose prompt counts the
      skipped events and lists each of them; the list is then empty. */
  lemma StartDrainsSkipped(c: Config, s: State, r: Request, env: Env, k: nat)
    requires ShouldInvoke(r.eventType, r.ctx, c.threshold) && !s.busy
    requires k < |s.skipped|
    ensures var (t, step) := PromptAgent(c, s, r, env);
      && step == Dispatch.Started(r) && t.busy && t.skipped == [] && t.inFlight.Some?
      && t.inFlight.value.req == r
      && Contains(EmeraldPrompt(t.inFlight.value.inputs), SinceHeader(|s.skipped|))
      && Contains(EmeraldPrompt(t.inFlight.value.inputs), Bullet(EmeraldGlyphs.bullet, s.skipped[k].summary))
  {
    EmeraldPromptListsSkipped(Inputs(c, s, r, env), k);
  }

  lemma PromptAgentKeepsInvariant(c: Config, s: State, r: Request, env: Env)
    requires Invariant(c, s)
    ensures Invariant(c, PromptAgent(c, s, r, env).0)
  {
    Dispatch.ArriveValid(QueueOf(s), r, Admit(c.threshold));
  }

  // ---------------------------------------------------------------------------
  // The end of run_agent

  /** The relay of one GM call to the game's socket. */
  function GmCallCommand(call: string, host: string, port: int): string {
    "echo '" + call + "' | nc -w 1 " + host + " " + IntToString(port)
  }

  function GmCallCommands(calls: seq<string>, host: string, port: int): (r: seq<string>)
    ensures |r| == |calls|
    ensures forall k :: 0 <= k < |calls| ==> r[k] == GmCallCommand(calls[k], host, port)
  {
    if calls == [] then []
    else GmCallCommands(calls[..|calls| - 1], host, port) + [GmCallCommand(calls[|calls| - 1], host, port)]
  }

  /** The shell commands `run_agent` runs for a parsed response: one relay per GM call,
      or else the legacy ACTION command when it is not "none". */
  function Commands(p: Parsed, host: string, port: int): seq<string> {
    if p.calls != [] then GmCallCommands(p.calls, host, port)
    else match EmeraldShellCommand(p, host)
      case Some(cmd) => [cmd]
      case None => []
  }

  /** Every command that pipes into `nc` carries a timeout, and the GM calls are relayed
      one command each, in order. */
  lemma CommandsTimeBounded(p: Parsed, host: string, port: int)
    ensures p.calls != [] ==> |Commands(p, host, port)| == |p.calls|
    ensures p.calls == [] ==> |Commands(p, host, port)| <= 1
    ensures forall k :: 0 <= k < |Commands(p, host, port)| && Contains(Commands(p, host, port)[k], "| nc ") ==>
              Contains(Commands(p, host, port)[k], " -w ")
  {
    if p.calls != [] {
      GmCallCommandsTimed(p.calls, host, port);
    } else {
      var o := EmeraldShellCommand(p, host);
      assert Commands(p, host, port) == if o.Some? then [o.value] else [];
    }
  }

  lemma GmCallCommandsTimed(calls: seq<string>, host: string, port: int)
    ensures forall k :: 0 <= k < |calls| ==> Contains(GmCallCommands(calls, host, port)[k], " -w ")
  {
    forall k | 0 <= k < |calls| ensures Contains(GmCallCommands(calls, host, port)[k], " -w ") {
      GmCallCommandTimed(calls[k], host, port);
    }
  }

  /** The relay's `nc` always carries its one-second timeout. */
  lemma GmCallCommandTimed(call: string, host: string, port: int)
    ensures Contains(GmCallCommand(call, host, port), " -w ")
  {
    TimeoutFlagAt(call, host, port);
    ContainsAt(GmCallCommand(call, host, port), " -w ", |call| + 12);
  }

  lemma TimeoutFlagAt(call: string, host: string, port: int)
    ensures OccursAt(GmCallCommand(call, host, port), " -w ", |call| + 12)
  {
    var x := "echo '" + call;
    var y := "' | nc -w 1 ";
    var s := GmCallCommand(call, host, port);
    assert s == x + y + (host + " " + IntToString(port));
    assert s[|x| + 6..|x| + 10] == y[6..10];
  }

  /** What `run_agent` does with the backend's answer to the dispatch in flight
      (`response` is empty when it returned nothing or failed): a non-empty response
      joins the session history in persistent mode, is parsed and classified, its label
      is booked, and its commands are returned for relaying. */
  function Respond(c: Config, s: State, response: string, env: Env): (State, seq<string>)
    requires s.inFlight.Some?
  {
    if response == [] then (s, [])
    else
      var f := s.inFlight.value;
      var p := ParseResponse(response, EmeraldLineLimit, true);
      var entry := if c.sessionPersistent then [HistoryEntry(env.stamp, f.req.eventType, response)]
                   else [];
      (s.(rewards := Record(s.rewards, Classify(ClassifyTarget(p))), history := s.history + entry),
       Commands(p, c.socketHost, c.socketPort))
  }

  lemma RespondNonEmpty(c: Config, s: State, response: string, env: Env)
    requires s.inFlight.Some? && response != []
    ensures var f := s.inFlight.value;
      var p := ParseResponse(response, EmeraldLineLimit, true);
      Respond(c, s, response, env)
        == (s.(rewards := Record(s.rewards, Classify(ClassifyTarget(p))),
               history := s.history + (if c.sessionPersistent then [HistoryEntry(env.stamp, f.req.eventType, response)] else [])),
            Commands(p, c.socketHost, c.socketPort))
  {
  }

  /** The whole end of `run_agent`: the response is handled, and the `finally` block drops
      the flag and hands the oldest waiting event to `prompt_agent_async`. */
  function Finish(c: Config, s: State, response: string, env: Env): (State, seq<string>, Dispatch.Step<Request>)
    requires s.inFlight.Some?
  {
    var (answered, commands) := Respond(c, s, response, env);
    var idle := answered.(busy := false, inFlight := None);
    if idle.pending == [] then (idle, commands, Dispatch.Idle)
    else
      var (t, next) := PromptAgent(c, idle.(pending := idle.pending[1..]), idle.pending[0], env);
      (t, commands, next)
  }

  /** An empty answer changes nothing; a non-empty one books its label, joins the history
      in persistent mode and is relayed as its commands. The dispatch state and the
      totals are left alone either way. */
  lemma ResponseBooked(c: Config, s: State, response: string, env: Env)
    requires s.inFlight.Some?
    ensures var (t, commands) := Respond(c, s, response, env);
      && (response == [] ==> t == s && commands == [])
      && (response != [] ==>
            var p := ParseResponse(response, EmeraldLineLimit, true);
            && t.rewards == Record(s.rewards, Classify(ClassifyTarget(p)))
            && |t.history| == |s.history| + (if c.sessionPersistent then 1 else 0)
            && t.history[..|s.history|] == s.history
            && commands == Commands(p, c.socketHost, c.socketPort))
      && t.busy == s.busy && t.pending == s.pending && t.skipped == s.skipped && t.inFlight == s.inFlight
      && t.stats == s.stats && t.battles == s.battles && t.tracker == s.tracker
  {
    var (t, commands) := Respond(c, s, response, env);
    if response != [] {
      assert t.history[..|s.history|] == s.history;
    }
  }

  /** A response whose first GM call is visible ends the drought and counts a visible
      reward; any response not labelled visible lengthens the drought by one. */
  lemma VisibleCallEndsDrought(c: Config, s: State, response: string, env: Env)
    requires s.inFlight.Some? && response != []
    ensures var p := ParseResponse(response, EmeraldLineLimit, true);
      var t := Respond(c, s, response, env).0;
      && (p.calls != [] && !IsInvisibleCommand(p.calls[0]) ==>
            t.rewards.drought == 0 && t.rewards.visible == s.rewards.visible + 1)
      && (Classify(ClassifyTarget(p)) != Visible ==> t.rewards.drought == s.rewards.drought + 1)
  {
    var p := ParseResponse(response, EmeraldLineLimit, true);
    if p.calls != [] {
      ResponseWithCallsIsRewarded(response);
    }
  }

  /** Completion keeps the invariant and moves the queue as `Dispatch.Complete` says: a
      waiting event always starts, since it was admitted when it was queued, and its
      prompt already sees this response's reward label. */
  lemma FinishKeepsInvariant(c: Config, s: State, response: string, env: Env)
    requires Invariant(c, s) && s.busy
    ensures var (t, _, next) := Finish(c, s, response, env);
      && Invariant(c, t)
      && (QueueOf(t), next) == Dispatch.Complete(QueueOf(s), Admit(c.threshold))
      && (s.pending == [] ==> next == Dispatch.Idle && !t.busy && t.inFlight.None?)
      && (s.pending != [] ==>
            && next == Dispatch.Started(s.pending[0]) && t.inFlight.Some?
            && t.inFlight.value.req == s.pending[0]
            && t.inFlight.value.inputs.rewards == Respond(c, s, response, env).0.rewards)
  {
    var answered := Respond(c, s, response, env).0;
    ResponseBooked(c, s, response, env);
    assert Invariant(c, answered);
    Dispatch.CompleteStartsOldest(QueueOf(s), Admit(c.threshold));
    if s.pending != [] {
      assert Admit(c.threshold)(s.pending[0]);
      var idle := answered.(busy := false, inFlight := None, pending := s.pending[1..]);
      assert Invariant(c, idle.(busy := true, inFlight := Some(InFlight(s.pending[0], Inputs(c, idle, s.pending[0], env)))));
    }
  }

  // ---------------------------------------------------------------------------
  // process_event

  /** The battle_start branch: a trainer battle consults the rematch ledger (a missing
      enemy level counts as 0 there and prints as "?" in the label); the buffer restarts
      with the START record; HP and levels are recorded per slot. */
  function BattleStart(c: Config, s: State, data: Telemetry, env: Env): State {
    var (rematch, ledger) := if data.isTrainer then Detect(s.tracker.encounters, data.enemy.species,
                                                           data.enemy.level.GetOr(0), env.now)
                             else (false, s.tracker.encounters);
    var enemy := EnemyLabel(c.speciesNames, data.enemy);
    var start := Start(BattleKind(data.isTrainer, data.isDouble, data.isSafari, rematch), enemy, [],
                       data.isTrainer, data.isDouble, data.isSafari, rematch);
    s.(tracker := Tracker([start], true, Some(env.now), HpBaseline(data.party), LevelBaseline(data.party),
                          ledger, enemy))
  }

  /** battle_start only touches the tracker: whatever the buffer held is replaced by one
      START record, flagged as a rematch exactly when a trainer with the same species
      and level was fought less than thirty minutes ago. */
  lemma BattleStartResets(c: Config, s: State, data: Telemetry, env: Env)
    ensures var t := BattleStart(c, s, data, env);
      var key := (data.enemy.species, data.enemy.level.GetOr(0));
      && t == s.(tracker := t.tracker)
      && |t.tracker.buffer| == 1 && t.tracker.buffer[0].Start? && t.tracker.inBattle
      && t.tracker.buffer[0].isTrainer == data.isTrainer
      && (t.tracker.buffer[0].isRematch <==>
            data.isTrainer && exists u :: u in Encounters(s.tracker.encounters, key) && env.now - u < Window)
      && (!data.isTrainer ==> t.tracker.encounters == s.tracker.encounters)
  {
  }

  /** What battle_end computes from the telemetry and the tracker: the outcome after the
      level-up override (a level above its baseline, from 0 for a slot without one, turns
      an unknown, lost or fled outcome into a win) and the END record. */
  function EndOf(names: map<int, string>, data: Telemetry, startHp: map<int, int>, startLevels: map<int, int>,
                 startTime: Option<real>, now: real): (r: (int, string, BufferRecord))
    ensures r.2 == EndRecord(names, data.party, startHp, r.1, Duration(now, startTime))
    ensures (r.0, r.1) == OverrideOutcome(data.outcome, data.outcomeName, LevelRoseFromZero(data.party, startLevels))
  {
    var (outcome, name) := OverrideOutcome(data.outcome, data.outcomeName, LevelRoseFromZero(data.party, startLevels));
    (outcome, name, EndRecord(names, data.party, startHp, name, Duration(now, startTime)))
  }

  /** The bookkeeping of the battle_end branch, whether or not a battle was started: a
      win is counted, and a close one also as a close call; the battle joins the history
      of ten; the buffer, with the END record appended, goes into the summary, and the
      tracker's buffer is emptied. */
  function BattleEndRecorded(c: Config, s: State, data: Telemetry, env: Env): (State, Request) {
    var t := s.tracker;
    var (outcome, name, end) := EndOf(c.speciesNames, data, t.startHp, t.startLevels, t.startTime, env.now);
    var won := outcome == OUTCOME_WON;
    var close := WasClose(data.party) && won;
    var stats := Stats(s.stats.battlesWon + (if won then 1 else 0), s.stats.pokemonCaught,
                       s.stats.closeCalls + (if close then 1 else 0));
    var record := BattleRecord(t.enemy, name, HpPercent(data.party), WasClose(data.party));
    (s.(stats := stats, battles := AppendPopOldest(s.battles, record, MaxBattleHistory),
        tracker := t.(buffer := [], inBattle := false)),
     Request(BATTLE_SUMMARY, BattleContext(data, t.buffer + [end], name)))
  }

  /** The battle_end branch: the bookkeeping, then the summary to `prompt_agent_async`. */
  function BattleEnd(c: Config, s: State, data: Telemetry, env: Env): (State, Dispatch.Step<Request>) {
    var (recorded, req) := BattleEndRecorded(c, s, data, env);
    PromptAgent(c, recorded, req, env)
  }

  /** The summary of every battle_end holds the tracked buffer followed by its END record,
      even when no battle_start came first; afterwards the buffer is empty. */
  lemma BattleEndSummarised(c: Config, s: State, data: Telemetry, env: Env)
    ensures var (t, req) := BattleEndRecorded(c, s, data, env);
      && req.eventType == BATTLE_SUMMARY
      && |req.ctx.buffer| == |s.tracker.buffer| + 1
      && req.ctx.buffer[..|s.tracker.buffer|] == s.tracker.buffer
      && req.ctx.buffer[|s.tracker.buffer|].End?
      && t.tracker.buffer == [] && !t.tracker.inBattle
      && t.rewards == s.rewards && t.history == s.history && t.busy == s.busy && t.pending == s.pending
  {
    var (t, req) := BattleEndRecorded(c, s, data, env);
    assert req.ctx.buffer[..|s.tracker.buffer|] == s.tracker.buffer;
  }

  /** A battle is counted as won exactly when its outcome, after the level-up override,
      is a win, and as a close call exactly when it is also close; in particular a
      level-up turns an unknown, lost or fled battle into a counted win. */
  lemma BattleEndCounts(c: Config, s: State, data: Telemetry, env: Env)
    ensures var t := BattleEndRecorded(c, s, data, env).0;
      var rose := LevelRoseFromZero(data.party, s.tracker.startLevels);
      var outcome := OverrideOutcome(data.outcome, data.outcomeName, rose).0;
      && (t.stats.battlesWon == s.stats.battlesWon + 1 <==> outcome == OUTCOME_WON)
      && (t.stats.battlesWon != s.stats.battlesWon + 1 ==> t.stats.battlesWon == s.stats.battlesWon)
      && (t.stats.closeCalls == s.stats.closeCalls + 1 <==> outcome == OUTCOME_WON && WasClose(data.party))
      && (rose && data.outcome in {OUTCOME_UNKNOWN, OUTCOME_LOST, OUTCOME_FLED} ==>
            t.stats.battlesWon == s.stats.battlesWon + 1)
      && t.stats.pokemonCaught == s.stats.pokemonCaught
  {
  }

  /** The battle joins the history as its newest entry, and the history stays within ten. */
  lemma BattleEndHistory(c: Config, s: State, data: Telemetry, env: Env)
    requires |s.battles| <= MaxBattleHistory
    ensures var t := BattleEndRecorded(c, s, data, env).0;
      && |t.battles| <= MaxBattleHistory
      && t.battles[|t.battles| - 1].enemy == s.tracker.enemy
      && t.battles[|t.battles| - 1].wasClose == WasClose(data.party)
      && (|s.battles| < MaxBattleHistory ==> t.battles[..|s.battles|] == s.battles)
  {
    var t := BattleEndRecorded(c, s, data, env).0;
    if |s.battles| < MaxBattleHistory {
      assert t.battles[..|s.battles|] == s.battles;
    }
  }

  /** A stray battle_end (no START record in the buffer) is still summarised, and it is
      scored as a clean wild battle when it was not close: the gate admits it at every
      threshold up to 0.2, the default among them. */
  lemma StrayEndAdmitted(data: Telemetry, end: BufferRecord, name: string)
    requires end.End? && !end.wasClose
    ensures Score(BATTLE_SUMMARY, BattleContext(data, [end], name)) == 0.2
    ensures Admit(DefaultThreshold)(Request(BATTLE_SUMMARY, BattleContext(data, [end], name)))
  {
    var ctx := BattleContext(data, [end], name);
    assert [end][..0] == [];
    assert !TrainerFlag(ctx.buffer);
    BattleScores(ctx);
  }

  /** The exploration_summary branch: with anything to report, the pieces are joined
      into the summary and sent without a trigger; otherwise nothing happens. */
  function Explore(c: Config, s: State, data: Telemetry, env: Env): (State, Option<Dispatch.Step<Request>>) {
    match Summary(EmeraldParts(data), EmeraldSeparator)
    case None => (s, None)
    case Some(summary) =>
      var (t, step) := PromptAgent(c, s, Request(EXPLORATION_SUMMARY, ExplorationContext(data, summary, None)), env);
      (t, Some(step))
  }

  /** The pokemon_caught branch: the capture is counted before the event is sent. */
  function CaughtEvent(c: Config, s: State, data: Telemetry, env: Env): (State, Dispatch.Step<Request>) {
    var counted := s.(stats := s.stats.(pokemonCaught := s.stats.pokemonCaught + 1));
    PromptAgent(c, counted, Request(POKEMON_CAUGHT, CaughtContext(data, data.species)), env)
  }

  /** The move_mastery branch: the count is recorded per move and the event sent with
      the move's name. */
  function MasteryEvent(c: Config, s: State, data: Telemetry, env: Env): (State, Dispatch.Step<Request>) {
    var recorded := s.(moveUsage := s.moveUsage[data.moveId := data.count]);
    var req := Request(MOVE_MASTERY, MasteryContext(data, data.moveId, MasteryMoveName(c.moveNames, data.moveId),
                                                    data.count));
    PromptAgent(c, recorded, req, env)
  }

  /** `process_event`: the record is kept for the helpers, then the event type picks the
      branch; a badge is sent as it is, and other event types only log. */
  function Process(c: Config, s: State, data: Telemetry, env: Env): (State, Option<Dispatch.Step<Request>>) {
    var s0 := s.(current := Some(data));
    if data.eventType == "battle_start" then (BattleStart(c, s0, data, env), None)
    else if data.eventType == "battle_end" then
      var (t, step) := BattleEnd(c, s0, data, env);
      (t, Some(step))
    else if data.eventType == "exploration_summary" then Explore(c, s0, data, env)
    else if data.eventType == "badge_obtained" then
      var (t, step) := PromptAgent(c, s0, Request(BADGE_OBTAINED, StateContext(data)), env);
      (t, Some(step))
    else if data.eventType == "pokemon_caught" then
      var (t, step) := CaughtEvent(c, s0, data, env);
      (t, Some(step))
    else if data.eventType == "move_mastery" then
      var (t, step) := MasteryEvent(c, s0, data, env);
      (t, Some(step))
    else (s0, None)
  }

  /** The event types `process_event` sends on. */
  predicate Sends(eventType: string) {
    eventType in {"battle_end", "exploration_summary", "badge_obtained", "pokemon_caught", "move_mastery"}
  }

  /** Every event keeps the invariant. */
  lemma ProcessKeepsInvariant(c: Config, s: State, data: Telemetry, env: Env)
    requires Invariant(c, s)
    ensures Invariant(c, Process(c, s, data, env).0)
  {
    var s0 := s.(current := Some(data));
    assert Invariant(c, s0);
    if data.eventType == "battle_end" {
      var (recorded, req) := BattleEndRecorded(c, s0, data, env);
      assert Invariant(c, recorded);
      PromptAgentKeepsInvariant(c, recorded, req, env);
    } else if data.eventType == "exploration_summary" {
      match Summary(EmeraldParts(data), EmeraldSeparator)
      case None =>
      case Some(summary) =>
        PromptAgentKeepsInvariant(c, s0, Request(EXPLORATION_SUMMARY, ExplorationContext(data, summary, None)), env);
    } else if data.eventType == "badge_obtained" {
      PromptAgentKeepsInvariant(c, s0, Request(BADGE_OBTAINED, StateContext(data)), env);
    } else if data.eventType == "pokemon_caught" {
      var counted := s0.(stats := s0.stats.(pokemonCaught := s0.stats.pokemonCaught + 1));
      assert Invariant(c, counted);
      PromptAgentKeepsInvariant(c, counted, Request(POKEMON_CAUGHT, CaughtContext(data, data.species)), env);
    } else if data.eventType == "move_mastery" {
      var recorded := s0.(moveUsage := s0.moveUsage[data.moveId := data.count]);
      assert Invariant(c, recorded);
      var req := Request(MOVE_MASTERY, MasteryContext(data, data.moveId, MasteryMoveName(c.moveNames, data.moveId),
                                                      data.count));
      PromptAgentKeepsInvariant(c, recorded, req, env);
    }
  }

  /** Only `run_agent` touches the reward bookkeeping and the session history; an event
      type that is not sent on changes nothing but the latest record and, for
      battle_start, the tracker. */
  lemma ProcessLeavesResponses(c: Config, s: State, data: Telemetry, env: Env)
    ensures var (t, step) := Process(c, s, data, env);
      && t.rewards == s.rewards && t.history == s.history && t.current == Some(data)
      && (Sends(data.eventType) && data.eventType != "exploration_summary" ==> step.Some?)
      && (!Sends(data.eventType) ==> step.None? && t == s.(current := Some(data), tracker := t.tracker))
      && (!Sends(data.eventType) && data.eventType != "battle_start" ==> t == s.(current := Some(data)))
  {
    var s0 := s.(current := Some(data));
    if data.eventType == "battle_end" {
      var (recorded, req) := BattleEndRecorded(c, s0, data, env);
      assert recorded.rewards == s.rewards && recorded.history == s.history;
    } else if data.eventType == "exploration_summary" {
    } else if data.eventType == "pokemon_caught" {
    } else if data.eventType == "move_mastery" {
    }
  }

  /** Single flight: while a dispatch is in flight, no event starts another one. */
  lemma ProcessSingleFlight(c: Config, s: State, data: Telemetry, env: Env)
    requires s.busy
    ensures var (t, step) := Process(c, s, data, env);
      t.busy && (step.None? || !step.value.Started?) && t.inFlight == s.inFlight
  {
  }

  /** A badge at any threshold up to 1 is always dispatched: started when idle, queued
      when busy. */
  lemma BadgeAlwaysSent(c: Config, s: State, data: Telemetry, env: Env)
    requires data.eventType == "badge_obtained" && c.threshold <= 1.0
    ensures var (t, step) := Process(c, s, data, env);
      && (!s.busy ==> step == Some(Dispatch.Started(Request(BADGE_OBTAINED, StateContext(data)))))
      && (s.busy ==> step == Some(Dispatch.Queued) && t.pending == s.pending + [Request(BADGE_OBTAINED, StateContext(data))])
  {
    BadgeAlwaysAdmitted(StateContext(data), c.threshold);
  }

  // ---------------------------------------------------------------------------
  // The daemon

  /** The daemon. Its attributes are fields; the running totals (`battles_won`,
      `pokemon_caught`, `close_calls`), the reward bookkeeping (`reward_history`,
      `ev_drought_count`, `session_visible_rewards`) and the battle tracker
      (`battle_buffer`, `in_battle`, `battle_start_time`, `battle_start_hp`,
      `battle_start_levels`, `trainer_encounters`, `current_enemy`) are each one field
      holding a record of them. */
  class EmeraldGM {
    const speciesNames: map<int, string>
    const moveNames: map<int, string>
    const socketHost: string
    const socketPort: int
    const sessionPersistent: bool
    const sessionStart: real
    const threshold: real

    var agentBusy: bool
    var pendingEvents: seq<Request>
    var skippedEvents: seq<SkippedEntry>
    var inFlight: Option<InFlight>
    var currentState: Option<Telemetry>
    var moveUsage: map<int, int>
    var stats: Stats
    var rewards: RewardState
    var battleHistory: seq<BattleRecord>
    var tracker: Tracker
    var sessionHistory: seq<HistoryEntry>

    /** The settings, as a `Config`. */
    function Cfg(): Config {
      Config(speciesNames, moveNames, socketHost, socketPort, sessionPersistent, sessionStart, threshold)
    }

    /** The fields, as a `State`. */
    function View(): State
      reads this
    {
      State(agentBusy, pendingEvents, skippedEvents, inFlight, currentState, moveUsage, stats, rewards,
            battleHistory, tracker, sessionHistory)
    }

    ghost predicate Valid()
      reads this
    {
      Invariant(Cfg(), View())
    }

    constructor(speciesNames: map<int, string>, moveNames: map<int, string>, socketHost: string, socketPort: int,
                sessionPersistent: bool, savedHistory: Option<seq<HistoryEntry>>, sessionStart: real, threshold: real)
      ensures Cfg() == Config(speciesNames, moveNames, socketHost, socketPort, sessionPersistent, sessionStart, threshold)
      ensures View() == Initial(Cfg(), savedHistory)
      ensures Valid()
    {
      this.speciesNames := speciesNames;
      this.moveNames := moveNames;
      this.socketHost := socketHost;
      this.socketPort := socketPort;
      this.sessionPersistent := sessionPersistent;
      this.sessionStart := sessionStart;
      this.threshold := threshold;
      agentBusy := false;
      pendingEvents := [];
      skippedEvents := [];
      inFlight := None;
      currentState := None;
      moveUsage := map[];
      stats := Stats(0, 0, 0);
      rewards := InitialRewards;
      battleHistory := [];
      tracker := Tracker([], false, None, map[], map[], map[], "Unknown");
      sessionHistory := if sessionPersistent then savedHistory.GetOr([]) else [];
      new;
      InitialInvariant(Cfg(), savedHistory);
    }

    /** `detect_trainer_rematch`. */
    method DetectTrainerRematch(species: int, level: int, now: real) returns (isRematch: bool)
      modifies this`tracker
      ensures (isRematch, tracker.encounters) == Detect(old(tracker.encounters), species, level, now)
      ensures tracker == old(tracker).(encounters := tracker.encounters)
    {
      var key := (species, level);
      var times := Encounters(tracker.encounters, key);
      isRematch := |Recent(times, now)| > 0;
      tracker := tracker.(encounters := tracker.encounters[key := PushCapped(times, now, KeepPerKey)]);
    }

    /** What `build_prompt` reads when the dispatch starts, after which the skipped
        events are cleared. */
    method CapturePrompt(r: Request, env: Env) returns (i: PromptInputs)
      modifies this`skippedEvents
      ensures i == Inputs(Cfg(), old(View()), r, env)
      ensures skippedEvents == []
    {
      var arcs := ReadPendingArcs(env.notes);
      i := PromptInputs(speciesNames, moveNames, r.eventType, r.ctx, SessionMinutes(env.now, sessionStart),
                        stats, rewards, battleHistory, skippedEvents, sessionPersistent, sessionHistory, arcs);
      if skippedEvents != [] {
        skippedEvents := [];
      }
    }

    /** `build_prompt`: the prompt the dispatch in flight sends. */
    method BuildPrompt() returns (prompt: string)
      requires inFlight.Some?
      ensures prompt == EmeraldPrompt(inFlight.value.inputs)
    {
      prompt := BuildEmeraldPrompt(inFlight.value.inputs);
    }

    /** `prompt_agent_async` (with the start of `run_agent` when the dispatch starts). */
    method PromptAgentAsync(r: Request, env: Env) returns (step: Dispatch.Step<Request>)
      modifies this`agentBusy, this`pendingEvents, this`skippedEvents, this`inFlight
      ensures (View(), step) == PromptAgent(Cfg(), old(View()), r, env)
      ensures old(Valid()) ==> Valid()
    {
      if Valid() {
        PromptAgentKeepsInvariant(Cfg(), View(), r, env);
      }
      var uncertainty := ScoreEventUncertainty(r.eventType, r.ctx);
      if uncertainty < threshold {
        skippedEvents := skippedEvents + [SkipEntry(r, env)];
        if |skippedEvents| > MaxSkipped {
          skippedEvents := skippedEvents[|skippedEvents| - MaxSkipped..];
        }
        return Dispatch.Skipped(r);
      }
      if agentBusy {
        pendingEvents := pendingEvents + [r];
        return Dispatch.Queued;
      }
      agentBusy := true;
      var inputs := CapturePrompt(r, env);
      inFlight := Some(InFlight(r, inputs));
      return Dispatch.Started(r);
    }

    /** `_add_to_session_history`: the interaction is kept in persistent mode only. */
    method AddToSessionHistory(eventType: string, response: string, env: Env)
      modifies this`sessionHistory
      ensures sessionHistory == old(sessionHistory)
                + (if sessionPersistent then [HistoryEntry(env.stamp, eventType, response)] else [])
    {
      if sessionPersistent {
        sessionHistory := sessionHistory + [HistoryEntry(env.stamp, eventType, response)];
      }
    }

    /** The reward bookkeeping of `run_agent`. */
    method BookReward(reward: Reward)
      modifies this`rewards
      ensures rewards == Record(old(rewards), reward)
    {
      var labels := rewards.history + [reward];
      if |labels| > MaxRewardHistory {
        labels := labels[|labels| - MaxRewardHistory..];
      }
      if reward == Visible {
        rewards := RewardState(labels, 0, rewards.visible + 1);
      } else {
        rewards := RewardState(labels, rewards.drought + 1, rewards.visible);
      }
    }

    /** What `run_agent` does with the backend's answer. */
    method HandleResponse(response: string, env: Env) returns (commands: seq<string>)
      requires inFlight.Some?
      modifies this`rewards, this`sessionHistory
      ensures (View(), commands) == Respond(Cfg(), old(View()), response, env)
    {
      ghost var s0 := View();
      commands := [];
      if response != [] {
        AddToSessionHistory(inFlight.value.req.eventType, response, env);
        var calls, action := ReadResponse(response, EmeraldLineLimit, true);
        var p := Parsed(calls, action);
        BookReward(Classify(ClassifyTarget(p)));
        commands := Commands(p, socketHost, socketPort);
        assert View() == s0.(rewards := rewards, history := sessionHistory);
        RespondNonEmpty(Cfg(), s0, response, env);
      }
    }

    /** The end of `run_agent`. */
    method FinishAgent(response: string, env: Env) returns (commands: seq<string>, next: Dispatch.Step<Request>)
      requires Valid() && inFlight.Some?
      modifies this`agentBusy, this`pendingEvents, this`skippedEvents, this`inFlight, this`rewards, this`sessionHistory
      ensures (View(), commands, next) == Finish(Cfg(), old(View()), response, env)
      ensures Valid()
    {
      FinishKeepsInvariant(Cfg(), View(), response, env);
      commands := HandleResponse(response, env);
      agentBusy := false;
      inFlight := None;
      next := Dispatch.Idle;
      if pendingEvents != [] {
        var head := pendingEvents[0];
        pendingEvents := pendingEvents[1..];
        next := PromptAgentAsync(head, env);
      }
    }

    /** The battle_start branch. */
    method OnBattleStart(data: Telemetry, env: Env)
      modifies this`tracker
      ensures View() == BattleStart(Cfg(), old(View()), data, env)
    {
      var isRematch := false;
      if data.isTrainer {
        isRematch := DetectTrainerRematch(data.enemy.species, data.enemy.level.GetOr(0), env.now);
      }
      var battleType := BattleKind(data.isTrainer, data.isDouble, data.isSafari, isRematch);
      var enemy := EnemyLabel(speciesNames, data.enemy);
      tracker := tracker.(inBattle := true, startTime := Some(env.now), enemy := enemy);
      tracker := tracker.(buffer := [Start(battleType, enemy, [], data.isTrainer, data.isDouble, data.isSafari, isRematch)]);
      tracker := tracker.(startHp := HpBaseline(data.party), startLevels := LevelBaseline(data.party));
    }

    /** The battle counters: a win is counted, and a close one also as a close call. */
    method CountBattle(outcome: int, party: seq<Mon>)
      modifies this`stats
      ensures stats == old(stats).(battlesWon := old(stats.battlesWon) + (if outcome == OUTCOME_WON then 1 else 0),
                                   closeCalls := old(stats.closeCalls) + (if WasClose(party) && outcome == OUTCOME_WON then 1 else 0))
    {
      if outcome == OUTCOME_WON {
        stats := stats.(battlesWon := stats.battlesWon + 1);
      }
      if WasClose(party) && outcome == OUTCOME_WON {
        stats := stats.(closeCalls := stats.closeCalls + 1);
      }
    }

    /** `battle_history.append(...)`, dropping the oldest beyond ten. */
    method PushBattleRecord(record: BattleRecord)
      modifies this`battleHistory
      ensures battleHistory == AppendPopOldest(old(battleHistory), record, MaxBattleHistory)
    {
      battleHistory := battleHistory + [record];
      if |battleHistory| > MaxBattleHistory {
        battleHistory := battleHistory[1..];
      }
    }

    /** The bookkeeping of the battle_end branch, and the summary it sends. The buffer is
        emptied before the summary is handed on rather than after: `build_prompt` reads
        neither the buffer nor the flag, and the summary holds its own copy. */
    method RecordBattleEnd(data: Telemetry, env: Env) returns (req: Request)
      modifies this`stats, this`battleHistory, this`tracker
      ensures (View(), req) == BattleEndRecorded(Cfg(), old(View()), data, env)
    {
      var (outcome, outcomeName, end) := EndOf(speciesNames, data, tracker.startHp, tracker.startLevels,
                                               tracker.startTime, env.now);
      req := Request(BATTLE_SUMMARY, BattleContext(data, tracker.buffer + [end], outcomeName));
      CountBattle(outcome, data.party);
      PushBattleRecord(BattleRecord(tracker.enemy, outcomeName, HpPercent(data.party), WasClose(data.party)));
      tracker := tracker.(buffer := [], inBattle := false);
    }

    /** The battle_end branch. */
    method OnBattleEnd(data: Telemetry, env: Env) returns (step: Dispatch.Step<Request>)
      modifies this`stats, this`battleHistory, this`tracker, this`agentBusy, this`pendingEvents, this`skippedEvents,
               this`inFlight
      ensures (View(), step) == BattleEnd(Cfg(), old(View()), data, env)
    {
      var req := RecordBattleEnd(data, env);
      step := PromptAgentAsync(req, env);
    }

    /** The exploration_summary branch. */
    method OnExplorationSummary(data: Telemetry, env: Env) returns (step: Option<Dispatch.Step<Request>>)
      modifies this`agentBusy, this`pendingEvents, this`skippedEvents, this`inFlight
      ensures (View(), step) == Explore(Cfg(), old(View()), data, env)
    {
      var parts := EmeraldParts(data);
      step := None;
      if parts != [] {
        var summary := Join(parts, EmeraldSeparator);
        var s := PromptAgentAsync(Request(EXPLORATION_SUMMARY, ExplorationContext(data, summary, None)), env);
        step := Some(s);
      }
    }

    /** The pokemon_caught branch. */
    method OnPokemonCaught(data: Telemetry, env: Env) returns (step: Dispatch.Step<Request>)
      modifies this`stats, this`agentBusy, this`pendingEvents, this`skippedEvents, this`inFlight
      ensures (View(), step) == CaughtEvent(Cfg(), old(View()), data, env)
    {
      stats := stats.(pokemonCaught := stats.pokemonCaught + 1);
      step := PromptAgentAsync(Request(POKEMON_CAUGHT, CaughtContext(data, data.species)), env);
    }

    /** The move_mastery branch. */
    method OnMoveMastery(data: Telemetry, env: Env) returns (step: Dispatch.Step<Request>)
      modifies this`moveUsage, this`agentBusy, this`pendingEvents, this`skippedEvents, this`inFlight
      ensures (View(), step) == MasteryEvent(Cfg(), old(View()), data, env)
    {
      moveUsage := moveUsage[data.moveId := data.count];
      var name := MasteryMoveName(moveNames, data.moveId);
      step := PromptAgentAsync(Request(MOVE_MASTERY, MasteryContext(data, data.moveId, name, data.count)), env);
    }

    /** `process_event`. */
    method ProcessEvent(data: Telemetry, env: Env) returns (step: Option<Dispatch.Step<Request>>)
      requires Valid()
      modifies this
      ensures (View(), step) == Process(Cfg(), old(View()), data, env)
      ensures Valid()
    {
      ProcessKeepsInvariant(Cfg(), View(), data, env);
      currentState := Some(data);
      step := None;
      if data.eventType == "battle_start" {
        OnBattleStart(data, env);
      } else if data.eventType == "battle_end" {
        var s := OnBattleEnd(data, env);
        step := Some(s);
      } else if data.eventType == "exploration_summary" {
        step := OnExplorationSummary(data, env);
      } else if data.eventType == "badge_obtained" {
        var s := PromptAgentAsync(Request(BADGE_OBTAINED, StateContext(data)), env);
        step := Some(s);
      } else if data.eventType == "pokemon_caught" {
        var s := OnPokemonCaught(data, env);
        step := Some(s);
      } else if data.eventType == "move_mastery" {
        var s := OnMoveMastery(data, env);
        step := Some(s);
      }
    }
  }
}
