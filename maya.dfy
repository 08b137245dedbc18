/** The state and event pipeline of maya_gm.py's `MayaGM`: `process_event` updates the
    battle tracker and hands events to `prompt_agent_async`, which queues an event that
    arrives while a dispatch is in flight and otherwise starts one; `run_agent` builds
    the prompt (captured here when the dispatch starts), reads the backend's answer,
    runs its ACTION command, and pops the next waiting event. Unlike agentic_emerald.py
    there is no uncertainty gate, no reward bookkeeping, no session history and no
    rematch ledger, and only some battle endings are sent.

    The model is sequential, as for agentic_emerald.py: the clock and the backend's
    answer are parameters. Each operation is a function on the daemon's `State`, with
    its properties proved as lemmas; the methods of `MayaGM` update the fields step by
    step as the source does and are proved to agree with those functions. */
module Maya {
  import opened Optional
  import opened Text
  import opened Events
  import opened Party
  import opened Battle
  import opened Parser
  import opened Rewards
  import opened Prompt
  import opened Exploration
  import Dispatch

  /** The settings fixed when the daemon starts. */
  datatype Config = Config(speciesNames: map<int, string>, moveNames: map<int, string>, sessionStart: real)

  /** The dispatch in flight: its event and what `build_prompt` read for it. */
  datatype InFlight = InFlight(req: Request, inputs: PromptInputs)

  /** The battle tracker: what battle_start sets and battle_end reads. `current_enemy`
      does not exist before the first battle_start; battle_end reads it with the default
      "Unknown". */
  datatype Tracker = Tracker(buffer: seq<BufferRecord>, inBattle: bool, startTime: Option<real>,
                             startHp: map<int, int>, startLevels: map<int, int>, enemy: string)

  /** Everything the daemon updates: the dispatch (`agent_busy`, `pending_events`, the
      dispatch in flight), the latest record, the move counts, the running totals, the
      battle history and the battle tracker. */
  datatype State = State(busy: bool, pending: seq<Request>, inFlight: Option<InFlight>,
                         current: Option<Telemetry>, moveUsage: map<int, int>, stats: Stats,
                         battles: seq<BattleRecord>, tracker: Tracker)

  /** A fresh daemon. */
  function Initial(): State {
    State(false, [], None, None, map[], Stats(0, 0, 0), [], Tracker([], false, None, map[], map[], "Unknown"))
  }

  function QueueOf(s: State): Dispatch.Queue<Request> {
    Dispatch.Queue(s.busy, s.pending)
  }

  /** maya_gm.py sends every event it is handed. */
  function Admit(r: Request): bool { true }

  /** What holds between calls: a dispatch is in flight exactly while busy, nothing waits
      while idle, and the battle history stays within ten. */
  ghost predicate Invariant(s: State) {
    && (s.busy <==> s.inFlight.Some?)
    && Dispatch.Valid(QueueOf(s), Admit)
    && |s.battles| <= MaxBattleHistory
  }

  /** A fresh daemon is idle, with nothing waiting. */
  lemma InitialInvariant()
    ensures Invariant(Initial())
    ensures !Initial().busy && Initial().pending == [] && Initial().stats == Stats(0, 0, 0)
  {
  }

  // ---------------------------------------------------------------------------
  // prompt_agent_async

  /** What `build_prompt` reads for a request: the tables, the event, the minutes since
      the session started, the totals and the battle history. The bookkeeping only
      agentic_emerald.py keeps is empty. */
  function Inputs(c: Config, s: State, r: Request, now: real): PromptInputs {
    PromptInputs(c.speciesNames, c.moveNames, r.eventType, r.ctx, SessionMinutes(now, c.sessionStart),
                 s.stats, InitialRewards, s.battles, [], false, [], [])
  }

  /** `prompt_agent_async`: an event that arrives while busy waits at the end of
      `pending_events`; any other starts a dispatch, which captures the prompt's inputs. */
  function PromptAgent(c: Config, s: State, r: Request, now: real): (t: (State, Dispatch.Step<Request>))
    ensures (QueueOf(t.0), t.1) == Dispatch.Arrive(QueueOf(s), r, Admit)
  {
    if s.busy then (s.(pending := s.pending + [r]), Dispatch.Queued)
    else (s.(busy := true, inFlight := Some(InFlight(r, Inputs(c, s, r, now)))), Dispatch.Started(r))
  }

  /** No event is ever skipped: it is queued, with nothing else changed, while busy, and
      it starts a dispatch whose prompt opens with its event line while idle. */
  lemma NothingSkipped(c: Config, s: State, r: Request, now: real)
    ensures var (t, step) := PromptAgent(c, s, r, now);
      && (s.busy ==> step == Dispatch.Queued && t == s.(pending := s.pending + [r]))
      && (!s.busy ==> step == Dispatch.Started(r) && t.busy && t.pending == s.pending && t.inFlight.Some?
                      && t.inFlight.value.req == r
                      && StartsWith(MayaPrompt(t.inFlight.value.inputs), "EVENT: " + r.eventType + "\n"))
  {
    if !s.busy {
      PromptsOpenWithEvent(Inputs(c, s, r, now));
    }
  }

  lemma PromptAgentKeepsInvariant(c: Config, s: State, r: Request, now: real)
    requires Invariant(s)
    ensures Invariant(PromptAgent(c, s, r, now).0)
  {
    Dispatch.ArriveValid(QueueOf(s), r, Admit);
  }

  // ---------------------------------------------------------------------------
  // The end of run_agent

  /** What `run_agent` runs for the response file's contents (`response` is empty when the
      backend failed, timed out or wrote nothing): the file is stripped, and the last
      ACTION command among its first ten lines runs, unless it is empty or "none", with
      the `nc` timeout added. */
  function Commands(response: string): seq<string> {
    if Strip(response) == [] then []
    else match MayaShellCommand(ParseResponse(Strip(response), MayaLineLimit, false))
      case Some(cmd) => [cmd]
      case None => []
  }

  /** At most one command is run: exactly when the response's last ACTION line among its
      first ten is neither empty nor "none"; a command that pipes into `nc` carries a
      timeout. */
  lemma CommandsFromAction(response: string)
    ensures var p := ParseResponse(Strip(response), MayaLineLimit, false);
      && |Commands(response)| <= 1
      && (|Commands(response)| == 1 <==>
            Strip(response) != [] && p.action.Some? && p.action.value != [] && Lower(p.action.value) != "none")
      && (|Commands(response)| == 1 ==> Commands(response)[0] == MayaShellCommand(p).value)
      && (forall k :: 0 <= k < |Commands(response)| && Contains(Commands(response)[k], "| nc ") ==>
            Contains(Commands(response)[k], " -w ") || Contains(Commands(response)[k], " -q "))
  {
  }

  /** The whole end of `run_agent`: the command is run, and the `finally` block drops the
      flag and hands the oldest waiting event to `prompt_agent_async`. */
  function Finish(c: Config, s: State, response: string, now: real): (State, seq<string>, Dispatch.Step<Request>)
    requires s.inFlight.Some?
  {
    var idle := s.(busy := false, inFlight := None);
    if idle.pending == [] then (idle, Commands(response), Dispatch.Idle)
    else
      var (t, next) := PromptAgent(c, idle.(pending := idle.pending[1..]), idle.pending[0], now);
      (t, Commands(response), next)
  }

  /** Completion keeps the invariant and moves the queue as `Dispatch.Complete` says: the
      oldest waiting event starts, and nothing but the dispatch changes. */
  lemma FinishKeepsInvariant(c: Config, s: State, response: string, now: real)
    requires Invariant(s) && s.busy
    ensures var (t, commands, next) := Finish(c, s, response, now);
      && Invariant(t)
      && commands == Commands(response)
      && (QueueOf(t), next) == Dispatch.Complete(QueueOf(s), Admit)
      && (s.pending == [] ==> next == Dispatch.Idle && !t.busy && t.inFlight.None?)
      && (s.pending != [] ==> next == Dispatch.Started(s.pending[0]) && t.inFlight.Some?
                              && t.inFlight.value.req == s.pending[0])
      && t.stats == s.stats && t.battles == s.battles && t.tracker == s.tracker && t.moveUsage == s.moveUsage
  {
    Dispatch.CompleteStartsOldest(QueueOf(s), Admit);
  }

  // ---------------------------------------------------------------------------
  // process_event

  /** One enemy team entry: "<name> L<level>". */
  function EnemyEntry(names: map<int, string>, m: Mon): string {
    SpeciesName(names, m.species) + " L" + IntToString(m.level)
  }

  /** The enemy team as `EnemyEntry` strings, in order. */
  function EnemyTeam(names: map<int, string>, party: seq<Mon>): (r: seq<string>)
    ensures |r| == |party|
  {
    seq(|party|, k requires 0 <= k < |party| => EnemyEntry(names, party[k]))
  }

  /** The battle_start branch: the buffer restarts with the START record (kind "TRAINER"
      or "WILD", the enemy and the enemy team; maya_gm.py's record has no flags, so they
      are all false), and HP and levels are recorded per slot. */
  function BattleStart(c: Config, s: State, data: Telemetry, now: real): State {
    var enemy := EnemyLabel(c.speciesNames, data.enemy);
    var start := Start(if data.isTrainer then "TRAINER" else "WILD", enemy, EnemyTeam(c.speciesNames, data.enemyParty),
                       false, false, false, false);
    s.(tracker := Tracker([start], true, Some(now), HpBaseline(data.party), LevelBaseline(data.party), enemy))
  }

  /** battle_start only touches the tracker: whatever the buffer held is replaced by one
      START record naming the enemy, and the baselines hold each slot's HP and level. */
  lemma BattleStartResets(c: Config, s: State, data: Telemetry, now: real)
    ensures var t := BattleStart(c, s, data, now);
      && t == s.(tracker := t.tracker)
      && |t.tracker.buffer| == 1 && t.tracker.buffer[0].Start? && t.tracker.inBattle
      && t.tracker.buffer[0].kind == (if data.isTrainer then "TRAINER" else "WILD")
      && t.tracker.buffer[0].enemy == t.tracker.enemy == EnemyLabel(c.speciesNames, data.enemy)
      && t.tracker.buffer[0].enemyParty == seq(|data.enemyParty|, k requires 0 <= k < |data.enemyParty| => EnemyEntry(c.speciesNames, data.enemyParty[k]))
      && (forall i :: i in t.tracker.startHp <==> 0 <= i < |data.party|)
      && (forall i :: 0 <= i < |data.party| ==> t.tracker.startHp[i] == data.party[i].currentHp)
      && (forall i :: 0 <= i < |data.party| ==> t.tracker.startLevels[i] == data.party[i].level)
  {
  }

  /** The outcomes battle_end sends on: unknown, won, lost, fled and caught. */
  predicate Sent(outcome: int) {
    outcome in {OUTCOME_UNKNOWN, OUTCOME_WON, OUTCOME_LOST, OUTCOME_FLED, OUTCOME_CAUGHT}
  }

  /** `party[-1].get('species', 0) if party else 0`: the species taken to be the
      capture. */
  function CaughtSpecies(party: seq<Mon>): int {
    if party == [] then 0 else party[|party| - 1].species
  }

  /** The outcome after the level-up override: a level above its baseline (a slot without
      one never counts) turns an unknown, lost or fled outcome into a win. */
  function OutcomeOf(names: map<int, string>, data: Telemetry, startLevels: map<int, int>): (int, string) {
    OverrideOutcome(data.outcome, data.outcomeName, |LevelUps(names, data.party, startLevels)| > 0)
  }

  /** The totals after a battle ending: a close win is a close call; among the outcomes
      sent on, a win is counted as one and a capture as one. */
  function Counted(st: Stats, outcome: int, wasClose: bool): Stats {
    var st1 := st.(closeCalls := st.closeCalls + (if wasClose && outcome == OUTCOME_WON then 1 else 0));
    if !Sent(outcome) then st1
    else st1.(battlesWon := st1.battlesWon + (if outcome == OUTCOME_WON then 1 else 0),
              pokemonCaught := st1.pokemonCaught + (if outcome == OUTCOME_CAUGHT then 1 else 0))
  }

  /** The bookkeeping of the battle_end branch, whether or not a battle was started: the
      END record joins the buffer, the battle joins the history of ten and the totals are
      counted; for an outcome that is sent on, a capture is recorded in the buffer and the
      summary is returned; the tracker's buffer is emptied. */
  function BattleEndRecorded(c: Config, s: State, data: Telemetry, now: real): (State, Option<Request>) {
    var t := s.tracker;
    var (outcome, name) := OutcomeOf(c.speciesNames, data, t.startLevels);
    var end := EndRecord(c.speciesNames, data.party, t.startHp, name, Duration(now, t.startTime));
    var record := BattleRecord(t.enemy, name, HpPercent(data.party), WasClose(data.party));
    var recorded := s.(battles := AppendPopOldest(s.battles, record, MaxBattleHistory),
                       stats := Counted(s.stats, outcome, WasClose(data.party)),
                       tracker := t.(buffer := [], inBattle := false));
    if !Sent(outcome) then (recorded, None)
    else
      var buffer := t.buffer + [end];
      var summary := if outcome == OUTCOME_CAUGHT then buffer + [Caught(SpeciesName(c.speciesNames, CaughtSpecies(data.party)))]
                     else buffer;
      (recorded, Some(Request(BATTLE_SUMMARY, BattleContext(data, summary, name))))
  }

  /** The battle_end branch: the bookkeeping, then the summary, if any, to
      `prompt_agent_async`. */
  function BattleEnd(c: Config, s: State, data: Telemetry, now: real): (State, Option<Dispatch.Step<Request>>) {
    var (recorded, req) := BattleEndRecorded(c, s, data, now);
    match req
    case None => (recorded, None)
    case Some(r) =>
      var (t, step) := PromptAgent(c, recorded, r, now);
      (t, Some(step))
  }

  /** A battle ending is summarised exactly when its outcome, after the override, is
      sent on; the summary holds the tracked buffer, the END record and, for a capture,
      a CAUGHT record naming the last party member's species. Afterwards the buffer is
      empty. */
  lemma BattleEndSummarised(c: Config, s: State, data: Telemetry, now: real)
    ensures var (t, req) := BattleEndRecorded(c, s, data, now);
      var outcome := OutcomeOf(c.speciesNames, data, s.tracker.startLevels).0;
      var n := |s.tracker.buffer|;
      && (req.Some? <==> Sent(outcome))
      && (req.Some? ==>
            && req.value.eventType == BATTLE_SUMMARY
            && |req.value.ctx.buffer| == n + (if outcome == OUTCOME_CAUGHT then 2 else 1)
            && req.value.ctx.buffer[..n] == s.tracker.buffer
            && req.value.ctx.buffer[n].End?
            && (outcome == OUTCOME_CAUGHT ==>
                  req.value.ctx.buffer[n + 1] == Caught(SpeciesName(c.speciesNames, CaughtSpecies(data.party)))))
      && t.tracker.buffer == [] && !t.tracker.inBattle
      && t.busy == s.busy && t.pending == s.pending && t.inFlight == s.inFlight
  {
    var (t, req) := BattleEndRecorded(c, s, data, now);
    if req.Some? {
      assert req.value.ctx.buffer[..|s.tracker.buffer|] == s.tracker.buffer;
    }
  }

  /** The counters: a battle is counted as won exactly when its outcome, after the
      override, is a win, and as a close call exactly when it is also close; a capture
      is counted exactly when the outcome is 7. In particular a level-up turns an
      unknown, lost or fled battle into a counted win. */
  lemma BattleEndCounts(c: Config, s: State, data: Telemetry, now: real)
    ensures var t := BattleEndRecorded(c, s, data, now).0;
      var rose := |LevelUps(c.speciesNames, data.party, s.tracker.startLevels)| > 0;
      var outcome := OutcomeOf(c.speciesNames, data, s.tracker.startLevels).0;
      && t.stats.battlesWon == s.stats.battlesWon + (if outcome == OUTCOME_WON then 1 else 0)
      && t.stats.pokemonCaught == s.stats.pokemonCaught + (if outcome == OUTCOME_CAUGHT then 1 else 0)
      && t.stats.closeCalls == s.stats.closeCalls + (if outcome == OUTCOME_WON && WasClose(data.party) then 1 else 0)
      && (rose && data.outcome in {OUTCOME_UNKNOWN, OUTCOME_LOST, OUTCOME_FLED} ==>
            t.stats.battlesWon == s.stats.battlesWon + 1)
  {
  }

  /** A battle with an outcome that is not sent on (say, 3) is still recorded: it joins
      the history and clears the buffer, but nothing is dispatched and no total moves. */
  lemma UnsentEndRecorded(c: Config, s: State, data: Telemetry, now: real)
    requires data.outcome == 3
    ensures var (t, req) := BattleEndRecorded(c, s, data, now);
      && req.None? && t.stats == s.stats && t.tracker.buffer == []
      && |t.battles| >= 1 && t.battles[|t.battles| - 1].outcome == data.outcomeName
      && t.battles[|t.battles| - 1].enemy == s.tracker.enemy
  {
  }

  /** The battle joins the history as its newest entry, and the history stays within ten. */
  lemma BattleEndHistory(c: Config, s: State, data: Telemetry, now: real)
    requires |s.battles| <= MaxBattleHistory
    ensures var t := BattleEndRecorded(c, s, data, now).0;
      && |t.battles| <= MaxBattleHistory
      && t.battles[|t.battles| - 1].enemy == s.tracker.enemy
      && t.battles[|t.battles| - 1].wasClose == WasClose(data.party)
      && (|s.battles| < MaxBattleHistory ==> t.battles[..|s.battles|] == s.battles)
  {
    var t := BattleEndRecorded(c, s, data, now).0;
    if |s.battles| < MaxBattleHistory {
      assert t.battles[..|s.battles|] == s.battles;
    }
  }

  /** The exploration_summary branch: with anything to report, the pieces are joined
      into the summary and sent with the record's trigger; otherwise nothing happens. */
  function Explore(c: Config, s: State, data: Telemetry, now: real): (State, Option<Dispatch.Step<Request>>) {
    match Summary(MayaParts(c.speciesNames, data), MayaSeparator)
    case None => (s, None)
    case Some(summary) =>
      var req := Request(EXPLORATION_SUMMARY, ExplorationContext(data, summary, Some(data.trigger)));
      var (t, step) := PromptAgent(c, s, req, now);
      (t, Some(step))
  }

  /** The move_mastery branch: the count is recorded per move and the event sent with
      the move's name. */
  function MasteryEvent(c: Config, s: State, data: Telemetry, now: real): (State, Dispatch.Step<Request>) {
    var recorded := s.(moveUsage := s.moveUsage[data.moveId := data.count]);
    var req := Request(MOVE_MASTERY, MasteryContext(data, data.moveId, MasteryMoveName(c.moveNames, data.moveId),
                                                    data.count));
    PromptAgent(c, recorded, req, now)
  }

  /** `process_event`: the record is kept for the helpers, then the event type picks the
      branch; a badge is sent as it is, and pokemon_caught and the other event types
      only log. */
  function Process(c: Config, s: State, data: Telemetry, now: real): (State, Option<Dispatch.Step<Request>>) {
    var s0 := s.(current := Some(data));
    if data.eventType == "battle_start" then (BattleStart(c, s0, data, now), None)
    else if data.eventType == "battle_end" then BattleEnd(c, s0, data, now)
    else if data.eventType == "exploration_summary" then Explore(c, s0, data, now)
    else if data.eventType == "badge_obtained" then
      var (t, step) := PromptAgent(c, s0, Request(BADGE_OBTAINED, StateContext(data)), now);
      (t, Some(step))
    else if data.eventType == "move_mastery" then
      var (t, step) := MasteryEvent(c, s0, data, now);
      (t, Some(step))
    else (s0, None)
  }

  /** Every event keeps the invariant. */
  lemma ProcessKeepsInvariant(c: Config, s: State, data: Telemetry, now: real)
    requires Invariant(s)
    ensures Invariant(Process(c, s, data, now).0)
  {
    var s0 := s.(current := Some(data));
    assert Invariant(s0);
    if data.eventType == "battle_end" {
      var (recorded, req) := BattleEndRecorded(c, s0, data, now);
      assert Invariant(recorded);
      if req.Some? {
        PromptAgentKeepsInvariant(c, recorded, req.value, now);
      }
    } else if data.eventType == "exploration_summary" {
      match Summary(MayaParts(c.speciesNames, data), MayaSeparator)
      case None =>
      case Some(summary) =>
        var req := Request(EXPLORATION_SUMMARY, ExplorationContext(data, summary, Some(data.trigger)));
        PromptAgentKeepsInvariant(c, s0, req, now);
    } else if data.eventType == "badge_obtained" {
      PromptAgentKeepsInvariant(c, s0, Request(BADGE_OBTAINED, StateContext(data)), now);
    } else if data.eventType == "move_mastery" {
      var recorded := s0.(moveUsage := s0.moveUsage[data.moveId := data.count]);
      assert Invariant(recorded);
      var req := Request(MOVE_MASTERY, MasteryContext(data, data.moveId, MasteryMoveName(c.moveNames, data.moveId),
                                                      data.count));
      PromptAgentKeepsInvariant(c, recorded, req, now);
    }
  }

  /** A capture reported outside a battle is only logged: nothing is sent and nothing but
      the latest record changes; a badge is always sent, started when idle and queued
      when busy. */
  lemma CaughtOnlyLoggedBadgeSent(c: Config, s: State, data: Telemetry, now: real)
    ensures data.eventType == "pokemon_caught" ==> Process(c, s, data, now) == (s.(current := Some(data)), None)
    ensures data.eventType == "badge_obtained" ==>
      var (t, step) := Process(c, s, data, now);
      && (!s.busy ==> step == Some(Dispatch.Started(Request(BADGE_OBTAINED, StateContext(data)))))
      && (s.busy ==> step == Some(Dispatch.Queued) && t.pending == s.pending + [Request(BADGE_OBTAINED, StateContext(data))])
  {
  }

  /** Single flight: while a dispatch is in flight, no event starts another one. */
  lemma ProcessSingleFlight(c: Config, s: State, data: Telemetry, now: real)
    requires s.busy
    ensures var (t, step) := Process(c, s, data, now);
      t.busy && (step.None? || !step.value.Started?) && t.inFlight == s.inFlight
  {
  }

  // ---------------------------------------------------------------------------
  // The daemon

  /** The daemon. Its attributes are fields; the running totals (`battles_won`,
      `pokemon_caught`, `close_calls`) and the battle tracker (`battle_buffer`,
      `in_battle`, `battle_start_time`, `battle_start_hp`, `battle_start_levels`,
      `current_enemy`) are each one field holding a record of them. */
  class MayaGM {
    const speciesNames: map<int, string>
    const moveNames: map<int, string>
    const sessionStart: real

    var agentBusy: bool
    var pendingEvents: seq<Request>
    var inFlight: Option<InFlight>
    var currentState: Option<Telemetry>
    var moveUsage: map<int, int>
    var stats: Stats
    var battleHistory: seq<BattleRecord>
    var tracker: Tracker

    /** The settings, as a `Config`. */
    function Cfg(): Config {
      Config(speciesNames, moveNames, sessionStart)
    }

    /** The fields, as a `State`. */
    function View(): State
      reads this
    {
      State(agentBusy, pendingEvents, inFlight, currentState, moveUsage, stats, battleHistory, tracker)
    }

    ghost predicate Valid()
      reads this
    {
      Invariant(View())
    }

    constructor(speciesNames: map<int, string>, moveNames: map<int, string>, sessionStart: real)
      ensures Cfg() == Config(speciesNames, moveNames, sessionStart)
      ensures View() == Initial()
      ensures Valid()
    {
      this.speciesNames := speciesNames;
      this.moveNames := moveNames;
      this.sessionStart := sessionStart;
      agentBusy := false;
      pendingEvents := [];
      inFlight := None;
      currentState := None;
      moveUsage := map[];
      stats := Stats(0, 0, 0);
      battleHistory := [];
      tracker := Tracker([], false, None, map[], map[], "Unknown");
      new;
      InitialInvariant();
    }

    /** `prompt_agent_async` (with the start of `run_agent` when the dispatch starts). */
    method PromptAgentAsync(r: Request, now: real) returns (step: Dispatch.Step<Request>)
      modifies this`agentBusy, this`pendingEvents, this`inFlight
      ensures (View(), step) == PromptAgent(Cfg(), old(View()), r, now)
      ensures old(Valid()) ==> Valid()
    {
      if Valid() {
        PromptAgentKeepsInvariant(Cfg(), View(), r, now);
      }
      if agentBusy {
        pendingEvents := pendingEvents + [r];
        return Dispatch.Queued;
      }
      agentBusy := true;
      var inputs := PromptInputs(speciesNames, moveNames, r.eventType, r.ctx, SessionMinutes(now, sessionStart),
                                 stats, InitialRewards, battleHistory, [], false, [], []);
      inFlight := Some(InFlight(r, inputs));
      return Dispatch.Started(r);
    }

    /** `build_prompt`: the prompt the dispatch in flight sends. */
    method BuildPrompt() returns (prompt: string)
      requires inFlight.Some?
      ensures prompt == MayaPrompt(inFlight.value.inputs)
      ensures StartsWith(prompt, "EVENT: " + inFlight.value.inputs.eventType + "\n")
    {
      prompt := MayaPrompt(inFlight.value.inputs);
      PromptsOpenWithEvent(inFlight.value.inputs);
    }

    /** The line loop of `run_agent` and the command it runs. */
    method HandleResponse(response: string) returns (commands: seq<string>)
      ensures commands == Commands(response)
    {
      commands := [];
      var text := Strip(response);
      if text != [] {
        var calls, action := ReadResponse(text, MayaLineLimit, false);
        var cmd := MayaShellCommand(Parsed(calls, action));
        if cmd.Some? {
          commands := [cmd.value];
        }
      }
    }

    /** The end of `run_agent`. */
    method FinishAgent(response: string, now: real) returns (commands: seq<string>, next: Dispatch.Step<Request>)
      requires Valid() && inFlight.Some?
      modifies this`agentBusy, this`pendingEvents, this`inFlight
      ensures (View(), commands, next) == Finish(Cfg(), old(View()), response, now)
      ensures Valid()
    {
      FinishKeepsInvariant(Cfg(), View(), response, now);
      commands := HandleResponse(response);
      agentBusy := false;
      inFlight := None;
      next := Dispatch.Idle;
      if pendingEvents != [] {
        var head := pendingEvents[0];
        pendingEvents := pendingEvents[1..];
        next := PromptAgentAsync(head, now);
      }
    }

    /** The battle_start branch. */
    method OnBattleStart(data: Telemetry, now: real)
      modifies this`tracker
      ensures View() == BattleStart(Cfg(), old(View()), data, now)
    {
      var enemy := EnemyLabel(speciesNames, data.enemy);
      var battleType := if data.isTrainer then "TRAINER" else "WILD";
      tracker := tracker.(enemy := enemy, inBattle := true, startTime := Some(now));
      tracker := tracker.(buffer := [Start(battleType, enemy, EnemyTeam(speciesNames, data.enemyParty),
                                           false, false, false, false)]);
      tracker := tracker.(startHp := HpBaseline(data.party), startLevels := LevelBaseline(data.party));
    }

    /** The counters of the battle_end branch, in the source's order. */
    method CountBattle(outcome: int, wasClose: bool)
      modifies this`stats
      ensures stats == Counted(old(stats), outcome, wasClose)
    {
      if wasClose && outcome == OUTCOME_WON {
        stats := stats.(closeCalls := stats.closeCalls + 1);
      }
      if Sent(outcome) {
        if outcome == OUTCOME_WON {
          stats := stats.(battlesWon := stats.battlesWon + 1);
        } else if outcome == OUTCOME_CAUGHT {
          stats := stats.(pokemonCaught := stats.pokemonCaught + 1);
        }
      }
    }

    /** The bookkeeping of the battle_end branch, and the summary it sends, if any. The
        buffer is emptied before the summary is handed on rather than after:
        `build_prompt` reads neither the buffer nor the flag, and the summary holds its
        own copy. */
    method RecordBattleEnd(data: Telemetry, now: real) returns (req: Option<Request>)
      modifies this`stats, this`battleHistory, this`tracker
      ensures (View(), req) == BattleEndRecorded(Cfg(), old(View()), data, now)
    {
      var (outcome, outcomeName) := OutcomeOf(speciesNames, data, tracker.startLevels);
      var buffer := tracker.buffer + [EndRecord(speciesNames, data.party, tracker.startHp, outcomeName,
                                                Duration(now, tracker.startTime))];
      battleHistory := AppendPopOldest(battleHistory,
                                       BattleRecord(tracker.enemy, outcomeName, HpPercent(data.party), WasClose(data.party)),
                                       MaxBattleHistory);
      CountBattle(outcome, WasClose(data.party));
      req := None;
      if Sent(outcome) {
        if outcome == OUTCOME_CAUGHT {
          buffer := buffer + [Caught(SpeciesName(speciesNames, CaughtSpecies(data.party)))];
        }
        req := Some(Request(BATTLE_SUMMARY, BattleContext(data, buffer, outcomeName)));
      }
      tracker := tracker.(inBattle := false, buffer := []);
    }

    /** The battle_end branch. */
    method OnBattleEnd(data: Telemetry, now: real) returns (step: Option<Dispatch.Step<Request>>)
      modifies this`stats, this`battleHistory, this`tracker, this`agentBusy, this`pendingEvents, this`inFlight
      ensures (View(), step) == BattleEnd(Cfg(), old(View()), data, now)
    {
      var req := RecordBattleEnd(data, now);
      step := None;
      if req.Some? {
        var s := PromptAgentAsync(req.value, now);
        step := Some(s);
      }
    }

    /** The exploration_summary branch. */
    method OnExplorationSummary(data: Telemetry, now: real) returns (step: Option<Dispatch.Step<Request>>)
      modifies this`agentBusy, this`pendingEvents, this`inFlight
      ensures (View(), step) == Explore(Cfg(), old(View()), data, now)
    {
      var parts := MayaParts(speciesNames, data);
      step := None;
      if parts != [] {
        var summary := Join(parts, MayaSeparator);
        var s := PromptAgentAsync(Request(EXPLORATION_SUMMARY, ExplorationContext(data, summary, Some(data.trigger))), now);
        step := Some(s);
      }
    }

    /** The move_mastery branch. */
    method OnMoveMastery(data: Telemetry, now: real) returns (step: Dispatch.Step<Request>)
      modifies this`moveUsage, this`agentBusy, this`pendingEvents, this`inFlight
      ensures (View(), step) == MasteryEvent(Cfg(), old(View()), data, now)
    {
      moveUsage := moveUsage[data.moveId := data.count];
      var name := MasteryMoveName(moveNames, data.moveId);
      step := PromptAgentAsync(Request(MOVE_MASTERY, MasteryContext(data, data.moveId, name, data.count)), now);
    }

    /** `process_event`. */
    method ProcessEvent(data: Telemetry, now: real) returns (step: Option<Dispatch.Step<Request>>)
      requires Valid()
      modifies this
      ensures (View(), step) == Process(Cfg(), old(View()), data, now)
      ensures Valid()
    {
      ProcessKeepsInvariant(Cfg(), View(), data, now);
      currentState := Some(data);
      step := None;
      if data.eventType == "battle_start" {
        OnBattleStart(data, now);
      } else if data.eventType == "battle_end" {
        step := OnBattleEnd(data, now);
      } else if data.eventType == "exploration_summary" {
        step := OnExplorationSummary(data, now);
      } else if data.eventType == "badge_obtained" {
        var s := PromptAgentAsync(Request(BADGE_OBTAINED, StateContext(data)), now);
        step := Some(s);
      } else if data.eventType == "move_mastery" {
        var s := OnMoveMastery(data, now);
        step := Some(s);
      }
    }
  }
}
