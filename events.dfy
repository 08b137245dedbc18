/** The records the two daemons exchange: decoded telemetry from the game, the battle
    buffer records, the context handed to a dispatch, and the bounded histories. */
module Events {
  import opened Optional

  // Event type names used by the dispatch pipeline.
  const BADGE_OBTAINED := "BADGE_OBTAINED"
  const TRAINER_REMATCH := "TRAINER_REMATCH"
  const BATTLE_SUMMARY := "BATTLE_SUMMARY"
  const EXPLORATION_SUMMARY := "EXPLORATION_SUMMARY"
  const POKEMON_CAUGHT := "POKEMON_CAUGHT"
  const MOVE_MASTERY := "MOVE_MASTERY"

  /** One party slot as the game reports it. */
  datatype Mon = Mon(species: int, level: int, currentHp: int, maxHp: int)

  /** The `enemy` object of a battle_start record; a missing level prints as "?". */
  datatype Enemy = Enemy(species: int, level: Option<int>)

  /** One entry of the game's battle damage log; missing HP values print as "?". */
  datatype LogEntry = LogEntry(kind: string, moveId: int, damage: int,
                               enemyHp: Option<int>, enemyMaxHp: Option<int>, hp: Option<int>)

  /** One level-up reported by an exploration_summary record; a missing level prints as "None". */
  datatype LevelUp = LevelUp(species: int, oldLevel: Option<int>, newLevel: Option<int>)

  /** A decoded telemetry record. Each field holds what the source reads with
      `data.get(key, default)`, so an absent key is represented by its default. */
  datatype Telemetry = Telemetry(
    eventType: string,
    party: seq<Mon>,
    badgeCount: int,
    enemy: Enemy,
    isTrainer: bool, isDouble: bool, isSafari: bool,
    enemyParty: seq<Mon>,
    outcome: int, outcomeName: string,
    battleDialogue: seq<string>, battleLog: seq<LogEntry>,
    itemsGained: int, moneyChange: int, dialogueCount: int, dialogueTexts: seq<string>,
    levelUps: seq<LevelUp>, trigger: string,
    species: int, moveId: int, count: int)

  /** `damage_taken`: a dictionary from species name to HP lost, in insertion order. */
  type DamageMap = seq<(string, int)>

  /** The records of one battle buffer: START, END and (maya_gm.py only) CAUGHT. */
  datatype BufferRecord =
    | Start(kind: string, enemy: string, enemyParty: seq<string>,
            isTrainer: bool, isDouble: bool, isSafari: bool, isRematch: bool)
    | End(outcome: string, durationSec: int, hpAfter: int, wasClose: bool, damageTaken: DamageMap)
    | Caught(pokemon: string)

  /** One `battle_history` entry. */
  datatype BattleRecord = BattleRecord(enemy: string, outcome: string, hpAfter: int, wasClose: bool)

  /** The context dictionary handed to `prompt_agent_async`; absent keys are None or empty. */
  datatype Context = Context(
    state: Telemetry,
    buffer: seq<BufferRecord>,
    outcome: Option<string>,
    summary: Option<string>,
    trigger: Option<string>,
    battleDialogue: seq<string>,
    battleLog: seq<LogEntry>,
    caughtSpecies: int,
    moveId: int,
    moveName: Option<string>,
    count: int)

  /** `{'state': data}` as sent for a badge. */
  function StateContext(state: Telemetry): Context {
    Context(state, [], None, None, None, [], [], 0, 0, None, 0)
  }

  /** The BATTLE_SUMMARY context built at battle_end. */
  function BattleContext(state: Telemetry, buffer: seq<BufferRecord>, outcome: string): Context {
    Context(state, buffer, Some(outcome), None, None, state.battleDialogue, state.battleLog, 0, 0, None, 0)
  }

  /** The EXPLORATION_SUMMARY context; only maya_gm.py passes the trigger. */
  function ExplorationContext(state: Telemetry, summary: string, trigger: Option<string>): Context {
    Context(state, [], None, Some(summary), trigger, [], [], 0, 0, None, 0)
  }

  /** The POKEMON_CAUGHT context of agentic_emerald.py. */
  function CaughtContext(state: Telemetry, species: int): Context {
    Context(state, [], None, None, None, [], [], species, 0, None, 0)
  }

  /** The MOVE_MASTERY context of both daemons. */
  function MasteryContext(state: Telemetry, moveId: int, moveName: string, count: int): Context {
    Context(state, [], None, None, None, [], [], 0, moveId, Some(moveName), count)
  }

  /** One entry of `skipped_events`. */
  datatype SkippedEntry = SkippedEntry(kind: string, time: string, summary: string)

  /** One entry of the persisted `session_history`; the prompt it also keeps is only ever
      written to session.json, so it is not modelled. */
  datatype HistoryEntry = HistoryEntry(timestamp: string, eventType: string, response: string)

  /** An admitted event waiting in `pending_events` or in flight. */
  datatype Request = Request(eventType: string, ctx: Context)
}
