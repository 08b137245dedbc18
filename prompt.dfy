/** `build_prompt` of both daemons: the prompt text handed to the agent. The two
    daemons share the header, the recent-battle line and the battle section; they
    differ in the exploration section, the extra sections agentic_emerald.py appends
    (skipped events, session history, pending arcs, reward warnings) and in the glyphs:
    maya_gm.py stores its emoji and bullets double-encoded, and the model keeps the
    characters as stored. */
module Prompt {
  import opened Optional
  import opened Text
  import opened Events
  import opened Party
  import opened Rewards

  /** The non-ASCII glyphs each daemon prints. */
  datatype Glyphs = Glyphs(bullet: string, closeCall: string, caught: string,
                           items: string, moneyIn: string, moneyOut: string, npcs: string)

  const EmeraldGlyphs: Glyphs := Glyphs(
    "\U{2022}", "\U{26A0}\U{FE0F}", "\U{1F389}", "\U{1F4E6}", "\U{1F4B0}", "\U{1F4B8}", "\U{1F4AC}")

  const MayaGlyphs: Glyphs := Glyphs(
    "\U{E2}\U{20AC}\U{A2}", "\U{E2}\U{161}\U{A0}\U{EF}\U{B8}", "\U{11F}\U{178}\U{2030}",
    "\U{11F}\U{178}\U{201C}\U{A6}", "\U{11F}\U{178}\U{2019}\U{B0}", "\U{11F}\U{178}\U{2019}\U{B8}",
    "\U{11F}\U{178}\U{2019}\U{AC}")

  /** How much of each list reaches the prompt. */
  const RecentBattles: nat := 3
  const DialogueShown: nat := 30
  const LogShown: nat := 20
  const NpcShown: nat := 5
  const NpcTextShown: nat := 100
  const SessionHistoryShown: nat := 10
  const ResponseShown: nat := 200

  /** The daemon's running totals. */
  datatype Stats = Stats(battlesWon: int, pokemonCaught: int, closeCalls: int)

  // ---------------------------------------------------------------------------
  // Lists of lines

  function Bullet(bullet: string, text: string): string { bullet + " " + text + "\n" }

  /** One bulleted line per entry, in order. */
  function Bullets(bullet: string, items: seq<string>): string
    decreases |items|
  {
    if items == [] then "" else Bullets(bullet, items[..|items| - 1]) + Bullet(bullet, items[|items| - 1])
  }

  /** The loops of `build_prompt` that append one bulleted line per entry. */
  method AppendBullets(prompt: string, bullet: string, items: seq<string>) returns (p: string)
    ensures p == prompt + Bullets(bullet, items)
  {
    p := prompt;
    for i := 0 to |items|
      invariant p == prompt + Bullets(bullet, items[..i])
    {
      assert items[..i + 1][..i] == items[..i];
      p := p + Bullet(bullet, items[i]);
    }
    assert items[..|items|] == items;
  }

  function CountChar(s: string, c: char): nat
    decreases |s|
  {
    if s == [] then 0 else CountChar(s[..|s| - 1], c) + (if s[|s| - 1] == c then 1 else 0)
  }

  lemma {:induction false} CountCharConcat(a: string, b: string, c: char)
    ensures CountChar(a + b, c) == CountChar(a, c) + CountChar(b, c)
    decreases |b|
  {
    if b == [] {
      assert a + b == a;
    } else {
      var b' := b[..|b| - 1];
      assert (a + b)[..|a + b| - 1] == a + b';
      CountCharConcat(a, b', c);
    }
  }

  lemma {:induction false} CountCharAbsent(s: string, c: char)
    requires c !in s
    ensures CountChar(s, c) == 0
    decreases |s|
  {
    if s != [] {
      CountCharAbsent(s[..|s| - 1], c);
    }
  }

  /** When neither the bullet nor the entries contain a line break, the block has exactly
      one line per entry. */
  lemma {:induction false} OneLinePerBullet(bullet: string, items: seq<string>)
    requires '\n' !in bullet && forall k :: 0 <= k < |items| ==> '\n' !in items[k]
    ensures CountChar(Bullets(bullet, items), '\n') == |items|
    decreases |items|
  {
    if items != [] {
      var front := items[..|items| - 1];
      var x := items[|items| - 1];
      OneLinePerBullet(bullet, front);
      CountCharConcat(Bullets(bullet, front), Bullet(bullet, x), '\n');
      CountCharConcat(bullet + " " + x, "\n", '\n');
      CountCharConcat(bullet + " ", x, '\n');
      CountCharConcat(bullet, " ", '\n');
      CountCharAbsent(bullet, '\n');
      CountCharAbsent(x, '\n');
      assert CountChar(" ", '\n') == 0 by { assert " "[..0] == []; }
      assert CountChar("\n", '\n') == 1 by { assert "\n"[..0] == []; }
    }
  }

  /** Every entry has its bulleted line in the block. */
  lemma {:induction false} BulletsContain(bullet: string, items: seq<string>, k: nat)
    requires k < |items|
    ensures Contains(Bullets(bullet, items), Bullet(bullet, items[k]))
    decreases |items|
  {
    var front := items[..|items| - 1];
    if k == |items| - 1 {
      ContainsInConcat(Bullets(bullet, front), Bullet(bullet, items[k]), "");
      assert Bullets(bullet, front) + Bullet(bullet, items[k]) + "" == Bullets(bullet, items);
    } else {
      BulletsContain(bullet, front, k);
      assert front[k] == items[k];
      ContainsExtended(Bullets(bullet, front), Bullet(bullet, items[k]), Bullet(bullet, items[|items| - 1]));
    }
  }

  /** Only the newest n entries of a list are shown: entries older than those never
      reach the prompt. */
  lemma NewestOnly<T>(older: seq<T>, newer: seq<T>, n: nat)
    requires |newer| >= n
    ensures Last(older + newer, n) == Last(newer, n)
  {
    if n < |newer| {
      assert (older + newer)[|older + newer| - n..] == newer[|newer| - n..];
    } else if older == [] {
      assert older + newer == newer;
    } else {
      assert (older + newer)[|older|..] == newer;
    }
  }

  /** Only the first n entries are shown. */
  lemma FirstOnly<T>(first: seq<T>, later: seq<T>, n: nat)
    requires |first| >= n
    ensures Take(first + later, n) == Take(first, n)
  {
    assert (first + later)[..n] == first[..n];
  }

  // ---------------------------------------------------------------------------
  // Header

  function OptIntText(x: Option<int>, missing: string): string {
    match x
    case Some(v) => IntToString(v)
    case None => missing
  }

  /** `int((time.time() - self.session_start) / 60)`. */
  function SessionMinutes(now: real, sessionStart: real): int {
    Trunc((now - sessionStart) / 60.0)
  }

  /** The lines every prompt opens with. The average is taken over percentages, which is
      the same number as `HpPercent` over fractions. */
  function Header(names: map<int, string>, eventType: string, state: Telemetry, minutes: int, stats: Stats): string {
    "EVENT: " + eventType + "\n" + HeaderBody(names, state, minutes, stats)
  }

  function HeaderBody(names: map<int, string>, state: Telemetry, minutes: int, stats: Stats): string {
    "Party: " + FormatParty(names, state.party) + "\n"
      + "Party HP: " + IntToString(HpPercent(state.party)) + "% avg\n"
      + "Session: " + IntToString(minutes) + " mins | Badges: " + IntToString(state.badgeCount) + "\n"
      + "Stats: " + IntToString(stats.battlesWon) + " wins, " + IntToString(stats.pokemonCaught) + " caught, "
      + IntToString(stats.closeCalls) + " close calls\n"
  }

  /** agentic_emerald.py's reward line. */
  function RewardsLine(rewards: RewardState): string {
    "Rewards: " + IntToString(rewards.visible) + " visible this session | drought=" + IntToString(rewards.drought) + "\n"
  }

  function BattleTag(b: BattleRecord): string {
    b.enemy + "(" + (if b.wasClose then "close" else "clean") + ")"
  }

  function BattleTags(history: seq<BattleRecord>): (r: seq<string>)
    ensures |r| == |history|
    ensures forall k :: 0 <= k < |history| ==> r[k] == BattleTag(history[k])
  {
    if history == [] then [] else [BattleTag(history[0])] + BattleTags(history[1..])
  }

  /** "Recent: ..." over the last three battles, absent without history. */
  function RecentLine(history: seq<BattleRecord>): string {
    if history == [] then "" else "Recent: " + Join(BattleTags(Last(history, RecentBattles)), ", ") + "\n"
  }

  /** The line names the last three battles only. */
  lemma RecentIgnoresOlder(older: seq<BattleRecord>, newer: seq<BattleRecord>)
    requires |newer| >= RecentBattles
    ensures RecentLine(older + newer) == RecentLine(newer)
  {
    NewestOnly(older, newer, RecentBattles);
  }

  // ---------------------------------------------------------------------------
  // The battle section

  function DamageText(d: DamageMap): (r: seq<string>)
    ensures |r| == |d|
  {
    if d == [] then [] else [d[0].0 + ": -" + IntToString(d[0].1) + "HP"] + DamageText(d[1..])
  }

  /** The lines one buffer record contributes. */
  function RecordText(g: Glyphs, r: BufferRecord): string {
    match r
    case Start(kind, enemy, enemyParty, _, _, _, _) =>
      "Started: " + kind + " battle vs " + enemy + "\n"
        + (if enemyParty != [] then "  Trainer's team: " + Join(enemyParty, ", ") + "\n" else "")
    case End(_, duration, hpAfter, wasClose, damage) =>
      "Duration: " + IntToString(duration) + "s, Party HP: " + IntToString(hpAfter) + "%\n"
        + (if wasClose then g.closeCall + " CLOSE CALL!\n" else "")
        + (if damage != [] then "Damage taken: " + Join(DamageText(damage), ", ") + "\n" else "")
    case Caught(pokemon) => g.caught + " Caught: " + pokemon + "\n"
  }

  function BufferText(g: Glyphs, buffer: seq<BufferRecord>): string
    decreases |buffer|
  {
    if buffer == [] then "" else RecordText(g, buffer[0]) + BufferText(g, buffer[1..])
  }

  function DialogueBlock(g: Glyphs, dialogue: seq<string>): string {
    if dialogue == [] then ""
    else "\n=== BATTLE TEXT (what the game showed) ===\n" + Bullets(g.bullet, Last(dialogue, DialogueShown))
  }

  /** `MOVE_NAMES.get(move_id, f"Move#{move_id}")`. */
  function MoveName(moveNames: map<int, string>, id: int): string {
    if id in moveNames then moveNames[id] else "Move#" + IntToString(id)
  }

  /** One damage-log entry: attacks and hits taken are described, other kinds print
      nothing. */
  function LogLine(g: Glyphs, moveNames: map<int, string>, e: LogEntry): string {
    if e.kind == "attack" then
      g.bullet + " " + MoveName(moveNames, e.moveId) + " dealt " + IntToString(e.damage)
        + " damage (enemy: " + OptIntText(e.enemyHp, "?") + "/" + OptIntText(e.enemyMaxHp, "?") + ")\n"
    else if e.kind == "damage_taken" then
      g.bullet + " Took " + IntToString(e.damage) + " damage (HP now: " + OptIntText(e.hp, "?") + ")\n"
    else ""
  }

  function LogLines(g: Glyphs, moveNames: map<int, string>, log: seq<LogEntry>): string
    decreases |log|
  {
    if log == [] then "" else LogLine(g, moveNames, log[0]) + LogLines(g, moveNames, log[1..])
  }

  function DamageLogBlock(g: Glyphs, moveNames: map<int, string>, log: seq<LogEntry>): string {
    if log == [] then "" else "\n=== DAMAGE LOG ===\n" + LogLines(g, moveNames, Last(log, LogShown))
  }

  /** The BATTLE_SUMMARY section: the buffer's records, the last 30 dialogue lines and
      the last 20 damage-log entries. */
  function BattleSection(g: Glyphs, moveNames: map<int, string>, ctx: Context): string {
    "=== BATTLE COMPLETE ===\n" + "Read the battle text below to determine what happened.\n"
      + BufferText(g, ctx.buffer) + DialogueBlock(g, ctx.battleDialogue)
      + DamageLogBlock(g, moveNames, ctx.battleLog)
  }

  /** Messages older than the newest 30, and log entries older than the newest 20, do not
      change the battle section. */
  lemma BattleSectionShowsNewest(g: Glyphs, moveNames: map<int, string>, ctx: Context,
                                 oldText: seq<string>, oldLog: seq<LogEntry>)
    requires |ctx.battleDialogue| >= DialogueShown && |ctx.battleLog| >= LogShown
    ensures BattleSection(g, moveNames, ctx.(battleDialogue := oldText + ctx.battleDialogue,
                                             battleLog := oldLog + ctx.battleLog))
            == BattleSection(g, moveNames, ctx)
  {
    NewestOnly(oldText, ctx.battleDialogue, DialogueShown);
    NewestOnly(oldLog, ctx.battleLog, LogShown);
  }

  /** A close call is flagged in the battle section. */
  lemma CloseCallShown(g: Glyphs, moveNames: map<int, string>, ctx: Context, k: nat)
    requires k < |ctx.buffer| && ctx.buffer[k].End? && ctx.buffer[k].wasClose
    ensures Contains(BattleSection(g, moveNames, ctx), g.closeCall + " CLOSE CALL!\n")
  {
    var p := g.closeCall + " CLOSE CALL!\n";
    var r := ctx.buffer[k];
    var e := "Duration: " + IntToString(r.durationSec) + "s, Party HP: " + IntToString(r.hpAfter) + "%\n";
    var d := if r.damageTaken != [] then "Damage taken: " + Join(DamageText(r.damageTaken), ", ") + "\n" else "";
    assert RecordText(g, r) == e + p + d;
    ContainsInConcat(e, p, d);
    BufferTextContains(g, ctx.buffer, k, p);
    var head := "=== BATTLE COMPLETE ===\n" + "Read the battle text below to determine what happened.\n";
    var buf := BufferText(g, ctx.buffer);
    ContainsPrepended(head, buf, p);
    ContainsExtended(head + buf, p, DialogueBlock(g, ctx.battleDialogue));
    ContainsExtended(head + buf + DialogueBlock(g, ctx.battleDialogue), p, DamageLogBlock(g, moveNames, ctx.battleLog));
  }

  lemma {:induction false} BufferTextContains(g: Glyphs, buffer: seq<BufferRecord>, k: nat, p: string)
    requires k < |buffer| && Contains(RecordText(g, buffer[k]), p)
    ensures Contains(BufferText(g, buffer), p)
    decreases |buffer|
  {
    if k == 0 {
      ContainsExtended(RecordText(g, buffer[0]), p, BufferText(g, buffer[1..]));
    } else {
      BufferTextContains(g, buffer[1..], k - 1, p);
      ContainsPrepended(RecordText(g, buffer[0]), BufferText(g, buffer[1..]), p);
    }
  }

  // ---------------------------------------------------------------------------
  // The exploration section

  /** `text[:100]` followed by "..." when the text was longer. */
  function NpcText(text: string): (r: string)
    ensures |text| <= NpcTextShown ==> r == text
    ensures |text| > NpcTextShown ==> |r| == NpcTextShown + 3 && r[..NpcTextShown] == text[..NpcTextShown]
  {
    Take(text, NpcTextShown) + (if |text| > NpcTextShown then "..." else "")
  }

  function NpcLines(tag: string, dialogues: seq<string>, index: nat): string
    decreases |dialogues|
  {
    if dialogues == [] then ""
    else ("  " + tag + " " + IntToString(index + 1) + ": \"" + NpcText(dialogues[0]) + "\"\n"
          + NpcLines(tag, dialogues[1..], index + 1))
  }

  /** Items, money and NPC lines, shared by both exploration sections; `npcTag` is
      "NPC" in agentic_emerald.py and "Dialogue" in maya_gm.py. */
  function ExplorationStats(g: Glyphs, state: Telemetry, npcTag: string): string {
    (if state.itemsGained > 0 then g.items + " Items gained: " + IntToString(state.itemsGained) + "\n" else "")
      + (if state.moneyChange > 0 then g.moneyIn + " Money gained: $" + IntToString(state.moneyChange) + "\n"
         else if state.moneyChange < 0 then g.moneyOut + " Money spent: $" + IntToString(-state.moneyChange) + "\n"
         else "")
      + (if state.dialogueCount > 0 then
           g.npcs + " NPCs talked to: " + IntToString(state.dialogueCount) + "\n"
             + NpcLines(npcTag, Take(state.dialogueTexts, NpcShown), 0)
         else "")
  }

  /** Only the first five NPC dialogues are quoted. */
  lemma FirstFiveDialogues(g: Glyphs, state: Telemetry, tag: string, later: seq<string>)
    requires |state.dialogueTexts| >= NpcShown
    ensures ExplorationStats(g, state.(dialogueTexts := state.dialogueTexts + later), tag)
            == ExplorationStats(g, state, tag)
  {
    FirstOnly(state.dialogueTexts, later, NpcShown);
  }

  /** A money change is reported with its absolute value, never with a sign. */
  lemma MoneySpentUnsigned(g: Glyphs, state: Telemetry, tag: string)
    requires state.moneyChange < 0 && state.itemsGained <= 0 && state.dialogueCount <= 0
    ensures ExplorationStats(g, state, tag)
            == g.moneyOut + " Money spent: $" + NatToString(-state.moneyChange) + "\n"
  {
  }

  /** agentic_emerald.py's exploration section. */
  function EmeraldExploration(ctx: Context): string {
    "=== EXPLORATION ===\n" + ctx.summary.GetOr("") + "\n" + ExplorationStats(EmeraldGlyphs, ctx.state, "NPC")
  }

  /** maya_gm.py's level-up lines ("None" for a missing level). */
  function MayaLevelUpLines(names: map<int, string>, levelUps: seq<LevelUp>): string
    decreases |levelUps|
  {
    if levelUps == [] then ""
    else
      var lu := levelUps[0];
      "\U{E2}\U{AC}\U{2020}\U{EF}\U{B8} " + SpeciesName(names, lu.species) + ": Level "
        + OptIntText(lu.oldLevel, "None") + " \U{E2}\U{2020}\U{2019} " + OptIntText(lu.newLevel, "None") + "\n"
        + MayaLevelUpLines(names, levelUps[1..])
  }

  /** maya_gm.py's exploration section. */
  function MayaExploration(names: map<int, string>, ctx: Context): string {
    "=== EXPLORATION UPDATE (trigger: " + ctx.trigger.GetOr("unknown") + ") ===\n"
      + "Summary: " + ctx.summary.GetOr("") + "\n"
      + ExplorationStats(MayaGlyphs, ctx.state, "Dialogue")
      + MayaLevelUpLines(names, ctx.state.levelUps)
  }

  /** maya_gm.py's move-mastery section. */
  function MayaMastery(ctx: Context): string {
    "\U{11F}\U{178}\U{AF} PATTERN: Player has used " + ctx.moveName.GetOr("Unknown") + " (id:" + IntToString(ctx.moveId)
      + ") " + IntToString(ctx.count) + " times!\n"
      + "You know Pokemon \U{E2}\U{20AC}\U{201D} if this move has a natural evolution/upgrade, consider rewarding mastery.\n"
      + "Use GM.teachMove(slot, moveId, moveSlot) to teach new moves. Check GM_INSTRUCTIONS.md for move IDs.\n"
  }

  // ---------------------------------------------------------------------------
  // agentic_emerald.py's closing sections

  function SinceHeader(n: nat): string {
    "\n=== SINCE LAST UPDATE (" + NatToString(n) + " routine events) ===\n"
  }

  function Summaries(skipped: seq<SkippedEntry>): (r: seq<string>)
    ensures |r| == |skipped|
    ensures forall k :: 0 <= k < |skipped| ==> r[k] == skipped[k].summary
  {
    if skipped == [] then [] else Summaries(skipped[..|skipped| - 1]) + [skipped[|skipped| - 1].summary]
  }

  /** The skipped events since the last dispatch, one bullet each, under a header that
      counts them; nothing when there are none. */
  function SkippedBlock(skipped: seq<SkippedEntry>): string {
    if skipped == [] then "" else SinceHeader(|skipped|) + Bullets(EmeraldGlyphs.bullet, Summaries(skipped)) + "\n"
  }

  lemma SkippedBlockLists(skipped: seq<SkippedEntry>, k: nat)
    requires k < |skipped|
    ensures StartsWith(SkippedBlock(skipped), SinceHeader(|skipped|))
    ensures Contains(SkippedBlock(skipped), Bullet(EmeraldGlyphs.bullet, skipped[k].summary))
  {
    var h := SinceHeader(|skipped|);
    var b := Bullets(EmeraldGlyphs.bullet, Summaries(skipped));
    assert SkippedBlock(skipped) == h + b + "\n";
    assert (h + b + "\n")[..|h|] == h;
    BulletsContain(EmeraldGlyphs.bullet, Summaries(skipped), k);
    ContainsPrepended(h, b, Bullet(EmeraldGlyphs.bullet, skipped[k].summary));
    ContainsExtended(h + b, Bullet(EmeraldGlyphs.bullet, skipped[k].summary), "\n");
  }

  function HistoryLines(history: seq<HistoryEntry>): string
    decreases |history|
  {
    if history == [] then ""
    else (EmeraldGlyphs.bullet + " [" + history[0].eventType + "] " + Take(history[0].response, ResponseShown) + "\n"
          + HistoryLines(history[1..]))
  }

  /** The persisted session history: the last ten responses, each cut to 200 characters. */
  function SessionHistoryBlock(persistent: bool, history: seq<HistoryEntry>): string {
    if !persistent || history == [] then ""
    else ("\n=== SESSION HISTORY (" + NatToString(|history|) + " previous events) ===\n"
          + HistoryLines(Last(history, SessionHistoryShown))
          + "\nYou've seen these events before. Build on this context, don't repeat yourself.\n")
  }

  function ArcsBlock(arcs: seq<string>): string {
    if arcs == [] then ""
    else ("\n=== PENDING ARC PAYOFFS (you promised these in PLAYTHROUGH.md) ===\n"
          + Bullets(EmeraldGlyphs.bullet, arcs)
          + "\nIf this event creates an opportunity to deliver a payoff, DO IT. Don't defer again.\n")
  }

  function DroughtWarningLine(drought: nat): string {
    "\n\U{26A0}\U{FE0F}  IMPACT WARNING: " + NatToString(drought) + " consecutive invisible rewards (EVs/none).\n"
  }

  /** The escalation once three responses in a row earned nothing visible. */
  function DroughtBlock(drought: nat): string {
    if drought < DroughtWarningAt then ""
    else DroughtWarningLine(drought) + DroughtAdvice(drought)
  }

  function DroughtAdvice(drought: nat): string {
    "The player hasn't noticed Maren in " + NatToString(drought) + " events.\n"
      + "If this event scores 4+ on the checklist, use a VISIBLE reward: teachMove, giveItem, or setShiny.\n"
      + "EVs alone are not enough here. The game needs to feel alive.\n"
  }

  const SessionNoteText: string :=
    "\n\U{1F4CA} SESSION NOTE: No visible rewards given yet this session. The player hasn't felt Maren.\n"

  function SessionNoteBlock(rewards: RewardState): string {
    if SessionNote(rewards) then SessionNoteText else ""
  }

  // ---------------------------------------------------------------------------
  // The two prompts

  function EmeraldEventSection(moveNames: map<int, string>, eventType: string, ctx: Context): string {
    if eventType == BATTLE_SUMMARY then BattleSection(EmeraldGlyphs, moveNames, ctx)
    else if eventType == EXPLORATION_SUMMARY then EmeraldExploration(ctx)
    else ""
  }

  function MayaEventSection(names: map<int, string>, moveNames: map<int, string>, eventType: string, ctx: Context): string {
    if eventType == BATTLE_SUMMARY then BattleSection(MayaGlyphs, moveNames, ctx)
    else if eventType == POKEMON_CAUGHT then "CAUGHT: " + SpeciesName(names, ctx.caughtSpecies) + "\n"
    else if eventType == MOVE_MASTERY then MayaMastery(ctx)
    else if eventType == EXPLORATION_SUMMARY then MayaExploration(names, ctx)
    else ""
  }

  /** Everything `build_prompt` reads: the static tables, the event, the minutes since
      the session started, the totals, the reward bookkeeping, the battle history, the
      skipped events, the session history (and whether it is kept), and the pending
      arcs. maya_gm.py reads only the first seven. */
  datatype PromptInputs = PromptInputs(names: map<int, string>, moveNames: map<int, string>, eventType: string,
                                       ctx: Context, minutes: int, stats: Stats, rewards: RewardState,
                                       battles: seq<BattleRecord>, skipped: seq<SkippedEntry>, persistent: bool,
                                       history: seq<HistoryEntry>, arcs: seq<string>)

  /** What agentic_emerald.py's `build_prompt` appends before the skipped events: the
      header, the reward bookkeeping, the recent battles and the event's own section. */
  function EmeraldHead(i: PromptInputs): string {
    Header(i.names, i.eventType, i.ctx.state, i.minutes, i.stats) + RewardsLine(i.rewards)
      + RecentLine(i.battles) + EmeraldEventSection(i.moveNames, i.eventType, i.ctx)
  }

  /** What it appends after them: the session history, the pending arcs, the drought
      warning and the reward note. */
  function EmeraldTail(i: PromptInputs): string {
    SessionHistoryBlock(i.persistent, i.history) + ArcsBlock(i.arcs)
      + DroughtBlock(i.rewards.drought) + SessionNoteBlock(i.rewards)
  }

  /** agentic_emerald.py's `build_prompt`. */
  function EmeraldPrompt(i: PromptInputs): string {
    EmeraldHead(i) + SkippedBlock(i.skipped) + EmeraldTail(i)
  }

  /** maya_gm.py's `build_prompt`: the header, the recent battles and the event's own
      section. */
  function MayaPrompt(i: PromptInputs): string {
    Header(i.names, i.eventType, i.ctx.state, i.minutes, i.stats) + RecentLine(i.battles)
      + MayaEventSection(i.names, i.moveNames, i.eventType, i.ctx)
  }

  // ---------------------------------------------------------------------------
  // Building

  /** The skipped-events part of agentic_emerald.py's `build_prompt`: with skipped events,
      the header and then one bullet per event, appended one at a time. */
  method AppendSkipped(prompt: string, skipped: seq<SkippedEntry>) returns (p: string)
    ensures p == prompt + SkippedBlock(skipped)
  {
    p := prompt;
    if skipped != [] {
      p := p + SinceHeader(|skipped|);
      p := AppendBullets(p, EmeraldGlyphs.bullet, Summaries(skipped));
      p := p + "\n";
    }
  }

  /** agentic_emerald.py's `build_prompt` over its inputs. */
  method BuildEmeraldPrompt(i: PromptInputs) returns (prompt: string)
    ensures prompt == EmeraldPrompt(i)
  {
    prompt := AppendSkipped(EmeraldHead(i), i.skipped);
    prompt := prompt + EmeraldTail(i);
  }

  // ---------------------------------------------------------------------------
  // What the prompts promise

  lemma HeaderOpensWithEvent(i: PromptInputs)
    ensures StartsWith(Header(i.names, i.eventType, i.ctx.state, i.minutes, i.stats), "EVENT: " + i.eventType + "\n")
  {
    StartsWithConcat("EVENT: " + i.eventType + "\n", HeaderBody(i.names, i.ctx.state, i.minutes, i.stats));
  }

  /** Both prompts open with the event line. */
  lemma PromptsOpenWithEvent(i: PromptInputs)
    ensures StartsWith(EmeraldPrompt(i), "EVENT: " + i.eventType + "\n")
    ensures StartsWith(MayaPrompt(i), "EVENT: " + i.eventType + "\n")
  {
    var e := "EVENT: " + i.eventType + "\n";
    var h := Header(i.names, i.eventType, i.ctx.state, i.minutes, i.stats);
    HeaderOpensWithEvent(i);
    StartsWithExtended(h, e, RewardsLine(i.rewards));
    StartsWithExtended(h + RewardsLine(i.rewards), e, RecentLine(i.battles));
    StartsWithExtended(h + RewardsLine(i.rewards) + RecentLine(i.battles), e,
                       EmeraldEventSection(i.moveNames, i.eventType, i.ctx));
    StartsWithExtended(EmeraldHead(i), e, SkippedBlock(i.skipped));
    StartsWithExtended(EmeraldHead(i) + SkippedBlock(i.skipped), e, EmeraldTail(i));
    StartsWithExtended(h, e, RecentLine(i.battles));
    StartsWithExtended(h + RecentLine(i.battles), e, MayaEventSection(i.names, i.moveNames, i.eventType, i.ctx));
  }

  /** With skipped events, agentic_emerald.py's prompt counts them and lists each one. */
  lemma EmeraldPromptListsSkipped(i: PromptInputs, k: nat)
    requires k < |i.skipped|
    ensures Contains(EmeraldPrompt(i), SinceHeader(|i.skipped|))
    ensures Contains(EmeraldPrompt(i), Bullet(EmeraldGlyphs.bullet, i.skipped[k].summary))
  {
    SkippedBlockLists(i.skipped, k);
    ContainsPrefix(SkippedBlock(i.skipped), SinceHeader(|i.skipped|));
    ContainsBetween(EmeraldHead(i), SkippedBlock(i.skipped), EmeraldTail(i), SinceHeader(|i.skipped|));
    ContainsBetween(EmeraldHead(i), SkippedBlock(i.skipped), EmeraldTail(i),
                    Bullet(EmeraldGlyphs.bullet, i.skipped[k].summary));
  }

  lemma DroughtBlockWarns(drought: nat)
    requires drought >= DroughtWarningAt
    ensures Contains(DroughtBlock(drought), DroughtWarningLine(drought))
  {
    StartsWithConcat(DroughtWarningLine(drought), DroughtAdvice(drought));
    ContainsPrefix(DroughtBlock(drought), DroughtWarningLine(drought));
  }

  /** Whatever the sections after the skipped events contain, agentic_emerald.py's prompt
      contains. */
  lemma TailInEmeraldPrompt(i: PromptInputs, p: string)
    requires Contains(EmeraldTail(i), p)
    ensures Contains(EmeraldPrompt(i), p)
  {
    ContainsPrepended(EmeraldHead(i) + SkippedBlock(i.skipped), EmeraldTail(i), p);
  }

  /** A drought of three or more puts the impact warning, with the count, in agentic_emerald.py's
      prompt; a shorter drought adds nothing. */
  lemma EmeraldPromptWarnsOfDrought(i: PromptInputs)
    ensures i.rewards.drought >= DroughtWarningAt ==>
      Contains(EmeraldPrompt(i), DroughtWarningLine(i.rewards.drought))
    ensures i.rewards.drought < DroughtWarningAt ==> DroughtBlock(i.rewards.drought) == ""
  {
    var d := i.rewards.drought;
    if d >= DroughtWarningAt {
      var w := DroughtWarningLine(d);
      DroughtBlockWarns(d);
      ContainsBetween(SessionHistoryBlock(i.persistent, i.history) + ArcsBlock(i.arcs), DroughtBlock(d),
                      SessionNoteBlock(i.rewards), w);
      TailInEmeraldPrompt(i, w);
    }
  }

  lemma ArcsBlockLists(arcs: seq<string>, k: nat)
    requires k < |arcs|
    ensures Contains(ArcsBlock(arcs), Bullet(EmeraldGlyphs.bullet, arcs[k]))
  {
    BulletsContain(EmeraldGlyphs.bullet, arcs, k);
    ContainsBetween("\n=== PENDING ARC PAYOFFS (you promised these in PLAYTHROUGH.md) ===\n",
                    Bullets(EmeraldGlyphs.bullet, arcs),
                    "\nIf this event creates an opportunity to deliver a payoff, DO IT. Don't defer again.\n",
                    Bullet(EmeraldGlyphs.bullet, arcs[k]));
  }

  /** Each pending arc gets its bullet in agentic_emerald.py's prompt. */
  lemma EmeraldPromptListsArcs(i: PromptInputs, k: nat)
    requires k < |i.arcs|
    ensures Contains(EmeraldPrompt(i), Bullet(EmeraldGlyphs.bullet, i.arcs[k]))
  {
    var p := Bullet(EmeraldGlyphs.bullet, i.arcs[k]);
    ArcsBlockLists(i.arcs, k);
    ContainsBetween(SessionHistoryBlock(i.persistent, i.history), ArcsBlock(i.arcs),
                    DroughtBlock(i.rewards.drought), p);
    ContainsExtended(SessionHistoryBlock(i.persistent, i.history) + ArcsBlock(i.arcs)
                     + DroughtBlock(i.rewards.drought), p, SessionNoteBlock(i.rewards));
    TailInEmeraldPrompt(i, p);
  }
}
