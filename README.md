# Event gating and dispatch of the Pokémon Emerald game-master daemons

This project models, and proves properties of, the decision core of the two game-master
daemons in `daemon/`. Each daemon watches a Pokémon Emerald game through the emulator's
telemetry and asks an AI game master for in-game actions: `agentic_emerald.py` (class
`PokemonGM`) and `maya_gm.py` (class `MayaGM`). The two files implement the same design
with small differences. The model covers the shared pieces once and the daemons
separately:

- **Uncertainty gate** (`Gate`): agentic_emerald.py scores each event between 0.2 and
  1.0 and dispatches it only when the score reaches the threshold. This covers both the
  battle-summary scoring by trainer and close-call flags and the summary kept for a
  skipped event.
- **Trainer rematch ledger** (`Rematch`): for each species and level, the ten newest
  encounter times, with a 30-minute window.
- **Battle tracker** (`Battle`, `Party`): the HP and level baselines taken at
  battle_start. It also covers the level-up outcome override, the average HP and the
  close-call flag, the per-species damage, the END record, and the battle history,
  capped at ten.
- **Single-flight dispatch** (`Dispatch`): a busy flag and a FIFO of pending events. It
  is a sequential state machine with `Arrive` (`prompt_agent_async`) and `Complete`
  (the `finally` block of `run_agent`). Proved: FIFO order over any run, and no second
  start while busy.
- **Response parser** (`Matching`, `Parser`): an explicit scanner for
  `GM\.\w+\([^)]*\)` over the first 15 lines of agentic_emerald.py's responses, the
  last-`ACTION:`-line fallback over 15 or 10 lines, and the `nc -w 1` rewriting.
- **Reward classifier and drought counter** (`Rewards`): the labels none, ev and
  visible, the ten-label history, the drought count and the count of visible rewards.
- **Text builders** (`Prompt`, `Exploration`, `Arcs`, `Readable`): both `build_prompt`s
  with their section order and truncations, and the exploration summaries. Also the
  filter that reads pending arc payoffs from PLAYTHROUGH.md, and
  `get_readable_action`, `get_species_name` and `format_party`. The last three are the
  same code in both files and are modelled once.
- **The daemons** (`Emerald.EmeraldGM`, `Maya.MayaGM`): classes whose fields are the
  daemons' attributes. Each method of `process_event` and `prompt_agent_async` is proved
  to leave the fields exactly as a function on the daemon's `State` says. The lemmas
  about those functions state what the daemons promise. Both daemons keep an invariant
  across every event and every completion: busy exactly when a dispatch is in flight,
  only admitted events waiting, and the lists within their caps.

Time, the playthrough notes, the backend's answer and the static name tables are
parameters. The answer is empty when the backend failed, timed out or wrote nothing.

## Model

| member | source | states |
|---|---|---|
| Rematch.Recent | daemon/agentic_emerald.py:403 | an encounter time survives the filter exactly when it is in the list and strictly less than 1800 seconds old |
| Rematch.Detect | daemon/agentic_emerald.py:391-412 | the result is a rematch iff some earlier time for the same species and level lies strictly inside the window; the key's list becomes the ten newest of the old list plus `now`, ending in `now`; every other key is untouched |
| Rematch.FirstEncounterNotRematch | daemon/agentic_emerald.py:399-404 | a key never seen before is never a rematch |
| Rematch.DetectDropsOldest | daemon/agentic_emerald.py:407-410 | with ten times already recorded, the oldest is dropped and `now` appended |
| Rematch.RematchScenario | daemon/agentic_emerald.py:391-412 | the same enemy ten minutes later is a rematch; forty minutes later it is not |
| Rematch.WindowIsStrict | daemon/agentic_emerald.py:403 | an encounter exactly 1800 seconds old does not count |
| Gate.Score | daemon/agentic_emerald.py:414-459 | the score is one of the seven constants of the table, so it lies in [0, 1]; badges and rematches score 1.0 |
| Gate.BattleScores | daemon/agentic_emerald.py:428-449 | a battle summary scores 0.9 (trainer, close), 0.7 (trainer), 0.5 (wild, close) or 0.2 (wild), from the scanned flags |
| Gate.ExplorationScores | daemon/agentic_emerald.py:451-456 | an exploration summary scores 0.8 when it mentions "rare" or "caught" ignoring case, 0.3 otherwise and 0.3 without a summary |
| Gate.RarityInAnyCase | daemon/agentic_emerald.py:453-455 | "rare" in any case anywhere in the summary gives 0.8 |
| Gate.UnknownScoresHalf | daemon/agentic_emerald.py:458-459 | every other event type scores 0.5 |
| Gate.TrainerFlagIsLastStart | daemon/agentic_emerald.py:432-436 | the scan leaves `is_trainer` as the flag of the last START record |
| Gate.CloseFlagIsLastEnd | daemon/agentic_emerald.py:433-438 | the scan leaves `is_close` as the flag of the last END record |
| Gate.StartEndScore | daemon/agentic_emerald.py:428-449 | for a buffer [START, END] the score follows the START's trainer flag and the END's close flag |
| Gate.ScoreEventUncertainty | daemon/agentic_emerald.py:414-459 | the loop over the buffer computes exactly `Gate.Score` |
| Gate.AdmissionMonotone | daemon/agentic_emerald.py:461-467 | an event admitted at one threshold is admitted at every lower threshold |
| Gate.DefaultAdmitsAll | daemon/agentic_emerald.py:461-467 | at the default threshold 0.15 every event is admitted |
| Gate.BadgeAlwaysAdmitted | daemon/agentic_emerald.py:424-425 | a badge is admitted at every threshold up to 1.0 |
| Gate.FirstStartEnemy | daemon/agentic_emerald.py:473-475 | there is a result iff the buffer holds a START record, and it is the enemy of the first one |
| Gate.SummarizeFacts | daemon/agentic_emerald.py:469-480 | a skipped battle is "Wild battle vs" its first START's enemy, or "Wild battle" without one; other kinds are summarised by their type |
| Rewards.Classify | daemon/agentic_emerald.py:482-501 | 'none' exactly when there is no target, or it is empty or "none" after lower-casing and stripping; 'ev' exactly when a real target mentions addEVs or setFriendship; 'visible' otherwise |
| Rewards.NoneInAnyCase | daemon/agentic_emerald.py:495-496 | "NONE" surrounded by any whitespace is classified 'none' |
| Rewards.GmCallIsRewarded | daemon/agentic_emerald.py:495-501 | a GM call is never 'none', and it is 'ev' exactly when it changes EVs or friendship |
| Rewards.ResponseWithCallsIsRewarded | daemon/agentic_emerald.py:619-621 | when the parser found GM calls, the label is not 'none' and the first call decides between 'ev' and 'visible' |
| Rewards.Record | daemon/agentic_emerald.py:622-632 | the label history never holds more than ten labels |
| Rewards.DroughtCountsSinceVisible | daemon/agentic_emerald.py:626-632 | after a run of responses the drought counter is the number of labels since the last visible one, or the old count plus all of them when none was visible |
| Rewards.VisibleRewardsCounted | daemon/agentic_emerald.py:626-628 | the session counter grows by the number of visible labels |
| Rewards.HistoryKeepsNewest | daemon/agentic_emerald.py:622-624 | the history is the newest ten labels of the old history followed by the new ones, in order |
| Rewards.TrailingInvisibleAtLeast | daemon/agentic_emerald.py:626-632 | at least k labels end the run without a visible one iff none of the last k is visible |
| Rewards.WarningAfterThreeInvisible | daemon/agentic_emerald.py:893-897 | after three or more responses, the impact warning is shown exactly when none of the last three was visible |
| Rewards.NoVisibleCounted | daemon/agentic_emerald.py:626-628 | no visible label is counted iff none was recorded |
| Rewards.SessionNoteFromStart | daemon/agentic_emerald.py:900-901 | from a fresh session, the session note appears exactly when five or more labels are recorded and none is visible |
| Arcs.Clean | daemon/agentic_emerald.py:530 | a cleaned line does not start with `*`, `-` or a space, nor end with `*` |
| Arcs.ReadPendingArcs | daemon/agentic_emerald.py:503-535 | the loop over the lines computes exactly `Arcs.PendingArcs` |
| Arcs.ArcOfFacts | daemon/agentic_emerald.py:524-532 | a line yields an arc only when its stripped form is long enough, carries a marker, and the arc is its non-empty cleaned form |
| Arcs.CollectArcsSnoc | daemon/agentic_emerald.py:523-532 | one more line appends its arc, if it has one, after the others |
| Arcs.ArcsComeFromLines | daemon/agentic_emerald.py:523-532 | every arc collected is the arc of some line of the notes |
| Arcs.PendingArcsBounded | daemon/agentic_emerald.py:509-535 | at most five arcs are returned, none without notes, and each is a non-empty cleaned marked line of the notes |
| Arcs.ShortLineIgnored | daemon/agentic_emerald.py:526-527 | a line whose stripped form is shorter than 20 characters adds nothing, whatever marker it carries |
| Arcs.MarkedLineKept | daemon/agentic_emerald.py:528-532 | a long enough line with a marker whose cleaned form is non-empty is appended as that cleaned form |
| Battle.HpBaseline | daemon/agentic_emerald.py:948 | the HP baseline has exactly one entry per party slot, holding that slot's current HP |
| Battle.LevelBaseline | daemon/agentic_emerald.py:949 | the level baseline has exactly one entry per party slot, holding that slot's level |
| Battle.LevelUps | daemon/maya_gm.py:629-635 | the level-up list is non-empty iff some slot's level exceeds its baseline, a slot without one counting from its own level |
| Battle.MayaLevelUpImpliesEmerald | daemon/maya_gm.py:630-633 | a level-up that maya_gm.py sees is one agentic_emerald.py (daemon/agentic_emerald.py:961-962) sees too, for the same baseline |
| Battle.MayaIgnoresMissingBaseline | daemon/maya_gm.py:631-633 | slots without a baseline never count as level-ups in maya_gm.py |
| Battle.OverrideOutcome | daemon/agentic_emerald.py:961-966 | an unknown, lost or fled outcome (0, 2, 4) becomes 1 / "won" when a level rose; every other outcome is kept with its name |
| Battle.LostWithLevelUpIsWon | daemon/maya_gm.py:637-641 | a battle reported lost with a level-up ends as (1, "won") |
| Battle.WasCloseCases | daemon/maya_gm.py:655-660 | a close call needs a non-empty party with average HP fraction below 0.25, and an empty party reports 100 % |
| Battle.CloseCallPercent | daemon/agentic_emerald.py:989-990 | a close call always prints an HP percentage below 25 |
| Battle.Duration | daemon/agentic_emerald.py:974 | without a start time the duration is 0; otherwise it is a whole number of seconds no larger than the time elapsed |
| Battle.DictSet | daemon/agentic_emerald.py:983 | setting a key adds it to the keys, keeps the keys distinct and the values positive, and gives the key its new value |
| Battle.DamageKeys | daemon/agentic_emerald.py:977-983 | the damage dictionary names exactly the species of the slots whose HP fell below their baseline |
| Battle.DamageDistinct | daemon/agentic_emerald.py:977-983 | each species appears in the damage dictionary at most once |
| Battle.DamagePositive | daemon/agentic_emerald.py:979-983 | every recorded damage is a positive loss |
| Battle.SingleSlotDamage | daemon/agentic_emerald.py:977-983 | one slot that lost HP from its baseline gives a dictionary holding exactly that loss under its species name |
| Battle.AppendPopOldest | daemon/agentic_emerald.py:1015-1017 | appending with the pop of the oldest keeps the history within ten and equals keeping the ten newest |
| Battle.BattleKind | daemon/agentic_emerald.py:928-934 | the battle kind begins with "TRAINER" or "WILD" as the battle is a trainer battle or not |
| Party.UnknownSpeciesNumber | daemon/agentic_emerald.py:279-282 | a positive species id missing from the table is named "Pokemon #" followed by digits that read back as the id |
| Party.MonEntries | daemon/agentic_emerald.py:287-293 | one "<name> L<level> (<hp>/<max_hp>)" entry per slot, in party order |
| Party.FormatPartyEmpty | daemon/agentic_emerald.py:284-294 | a formatted party reads "Empty" exactly when the party is empty |
| Party.AvgHpBounds | daemon/agentic_emerald.py:772-778 | when every slot's HP lies between 0 and its maximum, the average fraction lies in [0, 1] and the printed percentage in [0, 100] |
| Party.FaintedPartyAverage | daemon/agentic_emerald.py:969-972 | a non-empty party with every slot at 0 HP averages 0 and prints 0 % |
| Readable.StatName | daemon/agentic_emerald.py:311-325 | a stat whose lower-cased form is in the table gets a display name from the table; any other stat is printed as written |
| Readable.PokemonInSlot | daemon/agentic_emerald.py:296-305 | a slot inside the party is named by its species; any other slot reads "Pokemon #<slot>" |
| Readable.NoGmCallIsTruncated | daemon/agentic_emerald.py:319-369 | a command without "GM." matches none of the patterns and is described by its first 50 characters |
| Readable.AddEvsRoundTrip | daemon/agentic_emerald.py:320-326 | an EV award rendered with any quoting reads back as "<pokemon> gains +<amount> <stat name> training" |
| Readable.AddEvsMatch | daemon/agentic_emerald.py:321-323 | the EV pattern matches its own rendering at the start, with the same slot, stat and amount groups |
| Readable.HealPartyReadable | daemon/agentic_emerald.py:328-330 | `GM.healParty()` reads "Party fully restored!" |
| Parser.ActionOf | daemon/agentic_emerald.py:614-615 | a line is an ACTION line exactly when its stripped form starts with "ACTION:", and the command it gives has no blank at either end |
| Parser.ActionLineRoundTrip | daemon/agentic_emerald.py:614-615 | "ACTION:" followed by a command gives back the command, stripped |
| Parser.ReadResponse | daemon/agentic_emerald.py:590-615 | the loop over the first `limit` lines computes exactly `Parser.ParseResponse`: the calls of the non-blank lines in order, and the command of the last ACTION line |
| Parser.CollectedCallsSound | daemon/agentic_emerald.py:586-588 | every collected call is a whole GM call |
| Parser.NoCallsWithoutCollecting | daemon/maya_gm.py:389-411 | maya_gm.py's loop collects no calls |
| Parser.LastActionWins | daemon/maya_gm.py:410-411 | the remembered command is the one of the last ACTION line |
| Parser.NoActionLine | daemon/agentic_emerald.py:591 | without an ACTION line no command is remembered |
| Parser.LinesPastLimitIgnored | daemon/agentic_emerald.py:592 | lines after the first `limit` never change what is parsed |
| Parser.OneLineOfCalls | daemon/agentic_emerald.py:611-613 | a one-line response made of GM calls yields exactly those calls, in order |
| Parser.CollectAllCalls | daemon/agentic_emerald.py:592-613 | testing for blank lines loses no call: the calls collected are those of every line, in line order |
| Parser.CallsOnlyOnNonBlank | daemon/agentic_emerald.py:592-612 | a line holding a GM call is not blank |
| Parser.LinesOfCalls | daemon/agentic_emerald.py:590-613 | a response of at most `limit` lines yields the calls of all of its lines, line by line and left to right |
| Parser.TwoLinesOfProseAndCall | daemon/agentic_emerald.py:590-613 | two lines, each prose followed by a call, yield both calls, the first line's first |
| Parser.MemoryAndActionCalls | daemon/agentic_emerald.py:590-613 | a MEMORY line and an ACTION line, each with a call, yield both calls, the MEMORY one first |
| Parser.EvMemoryHealAction | daemon/agentic_emerald.py:590-613 | a MEMORY line ending in `GM.addEVs(...)` and the ACTION line `GM.healParty()` yield those two calls, in that order |
| Parser.ClassifyTarget | daemon/agentic_emerald.py:620 | the classified target is the first call when there is one, else the ACTION command |
| Parser.AddNcTimeout | daemon/agentic_emerald.py:656-657 | a command that needs the `nc` timeout gets " -w " and grows; one that does not is unchanged; afterwards every `nc` pipe has a timeout flag |
| Parser.AddNcTimeoutIdempotent | daemon/maya_gm.py:417-419 | adding the timeout twice is adding it once, and it changes a command exactly when the command needed it |
| Parser.EmeraldShellCommand | daemon/agentic_emerald.py:649-657 | the fallback runs only without GM calls and with an ACTION command; it runs whenever that command is neither blank nor "none" ignoring case and blanks; its `nc` pipe has a timeout |
| Parser.MayaShellCommand | daemon/maya_gm.py:415-419 | a command runs exactly when the ACTION command is non-empty and not "none" in lower case, and its `nc` pipe has " -w " or " -q " |
| Parser.NoneActionRunsNothing | daemon/agentic_emerald.py:651-652 | "NONE" with blanks around it runs nothing |
| Matching.SearchFrom | daemon/agentic_emerald.py:321 | a position found lies in range and the pattern matches there |
| Matching.SearchFromLeftmost | daemon/agentic_emerald.py:321 | the position found is the leftmost match, and none is found only when there is no match |
| Matching.SearchFromIs | daemon/agentic_emerald.py:321 | a match with no match before it from the start position on is the position found |
| Matching.SearchFromNone | daemon/agentic_emerald.py:321 | with no match from the start position on, nothing is found |
| Matching.Search | daemon/agentic_emerald.py:321 | `re.search` finds nothing iff the pattern matches nowhere, and a match at the start is the one returned |
| Matching.GmCallAt | daemon/agentic_emerald.py:588 | a match of `GM\.\w+\([^)]*\)` starts with "GM.", is at least six characters long and ends in ")" |
| Matching.GmCallLocal | daemon/agentic_emerald.py:588 | whether and where a GM call matches depends only on the characters it spans |
| Matching.CallTextIsGmCall | daemon/agentic_emerald.py:588 | "GM." + name + "(" + args + ")" is a whole GM call for every non-empty name of word characters and arguments without ")" |
| Matching.GmCallIsCallText | daemon/agentic_emerald.py:588 | every whole GM call is "GM.", a non-empty name of word characters, "(", arguments without ")" and ")" |
| Matching.IsGmCallIff | daemon/agentic_emerald.py:588 | a string is a whole GM call iff it is the call text of some such name and arguments |
| Matching.FindCallsSound | daemon/agentic_emerald.py:588 | every string `findall` returns is a whole GM call |
| Matching.NoGmNoCalls | daemon/agentic_emerald.py:588 | a line without "GM." holds no call |
| Matching.FindCallsConcat | daemon/agentic_emerald.py:588 | GM calls written one after another are found again, one by one and in order |
| Matching.FindCallsLeftmost | daemon/agentic_emerald.py:588 | when the first match from a position is at `i`, `findall` returns that match and then what it finds after it |
| Matching.FindCallsNone | daemon/agentic_emerald.py:588 | with no match from a position on, `findall` returns nothing |
| Matching.MatchesInOrder | daemon/agentic_emerald.py:588 | the k-th result is the text of a match at the k-th start position; each match ends before the next starts, so the starts strictly increase |
| Matching.MatchesCovered | daemon/agentic_emerald.py:588 | every position where a GM call matches lies inside one of the returned matches: only matches overlapping an earlier one are not returned |
| Matching.FindCallsInProse | daemon/agentic_emerald.py:588 | GM calls written amid prose that holds no "GM." are found again, exactly and in order |
| Dispatch.Arrive | daemon/agentic_emerald.py:540-561 | a gated-out event is skipped and nothing changes; an admitted event arriving while busy is queued at the end; any other starts a dispatch and sets the busy flag |
| Dispatch.Complete | daemon/agentic_emerald.py:672-676 | with nothing waiting the busy flag drops; otherwise the oldest waiting event is removed and goes through `prompt_agent_async` again |
| Dispatch.ArriveValid | daemon/agentic_emerald.py:555-561 | an arrival keeps "nothing waits while idle, only admitted events wait" |
| Dispatch.CompleteStartsOldest | daemon/maya_gm.py:446-451 | a completion keeps the state valid, and with events waiting it always starts the oldest one |
| Dispatch.RunIsFifo | daemon/agentic_emerald.py:537-678 | over any run, the events started followed by those still waiting are the events that were waiting followed by the admitted arrivals, in arrival order; the skipped ones are exactly the rejected arrivals; the state stays valid |
| Dispatch.BusyNeverStarts | daemon/maya_gm.py:358-361 | while a dispatch is in flight an arrival never starts another one and the flag stays up |
| Dispatch.AdmitAllKeepsEverything | daemon/maya_gm.py:356-361 | a gate that admits everything admits every arrival and rejects none |
| Dispatch.ThreeArrivalsStartInOrder | daemon/maya_gm.py:356-454 | three events arriving back to back, followed by two completions, start in arrival order and leave nothing waiting |
| Exploration.MoneyFormats | daemon/maya_gm.py:743-746 | both daemons (daemon/agentic_emerald.py:1045-1046) report a money change exactly when it is non-zero; agentic_emerald.py writes "$+5" / "$-5" where maya_gm.py writes "+$5" / "-$5" |
| Exploration.LevelUpParts | daemon/maya_gm.py:749-751 | one "<name> L<old>→<new>" piece per reported level-up, in order |
| Exploration.EmeraldSummaryFacts | daemon/agentic_emerald.py:1037-1057 | the branch prompts exactly when items were gained, money changed or an NPC was talked to; the summary has one piece per such fact and contains each |
| Exploration.MayaSummaryFacts | daemon/maya_gm.py:731-763 | the branch prompts exactly when items were gained, money changed, an NPC was talked to or a level rose; the summary contains each piece, level-ups last |
| Prompt.AppendBullets | daemon/agentic_emerald.py:868-869 | the loop that appends one "• <summary>" line per entry produces exactly the prompt followed by the bulleted block, in the entries' order |
| Prompt.OneLinePerBullet | daemon/agentic_emerald.py:885-889 | when no entry and no bullet contains a line break, the bulleted block has exactly one line per entry |
| Prompt.BulletsContain | daemon/agentic_emerald.py:888-889 | every entry has its own bulleted line somewhere in the block |
| Prompt.NewestOnly | daemon/agentic_emerald.py:823 | a `[-n:]` slice shows only the newest n entries: anything older never changes what is shown |
| Prompt.FirstOnly | daemon/agentic_emerald.py:862 | a `[:n]` slice shows only the first n entries: anything later never changes what is shown |
| Prompt.RecentIgnoresOlder | daemon/agentic_emerald.py:790-796 | the "Recent:" line depends only on the last three battles |
| Prompt.BattleSectionShowsNewest | daemon/agentic_emerald.py:820-842 | the battle section quotes only the last 30 messages and the last 20 damage-log entries; older ones do not change it |
| Prompt.CloseCallShown | daemon/agentic_emerald.py:810-814 | an END record that was a close call puts the "CLOSE CALL!" line into the battle section (maya_gm.py does the same) |
| Prompt.NpcText | daemon/agentic_emerald.py:863 | an NPC text of at most 100 characters is quoted whole; a longer one is cut to its first 100 characters followed by "..." |
| Prompt.FirstFiveDialogues | daemon/maya_gm.py:571-572 | only the first five dialogue texts are quoted; later ones do not change the exploration section (the same in daemon/agentic_emerald.py:862-863) |
| Prompt.MoneySpentUnsigned | daemon/agentic_emerald.py:852-856 | a negative money change is reported as "Money spent: $" with its absolute value |
| Prompt.SkippedBlockLists | daemon/agentic_emerald.py:866-870 | with skipped events, the block opens with a header counting them and holds a bullet for each one's summary |
| Prompt.AppendSkipped | daemon/agentic_emerald.py:866-870 | appending the skipped events one at a time yields the prompt followed by the skipped block, and leaves the prompt unchanged when there are none |
| Prompt.BuildEmeraldPrompt | daemon/agentic_emerald.py:766-903 | the prompt built step by step is the header, rewards line, recent line, event section, skipped block, session history, arcs, drought warning and session note, in that order |
| Prompt.HeaderOpensWithEvent | daemon/agentic_emerald.py:782 | the header starts with "EVENT: <type>" and a line break |
| Prompt.PromptsOpenWithEvent | daemon/maya_gm.py:475 | both daemons' prompts open with the event line, whatever follows it (agentic_emerald.py at daemon/agentic_emerald.py:782) |
| Prompt.EmeraldPromptListsSkipped | daemon/agentic_emerald.py:866-870 | agentic_emerald.py's prompt contains the skipped-events header with their count and a bullet for every skipped event |
| Prompt.DroughtBlockWarns | daemon/agentic_emerald.py:893-897 | a drought of three or more produces the impact warning with the drought count |
| Prompt.EmeraldPromptWarnsOfDrought | daemon/agentic_emerald.py:893-897 | with a drought of three or more the prompt contains the warning with the count; below three the warning block is empty |
| Prompt.ArcsBlockLists | daemon/agentic_emerald.py:885-890 | the pending-arcs block holds a bullet for every pending arc |
| Prompt.EmeraldPromptListsArcs | daemon/agentic_emerald.py:885-890 | every pending arc has its bullet in agentic_emerald.py's prompt |
| Emerald.InitialInvariant | daemon/agentic_emerald.py:90-197 | a freshly constructed daemon is idle, with nothing pending and nothing skipped, and satisfies the daemon invariant (busy exactly when a dispatch is in flight, every pending event admitted, at most 20 skipped events, 10 reward labels and 10 battles) |
| Emerald.PromptAgent | daemon/agentic_emerald.py:537-561 | the dispatch queue moves exactly as the shared single-flight queue's arrival step says, under the uncertainty gate at the configured threshold |
| Emerald.GatedOutIsSkipped | daemon/agentic_emerald.py:540-553 | an event scoring below the threshold changes nothing but the skipped list, which gains its summary as the newest entry and never holds more than twenty (exactly one more when it held fewer) |
| Emerald.BusyQueues | daemon/agentic_emerald.py:555-558 | an admitted event arriving while busy waits at the end of the pending list, and nothing else changes |
| Emerald.StartDrainsSkipped | daemon/agentic_emerald.py:560-563 | an admitted event arriving while idle starts a dispatch; its prompt counts and lists every skipped event and the skipped list is then empty (the clearing at daemon/agentic_emerald.py:866-872) |
| Emerald.PromptAgentKeepsInvariant | daemon/agentic_emerald.py:537-561 | every arrival keeps the daemon invariant |
| Emerald.CommandsTimeBounded | daemon/agentic_emerald.py:634-666 | with GM calls found, one command per call; without them at most the one fallback command; every command that pipes into nc carries a " -w " timeout |
| Emerald.RespondNonEmpty | daemon/agentic_emerald.py:576-632 | a non-empty answer adds its reward label to the bookkeeping, joins the session history in persistent mode only, and is relayed as the commands of its parse |
| Emerald.ResponseBooked | daemon/agentic_emerald.py:576-632 | an empty answer changes nothing and sends nothing; a non-empty one books its label and extends the session history by one entry exactly in persistent mode, keeping the older entries; the dispatch state, totals, battles and tracker are left alone |
| Emerald.VisibleCallEndsDrought | daemon/agentic_emerald.py:619-632 | a response whose first GM call is visible resets the drought and counts a visible reward; any response not labelled visible lengthens the drought by one |
| Emerald.FinishKeepsInvariant | daemon/agentic_emerald.py:671-676 | completion keeps the invariant and moves the queue as the shared completion step says: with nothing pending the daemon goes idle; otherwise the oldest pending event starts at once, and its prompt already sees this response's reward label |
| Emerald.BattleStartResets | daemon/agentic_emerald.py:910-953 | battle_start only touches the tracker: the buffer becomes one START record, flagged as a rematch exactly when a trainer with the same species and level was fought less than thirty minutes ago; a wild battle leaves the ledger alone |
| Emerald.EndOf | daemon/agentic_emerald.py:955-992 | the outcome is the level-up override of the reported one, and the END record is built from the overridden outcome and the battle's duration |
| Emerald.BattleEndSummarised | daemon/agentic_emerald.py:985-1035 | every battle_end, with or without a prior battle_start, sends a BATTLE_SUMMARY holding the tracked buffer followed by its END record; afterwards the buffer is empty and the battle is over; the reward bookkeeping, session history and dispatch queue are untouched |
| Emerald.BattleEndCounts | daemon/agentic_emerald.py:1003-1006 | a battle counts as won exactly when its overridden outcome is a win, as a close call exactly when it is also close; a level-up turns an unknown, lost or fled battle into a counted win; catches are not counted here |
| Emerald.BattleEndHistory | daemon/agentic_emerald.py:1009-1017 | the battle joins the history as its newest entry with its enemy and closeness, older entries kept, and the history never exceeds ten |
| Emerald.StrayEndAdmitted | daemon/agentic_emerald.py:428-446 | a summary without a START record scores as a clean wild battle (0.2) when not close, so the default threshold admits it |
| Emerald.ProcessKeepsInvariant | daemon/agentic_emerald.py:905-1124 | every telemetry event keeps the daemon invariant |
| Emerald.ProcessLeavesResponses | daemon/agentic_emerald.py:905-1124 | no event touches the reward bookkeeping or the session history; battle_end, badge_obtained, pokemon_caught and move_mastery always reach prompt_agent_async; any other event type sends nothing and changes only the latest record (and, for battle_start, the tracker) |
| Emerald.ProcessSingleFlight | daemon/agentic_emerald.py:555-558 | while a dispatch is in flight, no event starts another one and the one in flight is unchanged |
| Emerald.BadgeAlwaysSent | daemon/agentic_emerald.py:1059-1065 | at any threshold up to 1 a badge is always dispatched: started when idle, queued at the end of the pending list when busy |
| Emerald.EmeraldGM.constructor | daemon/agentic_emerald.py:90-197 | the new daemon holds the given settings, starts in the initial state (session history restored only in persistent mode) and satisfies the invariant |
| Emerald.EmeraldGM.DetectTrainerRematch | daemon/agentic_emerald.py:391-412 | the answer and the new ledger are those of the rematch detector; nothing else in the tracker changes |
| Emerald.EmeraldGM.CapturePrompt | daemon/agentic_emerald.py:866-872 | captures everything the prompt reads, the skipped events among them, and clears the skipped list |
| Emerald.EmeraldGM.BuildPrompt | daemon/agentic_emerald.py:766-903 | the prompt is agentic_emerald.py's prompt over the inputs of the dispatch in flight |
| Emerald.EmeraldGM.PromptAgentAsync | daemon/agentic_emerald.py:537-561 | the imperative gate, skip cap, queue and start leave the fields exactly as the arrival function says, and a valid state stays valid |
| Emerald.EmeraldGM.AddToSessionHistory | daemon/agentic_emerald.py:251-261 | the interaction is appended in persistent mode only |
| Emerald.EmeraldGM.BookReward | daemon/agentic_emerald.py:619-632 | the reward bookkeeping becomes the recorded state of the label: last ten labels, drought reset or lengthened, visible count raised on a visible label |
| Emerald.EmeraldGM.HandleResponse | daemon/agentic_emerald.py:576-668 | the fields and the commands are those of the response function |
| Emerald.EmeraldGM.FinishAgent | daemon/agentic_emerald.py:576-676 | from a valid state, the fields, commands and next dispatch step are those of the completion function, and the state stays valid |
| Emerald.EmeraldGM.OnBattleStart | daemon/agentic_emerald.py:910-953 | the fields become the battle_start state |
| Emerald.EmeraldGM.CountBattle | daemon/agentic_emerald.py:1003-1006 | a win raises the win count, a close win also the close-call count, and nothing else changes |
| Emerald.EmeraldGM.PushBattleRecord | daemon/agentic_emerald.py:1009-1017 | the record is appended and the oldest is dropped beyond ten |
| Emerald.EmeraldGM.RecordBattleEnd | daemon/agentic_emerald.py:955-1035 | the fields and the summary are those of the battle_end bookkeeping function |
| Emerald.EmeraldGM.OnBattleEnd | daemon/agentic_emerald.py:955-1035 | the fields and the dispatch step are those of the battle_end branch |
| Emerald.EmeraldGM.OnExplorationSummary | daemon/agentic_emerald.py:1037-1057 | the fields and the step are those of the exploration branch: nothing happens when there is nothing to report |
| Emerald.EmeraldGM.OnPokemonCaught | daemon/agentic_emerald.py:1094-1105 | the catch is counted and the event dispatched, as the caught branch says |
| Emerald.EmeraldGM.OnMoveMastery | daemon/agentic_emerald.py:1107-1119 | the usage count is recorded and the event dispatched with the move's name, as the mastery branch says |
| Emerald.EmeraldGM.ProcessEvent | daemon/agentic_emerald.py:905-1124 | from a valid state, the fields and the step are those of the event-routing function, and the state stays valid |
| Maya.InitialInvariant | daemon/maya_gm.py:89-130 | a freshly constructed daemon is idle, with nothing pending and zero totals, and satisfies the daemon invariant (busy exactly when a dispatch is in flight, at most ten battles in the history) |
| Maya.PromptAgent | daemon/maya_gm.py:356-367 | the dispatch queue moves exactly as the shared single-flight queue's arrival step says, with every event admitted |
| Maya.NothingSkipped | daemon/maya_gm.py:356-367 | maya_gm.py has no gate: an event arriving while busy is queued at the end with nothing else changed; one arriving while idle starts a dispatch whose prompt opens with its event line |
| Maya.PromptAgentKeepsInvariant | daemon/maya_gm.py:356-367 | every arrival keeps the daemon invariant |
| Maya.CommandsFromAction | daemon/maya_gm.py:385-435 | at most one command runs, exactly when the stripped response's last ACTION line among its first ten is neither empty nor "none"; a command piping into nc carries a " -w " or " -q " timeout |
| Maya.FinishKeepsInvariant | daemon/maya_gm.py:446-451 | completion keeps the invariant and moves the queue as the shared completion step says: idle with nothing pending, otherwise the oldest pending event starts; totals, battles, tracker and move usage are untouched |
| Maya.BattleStartResets | daemon/maya_gm.py:590-620 | battle_start only touches the tracker: the buffer becomes one START record of kind TRAINER or WILD naming the enemy and its team "<name> L<level>" in order; the HP baseline has exactly the party's slots, and both baselines hold each slot's HP and level |
| Maya.BattleEndSummarised | daemon/maya_gm.py:622-723 | a battle ending is summarised exactly when its overridden outcome is unknown, won, lost, fled or caught; the summary holds the tracked buffer, the END record and, for a capture, a CAUGHT record naming the last party member's species; afterwards the buffer is empty and the dispatch state is untouched |
| Maya.BattleEndCounts | daemon/maya_gm.py:693-707 | a battle counts as won exactly when its overridden outcome is a win, a capture exactly when it is 7, a close call exactly when it is a close win; a level-up turns an unknown, lost or fled battle into a counted win |
| Maya.UnsentEndRecorded | daemon/maya_gm.py:683-723 | an outcome that is not sent on (3) still joins the battle history with its enemy and outcome name and clears the buffer, but dispatches nothing and moves no total |
| Maya.BattleEndHistory | daemon/maya_gm.py:683-691 | the battle joins the history as its newest entry with its enemy and closeness, older entries kept, and the history never exceeds ten |
| Maya.ProcessKeepsInvariant | daemon/maya_gm.py:580-842 | every telemetry event keeps the daemon invariant |
| Maya.CaughtOnlyLoggedBadgeSent | daemon/maya_gm.py:765-777 | a pokemon_caught record is only logged (nothing sent, nothing but the latest record changed); a badge is always sent, started when idle and queued at the end when busy |
| Maya.ProcessSingleFlight | daemon/maya_gm.py:356-361 | while a dispatch is in flight, no event starts another one and the one in flight is unchanged |
| Maya.MayaGM.constructor | daemon/maya_gm.py:89-130 | the new daemon holds the given settings, starts in the initial state and satisfies the invariant |
| Maya.MayaGM.PromptAgentAsync | daemon/maya_gm.py:356-367 | the imperative queue and start leave the fields exactly as the arrival function says, and a valid state stays valid |
| Maya.MayaGM.BuildPrompt | daemon/maya_gm.py:456-578 | the prompt is maya_gm.py's prompt over the inputs of the dispatch in flight, and it opens with the event line |
| Maya.MayaGM.HandleResponse | daemon/maya_gm.py:385-435 | the commands are those of the response function: at most the one ACTION command |
| Maya.MayaGM.FinishAgent | daemon/maya_gm.py:385-451 | from a valid state, the fields, commands and next dispatch step are those of the completion function, and the state stays valid |
| Maya.MayaGM.OnBattleStart | daemon/maya_gm.py:590-620 | the fields become the battle_start state |
| Maya.MayaGM.CountBattle | daemon/maya_gm.py:693-707 | the totals become the counted totals: close win first, then a win or a capture among the outcomes sent on |
| Maya.MayaGM.RecordBattleEnd | daemon/maya_gm.py:622-723 | the fields and the optional summary are those of the battle_end bookkeeping function |
| Maya.MayaGM.OnBattleEnd | daemon/maya_gm.py:622-723 | the fields and the optional dispatch step are those of the battle_end branch |
| Maya.MayaGM.OnExplorationSummary | daemon/maya_gm.py:731-763 | the fields and the step are those of the exploration branch: nothing happens when there is nothing to report |
| Maya.MayaGM.OnMoveMastery | daemon/maya_gm.py:779-793 | the usage count is recorded and the event dispatched with the move's name, as the mastery branch says |
| Maya.MayaGM.ProcessEvent | daemon/maya_gm.py:580-842 | from a valid state, the fields and the step are those of the event-routing function, and the state stays valid |
| Text.PushCapped | daemon/agentic_emerald.py:544-552 | appending to a capped list keeps at most the cap, makes the new entry the newest, and grows by exactly one below the cap |
| Text.PushCappedKeepsNewest | daemon/agentic_emerald.py:544-552 | what is kept is the newest entries (as many as the cap allows) of the list with the new one appended |
| Emerald.GmCallCommands | daemon/agentic_emerald.py:634-636 | one socket relay per extracted GM call, in order |
| Maya.EnemyTeam | daemon/maya_gm.py:607 | one team entry per enemy party member |

## Left out

- Socket transport is left out as I/O. That covers connecting to the emulator, the receive loop, `send_command` and reconnection. Telemetry records come in already decoded.
- Backend calls are left out as calls to foreign processes and APIs. That covers the four agent modes, maya_gm.py's subprocess, and its polling for the response file. The answer is a parameter. maya_gm.py's `.strip()` of the file's contents is modelled.
- Running the relay commands (`echo ... | nc`, `subprocess.run`) is left out as shell and network side effects. The model produces the list of commands that would run.
- Threading is left out. Dispatch is sequential, and the busy flag is raised when a dispatch starts. The source raises `agent_busy` inside the new thread, so two events arriving back to back can both start. The single-flight lemmas hold for the sequential model only.
- The model captures a prompt's inputs when its dispatch starts. In the source, `build_prompt` runs a moment later inside the thread.
- File and configuration I/O is left out. That covers loading the config, species tables and system prompt, loading and saving session.json, `write_event`, session-id files and Dytto context. Reading PLAYTHROUGH.md is also left out, but the arc filter is modelled over the file's text.
- The prompt text that `_add_to_session_history` also stores is only ever written to session.json, so history entries leave it out.
- Logging and presentation are left out: colours, banners, `log`/`print`, and the progress lines printed while executing.
- Event types that only log, or only write an event file, are left out; the model leaves the state unchanged for them. In agentic_emerald.py these are party_changed (daemon/agentic_emerald.py:1067) and connected (:1121). In maya_gm.py they are map_transition (daemon/maya_gm.py:725), item_pickup (:795), party_changed (:799), connected (:834) and periodic_state (:837). The 30-second debounce of the party log is left out with the logging.
- maya_gm.py's `last_in_battle` and `last_map` are left out. They are written at the end of `process_event` and read nowhere in the modelled core.
- Floats are modelled as exact reals. Rounding in the average HP fraction and in timestamps is not modelled.
- `int()` of a float is modelled as truncation toward zero.
- The regular-expression classes `\w`, `\d` and `\s`, and `str.lower()`/`str.strip()`, are modelled over ASCII only.
- The rematch key `f"{species}_{level}"` is modelled as the pair (species, level). The string key is injective over integer pairs, so the two behave the same.
- The static tables (species names, `MOVE_NAMES`) are map parameters.
- Each party slot is modelled with all its keys present. Other telemetry fields hold the value the source reads, with its `.get` default already applied.
- The uncertainty threshold is a constructor parameter. The source always uses the default 0.15. Every score is at least 0.2, so no event is ever skipped at that default; `Gate.DefaultAdmitsAll` proves this.
- The running totals, the reward bookkeeping and the battle tracker are grouped into one record field each.
- maya_gm.py's START record carries no trainer, double, Safari or rematch flags, so the model sets them all to false. maya_gm.py's `build_prompt` does not read them.
- In the battle_end branches, the model empties the buffer before the summary is handed to `prompt_agent_async`; the source empties it after. The summary holds its own copy of the buffer, and `build_prompt` reads neither the buffer nor the flag, so the order changes nothing.
- The conversation trimming of the direct backend mode is left out with the backend calls.
- Parser.EmeraldShellCommand: states when the fallback command runs and that its `nc` pipe has a timeout. It does not state what rewriting the `HOST` placeholder produces.
