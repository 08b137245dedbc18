/** The exploration_summary branch of `process_event` in both daemons: the pieces of the
    one-line summary, and whether the branch prompts the agent at all (only when some
    piece is present). The two files format money differently and only maya_gm.py lists
    level-ups. */
module Exploration {
  import opened Optional
  import opened Text
  import opened Events
  import opened Party
  import opened Battle

  /** The separators the two files join the pieces with (maya_gm.py's is stored
      double-encoded). */
  const EmeraldSeparator: string := " \U{2502} "
  const MayaSeparator: string := " \U{E2}\U{201D}\U{201A} "

  function ItemsPart(items: int): seq<string> {
    if items > 0 then ["+" + IntToString(items) + " items"] else []
  }

  function NpcsPart(dialogues: int): seq<string> {
    if dialogues > 0 then [IntToString(dialogues) + " NPCs"] else []
  }

  /** agentic_emerald.py: `f"${'+' if money > 0 else ''}{money}"` for a non-zero change. */
  function EmeraldMoney(money: int): seq<string> {
    if money != 0 then ["$" + (if money > 0 then "+" else "") + IntToString(money)] else []
  }

  /** maya_gm.py: `+$<n>` for a gain and `-$<n>` for a loss. */
  function MayaMoney(money: int): seq<string> {
    if money > 0 then ["+$" + IntToString(money)]
    else if money < 0 then ["-$" + IntToString(-money)]
    else []
  }

  /** The two files agree on which changes are reported, and differ only in where the
      sign goes: "$+5" and "$-5" against "+$5" and "-$5". */
  lemma MoneyFormats(money: int)
    ensures |EmeraldMoney(money)| == |MayaMoney(money)| == (if money == 0 then 0 else 1)
    ensures money > 0 ==> EmeraldMoney(money) == ["$+" + NatToString(money)] && MayaMoney(money) == ["+$" + NatToString(money)]
    ensures money < 0 ==> EmeraldMoney(money) == ["$-" + NatToString(-money)] && MayaMoney(money) == ["-$" + NatToString(-money)]
  {
    if money < 0 {
      assert "$" + "" + ("-" + NatToString(-money)) == "$-" + NatToString(-money);
    } else if money > 0 {
      assert "$" + "+" + NatToString(money) == "$+" + NatToString(money);
    }
  }

  /** agentic_emerald.py's pieces: items, money, NPCs. */
  function EmeraldParts(data: Telemetry): seq<string> {
    ItemsPart(data.itemsGained) + EmeraldMoney(data.moneyChange) + NpcsPart(data.dialogueCount)
  }

  /** maya_gm.py's piece for one level-up ("None" for a missing level). */
  function LevelUpPart(names: map<int, string>, lu: LevelUp): string {
    SpeciesName(names, lu.species) + " L" + OptionText(lu.oldLevel) + MayaArrow + OptionText(lu.newLevel)
  }

  function OptionText(x: Option<int>): string {
    match x
    case Some(v) => IntToString(v)
    case None => "None"
  }

  function LevelUpParts(names: map<int, string>, levelUps: seq<LevelUp>): (r: seq<string>)
    ensures |r| == |levelUps|
    ensures forall k :: 0 <= k < |levelUps| ==> r[k] == LevelUpPart(names, levelUps[k])
  {
    if levelUps == [] then [] else [LevelUpPart(names, levelUps[0])] + LevelUpParts(names, levelUps[1..])
  }

  /** maya_gm.py's pieces: items, money, NPCs, then one per level-up. */
  function MayaParts(names: map<int, string>, data: Telemetry): seq<string> {
    ItemsPart(data.itemsGained) + MayaMoney(data.moneyChange) + NpcsPart(data.dialogueCount)
      + LevelUpParts(names, data.levelUps)
  }

  /** The summary line, or None when nothing happened and the branch stays silent. */
  function Summary(parts: seq<string>, sep: string): Option<string> {
    if parts == [] then None else Some(Join(parts, sep))
  }

  /** agentic_emerald.py prompts exactly when items were gained, money changed or an NPC
      was talked to, and its summary names each of those pieces. */
  lemma EmeraldSummaryFacts(data: Telemetry)
    ensures Summary(EmeraldParts(data), EmeraldSeparator).Some?
            <==> data.itemsGained > 0 || data.moneyChange != 0 || data.dialogueCount > 0
    ensures |EmeraldParts(data)| == (if data.itemsGained > 0 then 1 else 0) + (if data.moneyChange != 0 then 1 else 0)
                                    + (if data.dialogueCount > 0 then 1 else 0)
    ensures forall k :: 0 <= k < |EmeraldParts(data)| ==>
              Contains(Summary(EmeraldParts(data), EmeraldSeparator).value, EmeraldParts(data)[k])
  {
    var parts := EmeraldParts(data);
    forall k | 0 <= k < |parts| ensures Contains(Join(parts, EmeraldSeparator), parts[k]) {
      JoinContains(parts, EmeraldSeparator, k);
    }
  }

  /** maya_gm.py prompts exactly when items were gained, money changed, an NPC was talked
      to or a level rose, and its summary names each piece, level-ups last. */
  lemma MayaSummaryFacts(names: map<int, string>, data: Telemetry)
    ensures Summary(MayaParts(names, data), MayaSeparator).Some?
            <==> data.itemsGained > 0 || data.moneyChange != 0 || data.dialogueCount > 0 || data.levelUps != []
    ensures forall k :: 0 <= k < |MayaParts(names, data)| ==>
              Contains(Summary(MayaParts(names, data), MayaSeparator).value, MayaParts(names, data)[k])
    ensures forall k :: 0 <= k < |data.levelUps| ==>
              MayaParts(names, data)[|MayaParts(names, data)| - |data.levelUps| + k] == LevelUpPart(names, data.levelUps[k])
  {
    var parts := MayaParts(names, data);
    MoneyFormats(data.moneyChange);
    forall k | 0 <= k < |parts| ensures Contains(Join(parts, MayaSeparator), parts[k]) {
      JoinContains(parts, MayaSeparator, k);
    }
  }
}
