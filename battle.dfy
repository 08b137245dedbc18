/** What the battle_end branch of `process_event` derives from the party it receives and
    the baseline recorded at battle_start, in both daemons: the level-up override of the
    outcome, the average HP and close-call flag, the damage dictionary, the duration and
    the capped battle history. */
module Battle {
  import opened Optional
  import opened Text
  import opened Events
  import opened Party

  /** Source outcome codes. */
  const OUTCOME_UNKNOWN: int := 0
  const OUTCOME_WON: int := 1
  const OUTCOME_LOST: int := 2
  const OUTCOME_FLED: int := 4
  const OUTCOME_CAUGHT: int := 7

  /** `MAX_BATTLE_HISTORY` (both daemons keep ten battles). */
  const MaxBattleHistory: nat := 10

  /** The close-call limit on the average HP fraction. */
  const CloseCallLimit: real := 0.25

  /** `baseline.get(i, default)` for a slot-indexed baseline dictionary. */
  function Baseline(baseline: map<int, int>, i: int, default: int): int {
    if i in baseline then baseline[i] else default
  }

  /** `{i: f(p) for i, p in enumerate(party)}` for the HP and level baselines. */
  function HpBaseline(party: seq<Mon>): (r: map<int, int>)
    ensures forall i :: i in r <==> 0 <= i < |party|
    ensures forall i :: 0 <= i < |party| ==> r[i] == party[i].currentHp
  {
    map i | 0 <= i < |party| :: party[i].currentHp
  }

  function LevelBaseline(party: seq<Mon>): (r: map<int, int>)
    ensures forall i :: i in r <==> 0 <= i < |party|
    ensures forall i :: 0 <= i < |party| ==> r[i] == party[i].level
  {
    map i | 0 <= i < |party| :: party[i].level
  }

  // ---------------------------------------------------------------------------
  // Level-up override

  /** agentic_emerald.py: some slot's level exceeds its baseline, a slot without a
      baseline counting from level 0. */
  predicate LevelRoseFromZero(party: seq<Mon>, levels: map<int, int>) {
    exists i :: 0 <= i < |party| && party[i].level > Baseline(levels, i, 0)
  }

  /** maya_gm.py's `level_ups` list: one "<name> L<start>→<current>" line per slot above
      its baseline, a slot without a baseline counting from its current level (so it never
      appears). The arrow is the file's double-encoded one. */
  function LevelUps(names: map<int, string>, party: seq<Mon>, levels: map<int, int>): (r: seq<string>)
    ensures |r| > 0 <==> exists i :: 0 <= i < |party| && party[i].level > Baseline(levels, i, party[i].level)
  {
    if party == [] then []
    else
      var n := |party| - 1;
      var front := LevelUps(names, party[..n], levels);
      var p := party[n];
      var start := Baseline(levels, n, p.level);
      assert forall i :: 0 <= i < n ==> party[..n][i] == party[i];
      if p.level > start then
        front + [SpeciesName(names, p.species) + " L" + IntToString(start) + MayaArrow + IntToString(p.level)]
      else front
  }

  const MayaArrow: string := "\U{E2}\U{2020}\U{2019}"

  /** maya_gm.py's level-up test is stricter than agentic_emerald.py's: a level-up it sees
      is one the other daemon sees too, for the same baseline. */
  lemma MayaLevelUpImpliesEmerald(names: map<int, string>, party: seq<Mon>, levels: map<int, int>)
    requires |LevelUps(names, party, levels)| > 0
    ensures LevelRoseFromZero(party, levels)
  {
    var i :| 0 <= i < |party| && party[i].level > Baseline(levels, i, party[i].level);
    assert i in levels;
  }

  /** A slot with no baseline never counts as a level-up for maya_gm.py. */
  lemma MayaIgnoresMissingBaseline(names: map<int, string>, party: seq<Mon>, levels: map<int, int>)
    requires forall i :: 0 <= i < |party| ==> i !in levels
    ensures LevelUps(names, party, levels) == []
  {
  }

  /** An unknown, lost or fled outcome (0, 2, 4) becomes 1/"won" when a level rose;
      every other outcome is kept. */
  function OverrideOutcome(outcome: int, name: string, rose: bool): (r: (int, string))
    ensures rose && outcome in {0, 2, 4} ==> r == (OUTCOME_WON, "won")
    ensures !(rose && outcome in {0, 2, 4}) ==> r == (outcome, name)
  {
    if rose && (outcome == 0 || outcome == 2 || outcome == 4) then (OUTCOME_WON, "won") else (outcome, name)
  }

  /** The stray-outcome scenario: a wild battle reported lost, with a level-up present,
      ends as "won". */
  lemma LostWithLevelUpIsWon(party: seq<Mon>, levels: map<int, int>)
    requires LevelRoseFromZero(party, levels)
    ensures OverrideOutcome(OUTCOME_LOST, "lost", LevelRoseFromZero(party, levels)) == (1, "won")
  {
  }

  // ---------------------------------------------------------------------------
  // Health statistics

  /** `avg_hp < 0.25`. */
  predicate WasClose(party: seq<Mon>) { AvgHpFraction(party) < CloseCallLimit }

  /** maya_gm.py's explicit branch (`was_close = False` for an empty party) agrees with
      the plain comparison agentic_emerald.py makes, and a close call needs a party. */
  lemma WasCloseCases(party: seq<Mon>)
    ensures WasClose(party) <==> party != [] && AvgHpFraction(party) < 0.25
    ensures party == [] ==> HpPercent(party) == 100
  {
  }

  /** A close call prints an HP percentage below 25. */
  lemma CloseCallPercent(party: seq<Mon>)
    requires WasClose(party)
    ensures HpPercent(party) < 25
  {
    var a := AvgHpFraction(party);
    if a >= 0.0 {
      assert a * 100.0 < 25.0;
    }
  }

  /** `int(time.time() - (self.battle_start_time or time.time()))`: a start time that is
      missing (or zero) makes the duration 0. */
  function Duration(now: real, startTime: Option<real>): (r: int)
    ensures startTime.None? ==> r == 0
    ensures startTime.Some? && startTime.value != 0.0 && now >= startTime.value ==> 0 <= r && r as real <= now - startTime.value
  {
    var st := if startTime.Some? && startTime.value != 0.0 then startTime.value else now;
    Trunc(now - st)
  }

  // ---------------------------------------------------------------------------
  // Damage dictionary

  /** The keys of a dictionary kept as an ordered list of pairs. */
  function Keys(d: DamageMap): set<string> {
    set j | 0 <= j < |d| :: d[j].0
  }

  predicate DistinctKeys(d: DamageMap) {
    forall i, j :: 0 <= i < j < |d| ==> d[i].0 != d[j].0
  }

  /** Every value is a positive amount. */
  predicate AllPositive(d: DamageMap) {
    forall j :: 0 <= j < |d| ==> d[j].1 > 0
  }

  /** `d[k] = v`: an existing key keeps its position and takes the new value; a new key
      goes to the end. */
  function DictSet(d: DamageMap, k: string, v: int): (r: DamageMap)
    ensures Keys(r) == Keys(d) + {k}
    ensures DistinctKeys(d) ==> DistinctKeys(r)
    ensures AllPositive(d) && v > 0 ==> AllPositive(r)
    ensures DistinctKeys(d) ==> forall j :: 0 <= j < |r| && r[j].0 == k ==> r[j].1 == v
  {
    if d == [] then
      KeysCons((k, v), []);
      [(k, v)]
    else if d[0].0 == k then
      KeysCons(d[0], d[1..]);
      KeysCons((k, v), d[1..]);
      assert d == [d[0]] + d[1..];
      [(k, v)] + d[1..]
    else
      var rest := DictSet(d[1..], k, v);
      KeysCons(d[0], d[1..]);
      KeysCons(d[0], rest);
      assert d == [d[0]] + d[1..];
      assert DistinctKeys(d) ==> DistinctKeys(d[1..]) && d[0].0 !in Keys(d[1..]);
      [d[0]] + rest
  }

  lemma KeysCons(x: (string, int), d: DamageMap)
    ensures Keys([x] + d) == {x.0} + Keys(d)
  {
    var r := [x] + d;
    forall y | y in Keys(r) ensures y in {x.0} + Keys(d) {
      var j :| 0 <= j < |r| && r[j].0 == y;
      if j > 0 { assert r[j] == d[j - 1]; }
    }
    forall y | y in Keys(d) ensures y in Keys(r) {
      var j :| 0 <= j < |d| && d[j].0 == y;
      assert r[j + 1] == d[j];
    }
    assert r[0] == x;
  }

  /** The HP a slot lost, when it lost some: the baseline (the slot's maximum when it has
      none) minus its current HP. */
  function SlotDrop(party: seq<Mon>, startHp: map<int, int>, i: nat): int
    requires i < |party|
  {
    Baseline(startHp, i, party[i].maxHp) - party[i].currentHp
  }

  /** The damage loop over the first `n` slots. */
  function DamageUpTo(names: map<int, string>, party: seq<Mon>, startHp: map<int, int>, n: nat): DamageMap
    requires n <= |party|
  {
    if n == 0 then []
    else
      var d := DamageUpTo(names, party, startHp, n - 1);
      var p := party[n - 1];
      if SlotDrop(party, startHp, n - 1) > 0
      then DictSet(d, SpeciesName(names, p.species), SlotDrop(party, startHp, n - 1))
      else d
  }

  /** `damage_taken`, keyed by species name as the source keys it. */
  function DamageTaken(names: map<int, string>, party: seq<Mon>, startHp: map<int, int>): DamageMap {
    DamageUpTo(names, party, startHp, |party|)
  }

  /** Slot `i` among the first `n` lost HP and carries the species name `x`. */
  predicate DroppedSlotNamed(names: map<int, string>, party: seq<Mon>, startHp: map<int, int>, n: nat, x: string)
    requires n <= |party|
  {
    exists i :: 0 <= i < n && SlotDrop(party, startHp, i) > 0 && SpeciesName(names, party[i].species) == x
  }

  /** The damage dictionary names exactly the species of the slots whose HP dropped. */
  lemma {:induction false} DamageKeys(names: map<int, string>, party: seq<Mon>, startHp: map<int, int>, n: nat)
    requires n <= |party|
    ensures forall x :: x in Keys(DamageUpTo(names, party, startHp, n)) <==> DroppedSlotNamed(names, party, startHp, n, x)
  {
    if n > 0 {
      DamageKeys(names, party, startHp, n - 1);
      forall x ensures DroppedSlotNamed(names, party, startHp, n, x) <==>
          DroppedSlotNamed(names, party, startHp, n - 1, x)
          || (SlotDrop(party, startHp, n - 1) > 0 && SpeciesName(names, party[n - 1].species) == x) {
        if DroppedSlotNamed(names, party, startHp, n, x) {
          var i :| 0 <= i < n && SlotDrop(party, startHp, i) > 0 && SpeciesName(names, party[i].species) == x;
          if i < n - 1 {
            assert DroppedSlotNamed(names, party, startHp, n - 1, x);
          }
        }
      }
    }
  }

  /** Each species appears in the damage dictionary once. */
  lemma {:induction false} DamageDistinct(names: map<int, string>, party: seq<Mon>, startHp: map<int, int>, n: nat)
    requires n <= |party|
    ensures DistinctKeys(DamageUpTo(names, party, startHp, n))
  {
    if n > 0 {
      DamageDistinct(names, party, startHp, n - 1);
    }
  }

  /** Every value of the damage dictionary is a positive loss. */
  lemma {:induction false} DamagePositive(names: map<int, string>, party: seq<Mon>, startHp: map<int, int>, n: nat)
    requires n <= |party|
    ensures AllPositive(DamageUpTo(names, party, startHp, n))
  {
    if n > 0 {
      DamagePositive(names, party, startHp, n - 1);
    }
  }

  /** With a baseline for one slot and HP lost by that slot only, the dictionary holds
      exactly that slot's loss. */
  lemma SingleSlotDamage(names: map<int, string>, m: Mon, start: int)
    requires start > m.currentHp
    ensures DamageTaken(names, [m], map[0 := start]) == [(SpeciesName(names, m.species), start - m.currentHp)]
  {
    assert SlotDrop([m], map[0 := start], 0) == start - m.currentHp;
    assert DamageUpTo(names, [m], map[0 := start], 0) == [];
  }

  /** The END record both daemons append at battle_end. */
  function EndRecord(names: map<int, string>, party: seq<Mon>, startHp: map<int, int>,
                     outcomeName: string, duration: int): BufferRecord {
    End(outcomeName, duration, HpPercent(party), WasClose(party), DamageTaken(names, party, startHp))
  }

  // ---------------------------------------------------------------------------
  // Battle history

  /** `history.append(x); if len(history) > cap: history.pop(0)`. */
  function AppendPopOldest(history: seq<BattleRecord>, x: BattleRecord, cap: nat): (r: seq<BattleRecord>)
    ensures |history| <= cap ==> |r| <= cap
    ensures 0 < cap && |history| <= cap ==> r == PushCapped(history, x, cap)
  {
    var h := history + [x];
    if |h| > cap then h[1..] else h
  }

  /** The START record's battle kind: "TRAINER" or "WILD" with the double, safari and
      rematch tags. */
  function BattleKind(isTrainer: bool, isDouble: bool, isSafari: bool, isRematch: bool): (r: string)
    ensures StartsWith(r, if isTrainer then "TRAINER" else "WILD")
  {
    (if isTrainer then "TRAINER" else "WILD")
      + (if isDouble then " (DOUBLE)" else "")
      + (if isSafari then " (SAFARI)" else "")
      + (if isRematch then " (REMATCH)" else "")
  }

  /** `current_enemy`: "<name> L<level>", with "?" for a missing level. */
  function EnemyLabel(names: map<int, string>, enemy: Enemy): string {
    SpeciesName(names, enemy.species) + " L" + (match enemy.level case Some(l) => IntToString(l) case None => "?")
  }
}
