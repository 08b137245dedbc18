/** Species names, party formatting and party health, shared by both daemons
    (`get_species_name`, `format_party` and the average-HP computations). The species
    table is a parameter: it is static data loaded from a file. */
module Party {
  import opened Text
  import opened Events

  /** `get_species_name`: "???" for ids <= 0, the table's name when there is one,
      otherwise "Pokemon #<id>". */
  function SpeciesName(names: map<int, string>, id: int): (r: string)
  {
    if id <= 0 then "???"
    else if id in names then names[id]
    else "Pokemon #" + IntToString(id)
  }

  /** The fallback name carries the species number, which can be read back. */
  lemma UnknownSpeciesNumber(names: map<int, string>, id: int)
    requires id > 0 && id !in names
    ensures var r := SpeciesName(names, id);
      StartsWith(r, "Pokemon #") && AllDigits(r[9..]) && ParseNat(r[9..]) == id
  {
    var r := SpeciesName(names, id);
    assert r[9..] == NatToString(id);
    ParseNatToString(id);
  }

  /** `MOVE_NAMES.get(move_id, f"Move #{move_id}")` in the move_mastery branch of both
      daemons: the table's name, or else the id. */
  function MasteryMoveName(moveNames: map<int, string>, id: int): string {
    if id in moveNames then moveNames[id] else "Move #" + IntToString(id)
  }

  /** One `format_party` entry: "<name> L<level> (<hp>/<max_hp>)". */
  function MonEntry(names: map<int, string>, m: Mon): string {
    SpeciesName(names, m.species) + " L" + IntToString(m.level)
      + " (" + IntToString(m.currentHp) + "/" + IntToString(m.maxHp) + ")"
  }

  function MonEntries(names: map<int, string>, party: seq<Mon>): (r: seq<string>)
    ensures |r| == |party|
    ensures forall i :: 0 <= i < |party| ==> r[i] == MonEntry(names, party[i])
  {
    if party == [] then [] else [MonEntry(names, party[0])] + MonEntries(names, party[1..])
  }

  /** `format_party`: "Empty", or the entries joined with ", ". */
  function FormatParty(names: map<int, string>, party: seq<Mon>): string {
    if party == [] then "Empty" else Join(MonEntries(names, party), ", ")
  }

  lemma {:induction false} JoinStartsWithFirst(parts: seq<string>, sep: string)
    requires |parts| >= 1
    ensures StartsWith(Join(parts, sep), parts[0])
  {
  }

  /** A formatted party reads "Empty" exactly when the party is empty: a real entry
      always has a blank right after the species name. */
  lemma FormatPartyEmpty(names: map<int, string>, party: seq<Mon>)
    ensures FormatParty(names, party) == "Empty" <==> party == []
  {
    if party != [] {
      var es := MonEntries(names, party);
      var e := es[0];
      var n := SpeciesName(names, party[0].species);
      JoinStartsWithFirst(es, ", ");
      var r := FormatParty(names, party);
      assert e[|n|] == ' ';
      assert r[|n|] == ' ';
      assert "Empty"[..] == ['E', 'm', 'p', 't', 'y'];
    }
  }

  // ---------------------------------------------------------------------------
  // Health

  function Max(a: int, b: int): int { if a >= b then a else b }

  /** `p.get('current_hp', 0) / max(p.get('max_hp', 1), 1)`, exactly. */
  function HpFraction(m: Mon): real {
    m.currentHp as real / Max(m.maxHp, 1) as real
  }

  function SumFractions(party: seq<Mon>): real {
    if party == [] then 0.0 else HpFraction(party[0]) + SumFractions(party[1..])
  }

  /** The average HP fraction of a party; an empty party counts as fully healthy. */
  function AvgHpFraction(party: seq<Mon>): real {
    if party == [] then 1.0 else SumFractions(party) / |party| as real
  }

  /** `int(avg_hp * 100)` as printed in "Party HP: <n>% avg" and stored as `hp_after`. */
  function HpPercent(party: seq<Mon>): int {
    Trunc(AvgHpFraction(party) * 100.0)
  }

  predicate HpInRange(party: seq<Mon>) {
    forall i :: 0 <= i < |party| ==> 0 <= party[i].currentHp <= party[i].maxHp
  }

  lemma {:induction false} SumFractionsBounds(party: seq<Mon>)
    requires HpInRange(party)
    ensures 0.0 <= SumFractions(party) <= |party| as real
  {
    if party != [] {
      var m := party[0];
      assert 0 <= m.currentHp <= Max(m.maxHp, 1);
      DivAtMostOne(m.currentHp as real, Max(m.maxHp, 1) as real);
      assert HpInRange(party[1..]) by {
        forall i | 0 <= i < |party[1..]| ensures 0 <= party[1..][i].currentHp <= party[1..][i].maxHp {
          assert party[1..][i] == party[i + 1];
        }
      }
      SumFractionsBounds(party[1..]);
    }
  }

  lemma DivAtMostOne(a: real, d: real)
    requires 0.0 <= a <= d && d > 0.0
    ensures 0.0 <= a / d <= 1.0
  {
    assert (a / d) * d == a;
  }

  /** When every slot's HP lies between 0 and its maximum, the average fraction lies in
      [0, 1] and the printed percentage in [0, 100]. */
  lemma AvgHpBounds(party: seq<Mon>)
    requires HpInRange(party)
    ensures 0.0 <= AvgHpFraction(party) <= 1.0
    ensures 0 <= HpPercent(party) <= 100
  {
    if party != [] {
      SumFractionsBounds(party);
      var n := |party| as real;
      assert SumFractions(party) / n <= 1.0 by {
        assert SumFractions(party) <= n;
      }
    }
  }

  /** A party that has fainted entirely averages 0. */
  lemma {:induction false} FaintedPartyAverage(party: seq<Mon>)
    requires party != []
    requires forall i :: 0 <= i < |party| ==> party[i].currentHp == 0
    ensures AvgHpFraction(party) == 0.0 && HpPercent(party) == 0
  {
    FaintedSum(party);
  }

  lemma {:induction false} FaintedSum(party: seq<Mon>)
    requires forall i :: 0 <= i < |party| ==> party[i].currentHp == 0
    ensures SumFractions(party) == 0.0
  {
    if party != [] {
      FaintedSum(party[1..]);
    }
  }
}
