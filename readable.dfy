/** `get_readable_action` and `get_party_pokemon_name`, identical in both daemons: the
    first of a cascade of GM command patterns that occurs anywhere in the command decides
    the description; a command matching none is cut to 50 characters. The move table is
    a parameter (static data). */
module Readable {
  import opened Optional
  import opened Text
  import opened Events
  import opened Party
  import opened Matching

  /** The `stat_names` table. */
  const StatNames: map<string, string> := map[
    "hp" := "HP", "atk" := "Attack", "attack" := "Attack",
    "def" := "Defense", "defense" := "Defense",
    "spa" := "Sp. Atk", "spatk" := "Sp. Atk", "sp_attack" := "Sp. Atk",
    "spd" := "Sp. Def", "spdef" := "Sp. Def", "sp_defense" := "Sp. Def",
    "spe" := "Speed", "speed" := "Speed"]

  /** `stat_names.get(stat.lower(), stat)`. */
  function StatName(stat: string): (r: string)
    ensures Lower(stat) !in StatNames ==> r == stat
    ensures Lower(stat) in StatNames ==> r in StatNames.Values
  {
    if Lower(stat) in StatNames then StatNames[Lower(stat)] else stat
  }

  /** `get_party_pokemon_name`: the species name of a slot of the current party, or
      "Pokemon #<slot>" for a slot outside it. */
  function PokemonInSlot(names: map<int, string>, party: seq<Mon>, slot: int): (r: string)
    ensures 0 <= slot < |party| ==> r == SpeciesName(names, party[slot].species)
    ensures !(0 <= slot < |party|) ==> r == "Pokemon #" + IntToString(slot)
  {
    if 0 <= slot < |party| then SpeciesName(names, party[slot].species) else "Pokemon #" + IntToString(slot)
  }

  /** A match of a pattern that starts with "GM." is an occurrence of "GM.". */
  lemma OccursAtGm(s: string, p: string, i: nat)
    requires StartsWith(p, "GM.")
    ensures i <= |s| && StartsWith(s[i..], p) ==> OccursAt(s, "GM.", i)
  {
    if i <= |s| && StartsWith(s[i..], p) {
      assert s[i..i + 3] == s[i..][..|p|][..3];
    }
  }

  /** `["\']?` at the start of `t`: drops one quote. */
  function DropQuote(t: string): (r: string)
    ensures r == t || (t != [] && r == t[1..])
  {
    if t != [] && IsQuote(t[0]) then t[1..] else t
  }

  /** `\s*` at the start of `t`. */
  function DropSpaces(t: string): string { t[RunLen(t, Space)..] }

  // ---------------------------------------------------------------------------
  // The patterns of the cascade, each matched at the start of the rest of the command

  /** The groups of `GM\.addEVs\((\d+),\s*["\']?(\w+)["\']?,\s*(\d+)\)`: the slot as a
      number, the stat and the amount as written. */
  datatype EvGroups = EvGroups(slot: nat, stat: string, amount: string)

  function AddEvsPrefix(t: string): (r: Option<EvGroups>)
    ensures r.Some? ==> StartsWith(t, "GM.addEVs(")
  {
    if !StartsWith(t, "GM.addEVs(") then None
    else
      var t1 := t[10..];
      var n1 := RunLen(t1, Digit);
      var t2 := t1[n1..];
      if n1 == 0 || t2 == [] || t2[0] != ',' then None
      else
        var t4 := DropQuote(DropSpaces(t2[1..]));
        var n2 := RunLen(t4, WordChar);
        var t5 := DropQuote(t4[n2..]);
        if n2 == 0 || t5 == [] || t5[0] != ',' then None
        else
          var t7 := DropSpaces(t5[1..]);
          var n3 := RunLen(t7, Digit);
          if n3 == 0 || n3 == |t7| || t7[n3] != ')' then None
          else
            RunLenFacts(t1, Digit);
            Some(EvGroups(ParseNat(t1[..n1]), t4[..n2], t7[..n3]))
  }

  function AddEvsAt(s: string, i: nat): (r: Option<EvGroups>)
    ensures r.Some? ==> OccursAt(s, "GM.", i)
  {
    if i > |s| then None
    else
      var r := AddEvsPrefix(s[i..]);
      OccursAtGm(s, "GM.addEVs(", i);
      r
  }

  /** The groups of a pattern `<lit>(\d+),\s*(\d+)`, optionally followed by `\)`: both
      numbers, and the second as written. */
  datatype TwoNumbers = TwoNumbers(first: nat, second: nat, secondText: string)

  function TwoNumbersPrefix(t: string, lit: string, closed: bool): (r: Option<TwoNumbers>)
    ensures r.Some? ==> StartsWith(t, lit)
  {
    if !StartsWith(t, lit) then None
    else
      var t1 := t[|lit|..];
      var n1 := RunLen(t1, Digit);
      var t2 := t1[n1..];
      if n1 == 0 || t2 == [] || t2[0] != ',' then None
      else
        var t3 := DropSpaces(t2[1..]);
        var n2 := RunLen(t3, Digit);
        if n2 == 0 || (closed && (n2 == |t3| || t3[n2] != ')')) then None
        else
          RunLenFacts(t1, Digit);
          RunLenFacts(t3, Digit);
          Some(TwoNumbers(ParseNat(t1[..n1]), ParseNat(t3[..n2]), t3[..n2]))
  }

  function TwoNumbersAt(s: string, i: nat, lit: string, closed: bool): (r: Option<TwoNumbers>)
    requires StartsWith(lit, "GM.")
    ensures r.Some? ==> OccursAt(s, "GM.", i)
  {
    if i > |s| then None
    else
      var r := TwoNumbersPrefix(s[i..], lit, closed);
      OccursAtGm(s, lit, i);
      r
  }

  function TeachMoveAt(s: string, i: nat): (r: Option<TwoNumbers>)
    ensures r.Some? ==> OccursAt(s, "GM.", i)
  {
    TwoNumbersAt(s, i, "GM.teachMove(", false)
  }

  function GiveItemAt(s: string, i: nat): (r: Option<TwoNumbers>)
    ensures r.Some? ==> OccursAt(s, "GM.", i)
  {
    TwoNumbersAt(s, i, "GM.giveItem(", true)
  }

  function AddExperienceAt(s: string, i: nat): (r: Option<TwoNumbers>)
    ensures r.Some? ==> OccursAt(s, "GM.", i)
  {
    TwoNumbersAt(s, i, "GM.addExperience(", true)
  }

  function SetFriendshipAt(s: string, i: nat): (r: Option<TwoNumbers>)
    ensures r.Some? ==> OccursAt(s, "GM.", i)
  {
    TwoNumbersAt(s, i, "GM.setFriendship(", true)
  }

  /** The group of `GM\.(\w+)\(`: the function name. */
  function GmNameAt(s: string, i: nat): (r: Option<string>)
    ensures r.Some? ==> OccursAt(s, "GM.", i)
  {
    if !OccursAt(s, "GM.", i) then None
    else
      var t := s[i + 3..];
      var n := RunLen(t, WordChar);
      if n == 0 || n == |t| || t[n] != '(' then None else Some(t[..n])
  }

  /** `get_readable_action`. */
  function ReadableAction(names: map<int, string>, moveNames: map<int, string>, party: seq<Mon>, cmd: string): string {
    match Search(cmd, AddEvsAt)
    case Some(m) =>
      PokemonInSlot(names, party, m.slot) + " gains +" + m.amount + " " + StatName(m.stat) + " training"
    case None =>
      if Contains(cmd, "GM.healParty()") then "Party fully restored!"
      else match Search(cmd, TeachMoveAt)
      case Some(g) =>
        PokemonInSlot(names, party, g.first) + " learned "
          + (if g.second in moveNames then moveNames[g.second] else "new move") + "!"
      case None =>
        match Search(cmd, GiveItemAt)
        case Some(g) => PokemonInSlot(names, party, g.first) + " received an item"
        case None =>
          match Search(cmd, AddExperienceAt)
          case Some(g) => PokemonInSlot(names, party, g.first) + " gains +" + g.secondText + " bonus EXP"
          case None =>
            match Search(cmd, SetFriendshipAt)
            case Some(g) => PokemonInSlot(names, party, g.first) + "'s bond strengthens"
            case None =>
              match Search(cmd, GmNameAt)
              case Some(name) => "GM." + name + "()"
              case None => Take(cmd, 50)
  }

  // ---------------------------------------------------------------------------
  // Properties

  /** A command that mentions no "GM." call is described by its first 50 characters. */
  lemma NoGmCallIsTruncated(names: map<int, string>, moveNames: map<int, string>, party: seq<Mon>, cmd: string)
    requires !Contains(cmd, "GM.")
    ensures ReadableAction(names, moveNames, party, cmd) == Take(cmd, 50)
  {
    SearchNeedsGm(cmd, AddEvsAt);
    if Contains(cmd, "GM.healParty()") {
      var k := IndexOf(cmd, "GM.healParty()").value;
      assert cmd[k..][..14] == cmd[k..k + 14];
      OccursAtGm(cmd, "GM.healParty()", k);
    }
    SearchNeedsGm(cmd, TeachMoveAt);
    SearchNeedsGm(cmd, GiveItemAt);
    SearchNeedsGm(cmd, AddExperienceAt);
    SearchNeedsGm(cmd, SetFriendshipAt);
    SearchNeedsGm(cmd, GmNameAt);
  }

  /** `GM.addEVs(<slot>, <q><stat><q>, <amount>)`, with the stat quoted by `"`, by `'` or
      not at all. */
  function AddEvsCommand(slot: nat, q: string, stat: string, amount: nat): string {
    "GM.addEVs(" + (NatToString(slot) + (", " + (q + (stat + (q + (", " + (NatToString(amount) + ")")))))))
  }

  /** Rendering an EV award and reading it back: the command is described with the
      slot's Pokemon, the amount as written and the stat's display name. */
  lemma AddEvsRoundTrip(names: map<int, string>, moveNames: map<int, string>, party: seq<Mon>,
                        slot: nat, q: string, stat: string, amount: nat)
    requires q == "" || q == "\"" || q == "'"
    requires stat != [] && forall k :: 0 <= k < |stat| ==> IsWordChar(stat[k])
    ensures ReadableAction(names, moveNames, party, AddEvsCommand(slot, q, stat, amount))
            == PokemonInSlot(names, party, slot) + " gains +" + NatToString(amount) + " " + StatName(stat) + " training"
  {
    var s := AddEvsCommand(slot, q, stat, amount);
    AddEvsMatch(slot, q, stat, amount);
    assert s[0..] == s;
  }

  /** The EV pattern matches its own rendering, with the same groups. */
  lemma AddEvsMatch(slot: nat, q: string, stat: string, amount: nat)
    requires q == "" || q == "\"" || q == "'"
    requires stat != [] && forall k :: 0 <= k < |stat| ==> IsWordChar(stat[k])
    ensures AddEvsPrefix(AddEvsCommand(slot, q, stat, amount)) == Some(EvGroups(slot, stat, NatToString(amount)))
  {
    var ns, na := NatToString(slot), NatToString(amount);
    var tail := ", " + (na + ")");
    var t4 := stat + (q + tail);
    var t2 := ", " + (q + t4);
    var t1 := ns + t2;
    EvHead(slot, q, stat, amount);
    EvSpacedQuote(q, t4);
    EvStat(q, stat, tail);
    EvAmount(na);
    ParseNatToString(slot);
  }

  /** `GM\.addEVs\((\d+)` over the slot. */
  lemma EvHead(slot: nat, q: string, stat: string, amount: nat)
    ensures var ns := NatToString(slot);
      var t2 := ", " + (q + (stat + (q + (", " + (NatToString(amount) + ")")))));
      var t := AddEvsCommand(slot, q, stat, amount);
      && StartsWith(t, "GM.addEVs(") && t[10..] == ns + t2
      && RunLen(ns + t2, Digit) == |ns| && (ns + t2)[|ns|..] == t2 && (ns + t2)[..|ns|] == ns
  {
    var ns, na := NatToString(slot), NatToString(amount);
    var t2 := ", " + (q + (stat + (q + (", " + (na + ")")))));
    var t1 := ns + t2;
    var t := AddEvsCommand(slot, q, stat, amount);
    assert t == "GM.addEVs(" + t1;
    assert t[10..] == t1;
    RunLenConcat(ns, t2, Digit);
    assert t1[|ns|..] == t2 && t1[..|ns|] == ns;
  }

  /** `,\s*["\']?` before the stat. */
  lemma EvSpacedQuote(q: string, t4: string)
    requires q == "" || q == "\"" || q == "'"
    requires t4 != [] && IsWordChar(t4[0])
    ensures var t2 := ", " + (q + t4); t2[0] == ',' && DropQuote(DropSpaces(t2[1..])) == t4
  {
    var t2 := ", " + (q + t4);
    assert t2[1..] == " " + (q + t4);
    assert (q + t4)[0] == (if q == "" then t4[0] else q[0]);
    RunLenConcat(" ", q + t4, Space);
    assert DropSpaces(t2[1..]) == q + t4;
  }

  /** `(\w+)["\']?,` over the stat. */
  lemma EvStat(q: string, stat: string, tail: string)
    requires q == "" || q == "\"" || q == "'"
    requires stat != [] && forall k :: 0 <= k < |stat| ==> IsWordChar(stat[k])
    requires tail != [] && tail[0] == ','
    ensures var t4 := stat + (q + tail);
      && IsWordChar(t4[0])
      && RunLen(t4, WordChar) == |stat| && t4[..|stat|] == stat && DropQuote(t4[|stat|..]) == tail
  {
    assert (q + tail)[0] == (if q == "" then ',' else q[0]);
    RunLenConcat(stat, q + tail, WordChar);
    var t4 := stat + (q + tail);
    assert t4[..|stat|] == stat && t4[|stat|..] == q + tail;
  }

  /** `,\s*(\d+)\)` over the amount. */
  lemma EvAmount(na: string)
    requires |na| >= 1 && AllDigits(na)
    ensures var tail := ", " + (na + ")");
      var t7 := DropSpaces(tail[1..]);
      && tail[0] == ',' && t7 == na + ")"
      && RunLen(t7, Digit) == |na| && t7[|na|] == ')' && t7[..|na|] == na
  {
    var tail := ", " + (na + ")");
    assert tail[1..] == " " + (na + ")");
    assert (na + ")")[0] == na[0];
    DigitNotSpace(na[0]);
    RunLenConcat(" ", na + ")", Space);
    RunLenConcat(na, ")", Digit);
    assert (na + ")")[..|na|] == na;
  }

  lemma DigitNotSpace(c: char)
    requires IsDigit(c)
    ensures !IsSpace(c)
  {
  }

  /** `GM.healParty()` on its own reads "Party fully restored!". */
  lemma HealPartyReadable(names: map<int, string>, moveNames: map<int, string>, party: seq<Mon>)
    ensures ReadableAction(names, moveNames, party, "GM.healParty()") == "Party fully restored!"
  {
    var s := "GM.healParty()";
    forall i: nat ensures AddEvsAt(s, i).None? {
      if OccursAt(s, "GM.addEVs(", i) {
        assert s[i..i + 10] == "GM.addEVs(";
        assert s[i] == 'G';
        assert i == 0;
        assert s[3] == 'h';
      }
    }
    ContainsPrefix(s, "GM.healParty()");
  }
}
