/** The trainer rematch ledger of agentic_emerald.py (`detect_trainer_rematch`): a map
    from an enemy's species and level to the times it was fought, at most ten per key.
    The source's string key "<species>_<level>" is injective on integer pairs, so the
    model keys by the pair. Times are seconds, as reals. */
module Rematch {
  import opened Text

  type Key = (int, int)
  type Ledger = map<Key, seq<real>>

  /** The rematch window: 30 minutes. */
  const Window: real := 1800.0

  /** The most encounters kept per key. */
  const KeepPerKey: nat := 10

  /** `self.trainer_encounters.get(key, [])`. */
  function Encounters(ledger: Ledger, key: Key): seq<real> {
    if key in ledger then ledger[key] else []
  }

  /** `[t for t in times if now - t < 1800]`. */
  function Recent(times: seq<real>, now: real): (r: seq<real>)
    ensures forall t :: t in r <==> t in times && now - t < Window
  {
    if times == [] then []
    else (if now - times[0] < Window then [times[0]] else []) + Recent(times[1..], now)
  }

  /** `detect_trainer_rematch(species, level)` at time `now`: whether an earlier
      encounter with the same key lies strictly within the window, and the ledger after
      recording this encounter and keeping only the ten newest for that key. */
  function Detect(ledger: Ledger, species: int, level: int, now: real): (r: (bool, Ledger))
    ensures var key := (species, level);
      && (r.0 <==> exists t :: t in Encounters(ledger, key) && now - t < Window)
      && key in r.1
      && r.1[key] == Last(Encounters(ledger, key) + [now], KeepPerKey)
      && |r.1[key]| <= KeepPerKey
      && r.1[key][|r.1[key]| - 1] == now
      && (forall k :: k != key ==> (k in r.1 <==> k in ledger))
      && (forall k :: k != key && k in ledger ==> r.1[k] == ledger[k])
  {
    var key := (species, level);
    var times := Encounters(ledger, key);
    var isRematch := |Recent(times, now)| > 0;
    assert isRematch ==> Recent(times, now)[0] in Recent(times, now);
    var kept := PushCapped(times, now, KeepPerKey);
    (isRematch, ledger[key := kept])
  }

  /** The first encounter with a key is never a rematch. */
  lemma FirstEncounterNotRematch(ledger: Ledger, species: int, level: int, now: real)
    requires (species, level) !in ledger
    ensures !Detect(ledger, species, level, now).0
  {
  }

  /** Recording keeps the newest encounters, oldest dropped first: once the key already
      holds ten times, the new list is the old one without its first entry, plus `now`. */
  lemma DetectDropsOldest(ledger: Ledger, species: int, level: int, now: real)
    requires (species, level) in ledger && |ledger[(species, level)]| == KeepPerKey
    ensures Detect(ledger, species, level, now).1[(species, level)] == ledger[(species, level)][1..] + [now]
  {
  }

  /** Two trainer battles with the same enemy ten minutes apart: the second is a rematch.
      Forty minutes after the first, with nothing in between, it is not. */
  lemma RematchScenario(species: int, level: int, t0: real)
    ensures var l := Detect(map[], species, level, t0).1;
      Detect(l, species, level, t0 + 600.0).0 && !Detect(l, species, level, t0 + 2400.0).0
  {
    var l := Detect(map[], species, level, t0).1;
    assert l[(species, level)] == [t0];
  }

  /** An encounter exactly 30 minutes old no longer counts: the window is strict. */
  lemma WindowIsStrict(species: int, level: int, t0: real)
    ensures var l := Detect(map[], species, level, t0).1;
      !Detect(l, species, level, t0 + Window).0
  {
    var l := Detect(map[], species, level, t0).1;
    assert l[(species, level)] == [t0];
  }
}
