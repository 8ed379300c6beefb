/** The Game class of src/game.ts: a ledger built from a game configuration,
    its immediate and periodic conversions, and the simulate / reset / result
    operations over them. */
module Simulator {
  import opened Wrappers
  import opened Config
  import opened Conversions
  import opened Schedule
  import opened Seqs

  // ---------------------------------------------------------------------
  // The item table the constructor builds.
  // ---------------------------------------------------------------------

  /** The distinct names of `s`, in order of first occurrence: the keys of a
      Map after `set` was called with each name of `s` in turn. */
  function Dedup(s: seq<string>): (r: seq<string>)
    ensures Distinct(r)
    ensures forall x :: x in r <==> x in s
    ensures |r| <= |s|
    decreases |s|
  {
    if s == [] then []
    else
      var init, last := s[..|s| - 1], s[|s| - 1];
      var r := Dedup(init);
      assert forall x :: x in s <==> x in init || x == last by {
        assert s == init + [last];
      }
      if last in r then r else r + [last]
  }

  /** A name already present keeps its place; a new name goes last. */
  lemma DedupKeepsFirstPlace(s: seq<string>, x: string)
    requires s != [] && x == s[|s| - 1]
    ensures x in s[..|s| - 1] ==> Dedup(s) == Dedup(s[..|s| - 1])
    ensures x !in s[..|s| - 1] ==> Dedup(s) == Dedup(s[..|s| - 1]) + [x]
  {
  }

  /** Names that are already distinct come out as they went in. */
  lemma {:induction false} DedupDistinct(s: seq<string>)
    requires Distinct(s)
    ensures Dedup(s) == s
    decreases |s|
  {
    if s != [] {
      var init := s[..|s| - 1];
      assert Distinct(init) by {
        assert forall i :: 0 <= i < |init| ==> init[i] == s[i];
      }
      DedupDistinct(init);
      assert s[|s| - 1] !in init by {
        assert forall i :: 0 <= i < |init| ==> init[i] == s[i];
      }
      DedupKeepsFirstPlace(s, s[|s| - 1]);
      assert init + [s[|s| - 1]] == s;
    }
  }

  /** The item names of a game: `items`, then the keys of `itemsMax`,
      each once, in Map insertion order. */
  function ItemNames(config: GameConfig): seq<string> {
    Dedup(config.items + Keys(config.itemsMax))
  }

  /** The cap of each item: an item set from `itemsMax` carries `max`. */
  function MaxOf(names: seq<string>, itemsMax: Record<int>): (max: seq<Option<int>>)
    ensures |max| == |names|
    ensures forall i :: 0 <= i < |names| ==> max[i] == Lookup(itemsMax, names[i])
  {
    seq(|names|, i requires 0 <= i < |names| => Lookup(itemsMax, names[i]))
  }

  /** The amount each item starts with, and returns to on reset:
      `initAmounts[name] ?? 0`. */
  function InitialAmounts(names: seq<string>, initAmounts: seq<(string, int)>): (a: seq<int>)
    ensures |a| == |names|
    ensures forall i :: 0 <= i < |names| ==> a[i] == Lookup(initAmounts, names[i]).GetOr(0)
  {
    seq(|names|, i requires 0 <= i < |names| => Lookup(initAmounts, names[i]).GetOr(0))
  }

  /** Adding an entry with a new key changes the lookup of that key only. */
  lemma LookupSnoc<V>(r: seq<(string, V)>, e: (string, V), k: string)
    requires DistinctKeys(r + [e])
    ensures Lookup(r + [e], k) == if k == e.0 then Some(e.1) else Lookup(r, k)
  {
    var r' := r + [e];
    assert r'[|r|] == e;
    assert DistinctKeys(r) by {
      assert forall a :: 0 <= a < |r| ==> r'[a] == r[a];
    }
    if k != e.0 {
      if k in Keys(r) {
        var j :| 0 <= j < |r| && Keys(r)[j] == k;
        assert r'[j] == r[j];
      } else {
        forall j | 0 <= j < |r'| ensures Keys(r')[j] != k {
          if j < |r| {
            assert Keys(r')[j] == Keys(r)[j];
          }
        }
      }
    }
  }

  /** A prefix of a dictionary is a dictionary. */
  lemma PrefixDistinct<V>(r: seq<(string, V)>, n: nat)
    requires DistinctKeys(r) && n <= |r|
    ensures DistinctKeys(r[..n])
  {
    assert forall a :: 0 <= a < n ==> r[..n][a] == r[a];
  }

  /** Setting the amount of the item named by one more entry. */
  lemma InitialAmountsSnoc(names: seq<string>, prefix: seq<(string, int)>, e: (string, int), idx: nat)
    requires DistinctKeys(prefix + [e]) && idx < |names| && names[idx] == e.0 && Distinct(names)
    ensures InitialAmounts(names, prefix + [e]) == InitialAmounts(names, prefix)[idx := e.1]
  {
    forall j | 0 <= j < |names|
      ensures InitialAmounts(names, prefix + [e])[j] == InitialAmounts(names, prefix)[idx := e.1][j]
    {
      LookupSnoc(prefix, e, names[j]);
    }
  }

  /** The first `n` keys of `r` all name items. */
  ghost predicate KnownPrefix(names: seq<string>, r: seq<(string, int)>, n: nat) {
    n <= |r| && forall l :: 0 <= l < n ==> r[l].0 in names
  }

  lemma KnownPrefixFirstUnknown(names: seq<string>, r: seq<(string, int)>, i: nat)
    requires KnownPrefix(names, r, i) && i < |r| && r[i].0 !in names
    ensures FirstUnknown(names, Keys(r)) == Some(r[i].0)
  {
    FirstUnknownAt(names, Keys(r), i);
  }

  lemma KnownPrefixAll(names: seq<string>, r: seq<(string, int)>)
    requires KnownPrefix(names, r, |r|)
    ensures FirstUnknown(names, Keys(r)).None?
  {
  }

  /** The amounts after one more entry of `initAmounts`. */
  lemma InitialAmountsStep(names: seq<string>, initAmounts: seq<(string, int)>, i: nat, idx: nat)
    requires DistinctKeys(initAmounts) && Distinct(names)
    requires i < |initAmounts| && idx < |names| && names[idx] == initAmounts[i].0
    ensures InitialAmounts(names, initAmounts[..i + 1]) == InitialAmounts(names, initAmounts[..i])[idx := initAmounts[i].1]
  {
    assert initAmounts[..i + 1] == initAmounts[..i] + [initAmounts[i]];
    PrefixDistinct(initAmounts, i + 1);
    InitialAmountsSnoc(names, initAmounts[..i], initAmounts[i], idx);
  }

  /** The `for ... in config.initAmounts` loop of the constructor: each key
      must name an item (getItem), and sets that item's amount. */
  method InitialLedgerAmounts(names: seq<string>, initAmounts: Record<int>) returns (r: Result<seq<int>, Error>)
    requires Distinct(names)
    ensures r.Failure? <==> FirstUnknown(names, Keys(initAmounts)).Some?
    ensures r.Failure? ==> r.error == UnknownItem(FirstUnknown(names, Keys(initAmounts)).value)
    ensures r.Success? ==> r.value == InitialAmounts(names, initAmounts)
  {
    var amounts := seq(|names|, _ => 0);
    assert amounts == InitialAmounts(names, initAmounts[..0]);
    for i := 0 to |initAmounts|
      invariant KnownPrefix(names, initAmounts, i)
      invariant amounts == InitialAmounts(names, initAmounts[..i])
    {
      var g := GetItem(names, initAmounts[i].0);
      if g.Failure? {
        KnownPrefixFirstUnknown(names, initAmounts, i);
        return Failure(g.error);
      }
      InitialAmountsStep(names, initAmounts, i, g.value);
      amounts := amounts[g.value := initAmounts[i].1];
    }
    TakeAll(initAmounts);
    KnownPrefixAll(names, initAmounts);
    return Success(amounts);
  }

  /** The table of items: their names and caps. */
  method ItemTable(config: GameConfig) returns (names: seq<string>, max: seq<Option<int>>)
    ensures names == ItemNames(config) && max == MaxOf(names, config.itemsMax)
  {
    var all := config.items + Keys(config.itemsMax);
    names := [];
    assert all[..0] == [];
    for i := 0 to |all|
      invariant names == Dedup(all[..i])
    {
      TakeTake(all, i);
      DedupKeepsFirstPlace(all[..i + 1], all[i]);
      if all[i] !in names {
        names := names + [all[i]];
      }
    }
    TakeAll(all);
    max := seq(|names|, i requires 0 <= i < |names| => Lookup(config.itemsMax, names[i]));
  }

  /** The error the constructor throws, if any: an unknown key of
      `initAmounts` first, then the first failing conversion. */
  function CreateError(config: GameConfig, parse: string -> Option<int>): Option<Error> {
    var names := ItemNames(config);
    match FirstUnknown(names, Keys(config.initAmounts))
    case Some(n) => Some(UnknownItem(n))
    case None => FirstError(config.conversions, names, parse)
  }

  /** `built` holds the conversions constructed from the configuration's. */
  ghost predicate BuiltFrom(config: GameConfig, parse: string -> Option<int>, names: seq<string>, built: Built)
    reads set p | p in built.periodic
  {
    && BuiltAs(config.conversions, names, parse, built)
    && forall k :: 0 <= k < |built.periodic| ==> built.periodic[k].nextExecTime == built.periodic[k].period
  }

  class Game {
    const ledger: Ledger
    const initAmounts: Record<int>
    const conversions: seq<Conversion>
    const periodConversions: seq<PeriodConversion>
    /** Math.random, injected. */
    const random: Random

    ghost predicate Valid() {
      && ledger.Valid()
      && AllBound(conversions, |ledger.max|)
      && PeriodicReady(ledger, periodConversions)
    }

    /** The state of a game as built from `config`. */
    ghost predicate Created(config: GameConfig, parse: string -> Option<int>)
      reads ledger.amount, set p | p in periodConversions
    {
      var names := ItemNames(config);
      && ledger.names == names && ledger.max == MaxOf(names, config.itemsMax)
      && ledger.amount[..] == InitialAmounts(names, config.initAmounts)
      && initAmounts == config.initAmounts
      && |conversions| == |ImmediateConfigs(config.conversions)|
      && (forall k :: 0 <= k < |conversions| ==>
            ConversionBuilt(ImmediateConfigs(config.conversions)[k], conversions[k], names))
      && |periodConversions| == |PeriodicConfigs(config.conversions)|
      && (forall k :: 0 <= k < |periodConversions| ==>
            PeriodBuilt(PeriodicConfigs(config.conversions)[k], periodConversions[k], names, parse))
      && TimersOf(periodConversions) == PeriodsOf(periodConversions)
    }

    constructor (ledger: Ledger, initAmounts: Record<int>, conversions: seq<Conversion>,
                 periodConversions: seq<PeriodConversion>, random: Random)
      ensures this.ledger == ledger && this.initAmounts == initAmounts && this.conversions == conversions
      ensures this.periodConversions == periodConversions && this.random == random
    {
      this.ledger := ledger;
      this.initAmounts := initAmounts;
      this.conversions := conversions;
      this.periodConversions := periodConversions;
      this.random := random;
    }

    /** `new Game(config)`: throws VerificationError on an unknown item or an
        invalid period. */
    static method Create(config: GameConfig, parse: string -> Option<int>, random: Random)
      returns (r: Result<Game, Error>)
      ensures r.Failure? <==> CreateError(config, parse).Some?
      ensures r.Failure? ==> r.error == CreateError(config, parse).value
      ensures r.Success? ==> && fresh(r.value) && fresh(r.value.ledger.amount)
                             && r.value.Valid() && r.value.Created(config, parse) && r.value.random == random
                             && forall p :: p in r.value.periodConversions ==> fresh(p)
    {
      var names, max := ItemTable(config);
      var amounts := InitialLedgerAmounts(names, config.initAmounts);
      if amounts.Failure? {
        return Failure(amounts.error);
      }
      var built := BuildAll(config.conversions, names, parse);
      if built.Failure? {
        return Failure(built.error);
      }
      var g := Assemble(config, parse, names, max, amounts.value, built.value, random);
      return Success(g);
    }

    /** The objects of a game whose parts were built without error. */
    static method Assemble(config: GameConfig, parse: string -> Option<int>, names: seq<string>,
                           max: seq<Option<int>>, amounts: seq<int>, built: Built, random: Random)
      returns (g: Game)
      requires names == ItemNames(config) && max == MaxOf(names, config.itemsMax)
      requires amounts == InitialAmounts(names, config.initAmounts)
      requires BuiltFrom(config, parse, names, built)
      ensures fresh(g) && fresh(g.ledger.amount) && g.random == random
      ensures g.Valid() && g.Created(config, parse) && g.periodConversions == built.periodic
    {
      var ledger := new Ledger(names, max, amounts);
      var imm, pcs := built.immediate, built.periodic;
      forall k | 0 <= k < |imm| ensures Bound(imm[k], |max|) {
        BuiltRangesCumulative(ImmediateConfigs(config.conversions)[k], imm[k], names);
      }
      forall k | 0 <= k < |pcs| ensures Bound(pcs[k].conv, |max|) {
        BuiltRangesCumulative(PeriodicConfigs(config.conversions)[k], pcs[k].conv, names);
      }
      g := new Game(ledger, config.initAmounts, imm, pcs, random);
      assert TimersOf(pcs) == PeriodsOf(pcs);
    }

    /** simulate(maxTime), with at most `rounds` rounds of at most `scans`
        scans each. The timers carry over from earlier calls. */
    method Simulate(maxTime: int, scans: nat, rounds: nat) returns (status: Status)
      requires Valid()
      modifies ledger.amount, random, set p | p in periodConversions
      ensures var run := Simulation(Snapshot, RulesOf(ledger, conversions, periodConversions), random.stream,
                                    maxTime, scans, Sim(old(ledger.amount[..]), old(random.calls)),
                                    old(TimersOf(periodConversions)), rounds);
              && ledger.amount[..] == run.sim.amounts && random.calls == run.sim.calls
              && TimersOf(periodConversions) == run.timers && status == run.status
    {
      var time;
      status, time := RunLoop(ledger, conversions, periodConversions, random, Snapshot, maxTime, scans, rounds);
    }

    /** reset(): every item back to its initial amount, every timer back to
        its period. */
    method Reset()
      requires Valid()
      modifies ledger.amount, set p | p in periodConversions
      ensures ledger.amount[..] == InitialAmounts(ledger.names, initAmounts)
      ensures TimersOf(periodConversions) == PeriodsOf(periodConversions)
    {
      var names := ledger.names;
      for i := 0 to ledger.amount.Length
        invariant forall j :: 0 <= j < i ==> ledger.amount[j] == Lookup(initAmounts, names[j]).GetOr(0)
      {
        ledger.amount[i] := Lookup(initAmounts, names[i]).GetOr(0);
      }
      for i := 0 to |periodConversions|
        invariant ledger.amount[..] == InitialAmounts(names, initAmounts)
        invariant forall j :: 0 <= j < i ==> periodConversions[j].nextExecTime == periodConversions[j].period
      {
        periodConversions[i].Reset();
        forall j | 0 <= j < i ensures periodConversions[j].nextExecTime == periodConversions[j].period {
          assert periodConversions[j] != periodConversions[i];
        }
      }
      assert TimersOf(periodConversions) == PeriodsOf(periodConversions);
    }

    /** result(): a map from every item name to its amount. */
    method Result() returns (res: map<string, int>)
      requires Valid()
      ensures res.Keys == set i | 0 <= i < |ledger.names| :: ledger.names[i]
      ensures forall i :: 0 <= i < |ledger.names| ==> res[ledger.names[i]] == ledger.amount[i]
    {
      res := map[];
      for i := 0 to ledger.amount.Length
        invariant res.Keys == set j | 0 <= j < i :: ledger.names[j]
        invariant forall j :: 0 <= j < i ==> res[ledger.names[j]] == ledger.amount[j]
      {
        res := res[ledger.names[i] := ledger.amount[i]];
        forall j | 0 <= j < i ensures res[ledger.names[j]] == ledger.amount[j] {
          assert ledger.names[j] != ledger.names[i];
        }
      }
    }
  }
}
