/** The scenario of test/index.ts: a game with one periodic conversion
    (every second, one res1 becomes one res2 and one res3, res3 limited to
    5 in total) and one immediate conversion (one res4 becomes one res5,
    res5 capped at 3), simulated for 100 seconds and then reset. The
    construction is stated for any five distinct item names `n` in the
    places of res1 .. res5. */
module Scenario {
  import opened Wrappers
  import opened Config
  import opened Conversions
  import opened Schedule
  import opened Simulator

  /** The periodic conversion of the test: one n[0] becomes one n[1] and one
      n[2], n[2] limited to 5 in total, every "1s". */
  function TimedConfigOf(n: seq<string>): ConversionConfig
    requires |n| == 5 && Distinct(n)
  {
    ConversionConfig([(n[0], InputConfig(1, None))],
                     [OutcomeConfig(1, [(n[1], WinConfig(1, None)), (n[2], WinConfig(1, Some(5)))])],
                     Some("1s"))
  }

  /** The immediate conversion of the test: one n[3] becomes one n[4]. */
  function CappedConfigOf(n: seq<string>): ConversionConfig
    requires |n| == 5 && Distinct(n)
  {
    ConversionConfig([(n[3], InputConfig(1, None))], [OutcomeConfig(1, [(n[4], WinConfig(1, None))])], None)
  }

  /** The configuration of the test over the names `n`: n[0..3] listed,
      n[4] capped at 3, n[0] and n[3] starting at 10. */
  function ConfigOf(n: seq<string>): GameConfig
    requires |n| == 5 && Distinct(n)
  {
    GameConfig(n[..4], [(n[4], 3)], [TimedConfigOf(n), CappedConfigOf(n)], [(n[0], 10), (n[3], 10)])
  }

  /** The items of the game, in ledger order. */
  const Names: seq<string> := ["res1", "res2", "res3", "res4", "res5"]

  /** The configuration of the test. */
  const TestConfig: GameConfig := ConfigOf(Names)

  const Caps: seq<Option<int>> := [None, None, None, None, Some(3)]

  /** The conversions the game builds from the two configurations. */
  const Timed: Conversion := Conversion([Input(0, 1, false)], [Outcome(0, 1, [Win(1, 1, None), Win(2, 1, Some(5))])], 1)

  const Capped: Conversion := Conversion([Input(3, 1, false)], [Outcome(0, 1, [Win(4, 1, None)])], 1)

  const TestRules: Rules := Rules(Caps, [Capped], [Periodic(Timed, 1)])

  /** Every value the random source gives lies in [0, 1), as Math.random's do. */
  ghost predicate Uniform(stream: nat -> real) {
    forall k :: 0.0 <= stream(k) < 1.0
  }

  // ---------------------------------------------------------------------
  // The construction of the test game.
  // ---------------------------------------------------------------------

  /** The ledger holds the five names in order: the listed ones, then the
      capped one. */
  lemma NamesOf(n: seq<string>)
    requires |n| == 5 && Distinct(n)
    ensures ItemNames(ConfigOf(n)) == n
  {
    var cfg := ConfigOf(n);
    assert Keys(cfg.itemsMax) == [n[4]];
    assert cfg.items + Keys(cfg.itemsMax) == n;
    DedupDistinct(n);
  }

  /** Only the last item carries a cap, 3. */
  lemma CapsOf(n: seq<string>)
    requires |n| == 5 && Distinct(n)
    ensures MaxOf(n, ConfigOf(n).itemsMax) == Caps
  {
    var r := ConfigOf(n).itemsMax;
    assert Keys(r) == [n[4]];
    forall i | 0 <= i < 5 ensures MaxOf(n, r)[i] == Caps[i] {
      if i < 4 {
        assert n[i] != n[4];
      } else {
        assert r[0].0 == n[4];
      }
    }
  }

  /** The first and the fourth item start at 10, the others at 0, and both
      keys of initAmounts name items. */
  lemma AmountsOf(n: seq<string>)
    requires |n| == 5 && Distinct(n)
    ensures InitialAmounts(n, ConfigOf(n).initAmounts) == [10, 0, 0, 10, 0]
    ensures FirstUnknown(n, Keys(ConfigOf(n).initAmounts)).None?
  {
    var r := ConfigOf(n).initAmounts;
    var a := InitialAmounts(n, r);
    assert Keys(r) == [n[0], n[3]];
    assert r[0].0 == n[0] && r[1].0 == n[3];
    assert a[0] == 10 && a[3] == 10;
    assert n[1] !in Keys(r) && n[2] !in Keys(r) && n[4] !in Keys(r);
    assert a[1] == 0 && a[2] == 0 && a[4] == 0;
  }

  /** The periodic configuration builds Timed and refers to known items only. */
  lemma TimedBuilt(n: seq<string>)
    requires |n| == 5 && Distinct(n)
    ensures ConversionBuilt(TimedConfigOf(n), Timed, n)
    ensures FirstUnknown(n, ReferencedNames(TimedConfigOf(n))).None?
  {
    TimedOutcomeBuilt(n);
    TimedReferences(n);
  }

  lemma TimedOutcomeBuilt(n: seq<string>)
    requires |n| == 5 && Distinct(n)
    ensures OutcomeBuilt(TimedConfigOf(n).outcomes[0], Timed.outcomes[0], 0, n)
  {
    var wins := TimedConfigOf(n).outcomes[0].wins;
    assert WinBuilt(wins[0], Timed.outcomes[0].wins[0], n);
    assert WinBuilt(wins[1], Timed.outcomes[0].wins[1], n);
  }

  lemma TimedReferences(n: seq<string>)
    requires |n| == 5 && Distinct(n)
    ensures ReferencedNames(TimedConfigOf(n)) == [n[0], n[1], n[2]]
  {
    var cfg := TimedConfigOf(n);
    assert Keys(cfg.inputs) == [n[0]];
    assert Keys(cfg.outcomes[0].wins) == [n[1], n[2]];
    assert WinNames(cfg.outcomes[1..]) == [];
  }

  /** The immediate configuration builds Capped and refers to known items only. */
  lemma CappedBuilt(n: seq<string>)
    requires |n| == 5 && Distinct(n)
    ensures ConversionBuilt(CappedConfigOf(n), Capped, n)
    ensures FirstUnknown(n, ReferencedNames(CappedConfigOf(n))).None?
  {
    var cfg := CappedConfigOf(n);
    assert OutcomeBuilt(cfg.outcomes[0], Capped.outcomes[0], 0, n);
    CappedReferences(n);
  }

  lemma CappedReferences(n: seq<string>)
    requires |n| == 5 && Distinct(n)
    ensures ReferencedNames(CappedConfigOf(n)) == [n[3], n[4]]
  {
    var cfg := CappedConfigOf(n);
    assert Keys(cfg.inputs) == [n[3]];
    assert Keys(cfg.outcomes[0].wins) == [n[4]];
    assert WinNames(cfg.outcomes[1..]) == [];
  }

  /** A periodic configuration followed by an immediate one. */
  lemma SplitTwo(x: ConversionConfig, y: ConversionConfig)
    requires TruthyString(x.period) && !TruthyString(y.period)
    ensures ImmediateConfigs([x, y]) == [y] && PeriodicConfigs([x, y]) == [x]
  {
    assert [x, y][..1] == [x] && [x][..0] == [];
    assert ImmediateConfigs([x]) == ImmediateConfigs([]) + [];
    assert PeriodicConfigs([x]) == PeriodicConfigs([]) + [x];
    assert ImmediateConfigs([x, y]) == ImmediateConfigs([x]) + [y];
    assert PeriodicConfigs([x, y]) == PeriodicConfigs([x]) + [];
  }

  /** Two conversions that are both built without error. */
  lemma FirstErrorTwo(x: ConversionConfig, y: ConversionConfig, names: seq<string>, parse: string -> Option<int>)
    requires ConversionError(x, names, parse) == None && ConversionError(y, names, parse) == None
    ensures FirstError([x, y], names, parse) == None
  {
    assert [x, y][1..] == [y] && [y][1..] == [];
    assert FirstError([y], names, parse) == FirstError([], names, parse);
  }

  /** Neither configuration of the test fails to build. */
  lemma NoConversionError(n: seq<string>, parse: string -> Option<int>)
    requires |n| == 5 && Distinct(n) && parse("1s") == Some(1000)
    ensures ConversionError(TimedConfigOf(n), n, parse) == None
    ensures ConversionError(CappedConfigOf(n), n, parse) == None
  {
    TimedBuilt(n);
    CappedBuilt(n);
    assert TruthyString(TimedConfigOf(n).period) && parse(TimedConfigOf(n).period.value).Some?;
  }

  /** With a duration parser that reads "1s" as 1000 ms, the test game's
      constructor throws nothing. */
  lemma CreatesOf(n: seq<string>, parse: string -> Option<int>)
    requires |n| == 5 && Distinct(n) && parse("1s") == Some(1000)
    ensures CreateError(ConfigOf(n), parse) == None
  {
    NamesOf(n);
    AmountsOf(n);
    NoConversionError(n, parse);
    FirstErrorTwo(TimedConfigOf(n), CappedConfigOf(n), n, parse);
  }

  /** A game created from a configuration whose one immediate conversion
      builds Capped and whose one periodic conversion builds Timed every
      second. */
  lemma CreatedFrom(g: Game, cfg: GameConfig, n: seq<string>, x: ConversionConfig, y: ConversionConfig,
                    parse: string -> Option<int>)
    requires g.Created(cfg, parse) && ItemNames(cfg) == n && Distinct(n)
    requires ImmediateConfigs(cfg.conversions) == [y] && PeriodicConfigs(cfg.conversions) == [x]
    requires ConversionBuilt(y, Capped, n) && ConversionBuilt(x, Timed, n)
    requires TruthyString(x.period) && parse(x.period.value) == Some(1000)
    ensures g.conversions == [Capped] && PeriodicOf(g.periodConversions) == [Periodic(Timed, 1)]
    ensures TimersOf(g.periodConversions) == [1]
  {
    ConversionBuiltUnique(y, g.conversions[0], Capped, n);
    var pc := g.periodConversions[0];
    assert PeriodBuilt(x, pc, n, parse);
    ConversionBuiltUnique(x, pc.conv, Timed, n);
    assert pc.period == 1;
  }

  /** A game created from the test configuration holds the test rules, its
      one timer at 1 second, and the initial amounts. */
  lemma CreatedRulesOf(g: Game, n: seq<string>, parse: string -> Option<int>)
    requires |n| == 5 && Distinct(n) && parse("1s") == Some(1000) && g.Created(ConfigOf(n), parse)
    ensures RulesOf(g.ledger, g.conversions, g.periodConversions) == TestRules
    ensures TimersOf(g.periodConversions) == [1]
    ensures g.ledger.names == n && g.ledger.amount[..] == [10, 0, 0, 10, 0]
  {
    NamesOf(n);
    CapsOf(n);
    AmountsOf(n);
    TimedBuilt(n);
    CappedBuilt(n);
    SplitTwo(TimedConfigOf(n), CappedConfigOf(n));
    CreatedFrom(g, ConfigOf(n), n, TimedConfigOf(n), CappedConfigOf(n), parse);
  }

  /** A map holding the amount of each of five distinct names. */
  lemma MapOfFive(m: map<string, int>, n: seq<string>, a: seq<int>)
    requires |n| == 5 && Distinct(n) && |a| == 5
    requires m.Keys == set i | 0 <= i < 5 :: n[i]
    requires forall i :: 0 <= i < 5 ==> m[n[i]] == a[i]
    ensures m == map[n[0] := a[0], n[1] := a[1], n[2] := a[2], n[3] := a[3], n[4] := a[4]]
  {
  }

  // ---------------------------------------------------------------------
  // One conversion of each kind, in general.
  // ---------------------------------------------------------------------

  /** A drain over a single affordable conversion executes it once and
      starts over from the new state. */
  lemma DrainBusy(max: seq<Option<int>>, cv: Conversion, stream: nat -> real, s: Sim, scans: nat)
    requires |s.amounts| == |max| && Bound(cv, |max|) && Affordable(cv, s.amounts) && scans > 0
    requires ExecIn(max, cv, stream, s).ok
    ensures Drain(Snapshot, max, [cv], stream, s, scans) ==
            Drain(Snapshot, max, [cv], stream, ExecIn(max, cv, stream, s).sim, scans - 1)
  {
    DrainStep(Snapshot, max, [cv], stream, s, scans);
    assert Available([cv], s.amounts, 1) == [0];
    assert [0][1..] == [];
  }

  /** A drain over a single unaffordable conversion changes nothing. */
  lemma DrainIdle(max: seq<Option<int>>, cv: Conversion, stream: nat -> real, s: Sim, scans: nat)
    requires |s.amounts| == |max| && Bound(cv, |max|) && !Affordable(cv, s.amounts) && scans > 0
    ensures Drain(Snapshot, max, [cv], stream, s, scans) == Drained(s, Finished)
  {
    DrainStep(Snapshot, max, [cv], stream, s, scans);
    assert Available([cv], s.amounts, 1) == [];
  }

  /** The periodic pass over a single periodic conversion. */
  lemma FireSingle(max: seq<Option<int>>, p: Periodic, stream: nat -> real, time: int, s: Sim, t: int)
    requires |s.amounts| == |max| && Bound(p.conv, |max|)
    ensures var e := ExecIn(max, p.conv, stream, s);
            FireDue(max, [p], stream, time, s, [t], 0) ==
              if t != time then Fired(s, [t], true)
              else if !e.ok then Fired(e.sim, [t], false)
              else Fired(e.sim, [t + p.period], true)
  {
    assert PeriodicBound([p], |max|);
    assert [t][0 := t + p.period] == [t + p.period];
  }

  /** The time jump over a single periodic conversion. */
  lemma NextSingle(p: Periodic, a: seq<int>, t: int, maxTime: int)
    requires Bound(p.conv, |a|)
    ensures NextTime([p], a, [t], maxTime) == if Affordable(p.conv, a) && t < maxTime then t else maxTime
  {
    assert PeriodicBound([p], |a|);
    var t' := if Affordable(p.conv, a) && t < maxTime then t else maxTime;
    assert Reduce([p], a, [t], maxTime, 0) == Reduce([p], a, [t], t', 1);
  }

  // ---------------------------------------------------------------------
  // The two conversions of the test.
  // ---------------------------------------------------------------------

  /** The amounts after one run of the res4-to-res5 conversion. */
  function AfterCapped(a: seq<int>): (r: seq<int>)
    requires |a| == 5
    ensures |r| == 5
  {
    a[3 := a[3] - 1][4 := if a[4] + 1 > 3 then 3 else a[4] + 1]
  }

  /** The amounts after one run of the res1-to-res2-and-res3 conversion. */
  function AfterTimed(a: seq<int>): (r: seq<int>)
    requires |a| == 5
    ensures |r| == 5
  {
    a[0 := a[0] - 1][1 := a[1] + 1][2 := if a[2] + 1 > 5 then 5 else a[2] + 1]
  }

  /** cv is the res4-to-res5 conversion: affordable exactly while res4 is
      left, and then it moves one unit, res5 stopping at 3. */
  ghost predicate MovesCapped(max: seq<Option<int>>, cv: Conversion, stream: nat -> real) {
    && |max| == 5 && Bound(cv, 5)
    && (forall b: seq<int> {:trigger Affordable(cv, b)} :: |b| == 5 ==> (Affordable(cv, b) <==> b[3] >= 1))
    && (forall b: seq<int>, k: nat {:trigger ExecIn(max, cv, stream, Sim(b, k))} ::
          |b| == 5 && b[3] >= 1 ==> ExecIn(max, cv, stream, Sim(b, k)) == Step(Sim(AfterCapped(b), k + 1), true))
  }

  /** tv is the res1-to-res2-and-res3 conversion: affordable exactly while
      res1 is left, and then it moves one unit, res3 stopping at 5. */
  ghost predicate MovesTimed(max: seq<Option<int>>, tv: Conversion, stream: nat -> real) {
    && |max| == 5 && Bound(tv, 5)
    && (forall b: seq<int> {:trigger Affordable(tv, b)} :: |b| == 5 ==> (Affordable(tv, b) <==> b[0] >= 1))
    && (forall b: seq<int>, k: nat {:trigger ExecIn(max, tv, stream, Sim(b, k))} ::
          |b| == 5 && b[0] >= 1 ==> ExecIn(max, tv, stream, Sim(b, k)) == Step(Sim(AfterTimed(b), k + 1), true))
  }

  /** The capped conversion on amounts b: one res4 spent, one res5 paid up
      to its cap of 3. */
  lemma CappedStep(stream: nat -> real, b: seq<int>, k: nat)
    requires Uniform(stream) && |b| == 5 && b[3] >= 1
    ensures ExecIn(Caps, Capped, stream, Sim(b, k)) == Step(Sim(AfterCapped(b), k + 1), true)
  {
    var u := stream(k);
    assert 0 <= Draw(u, 1) < 1 by { DrawInRange(u, 1); }
    var spent := b[3 := b[3] - 1];
    assert SpendAll(b, Capped.inputs) == spent;
    assert PayAll(spent, Caps, Capped.outcomes[0].wins) == spent[4 := Paid(spent[4], 1, None, Caps[4])];
  }

  /** The timed conversion on amounts b: one res1 spent, one res2 paid, and
      one res3 paid up to its total limit of 5. */
  lemma TimedStep(stream: nat -> real, b: seq<int>, k: nat)
    requires Uniform(stream) && |b| == 5 && b[0] >= 1
    ensures ExecIn(Caps, Timed, stream, Sim(b, k)) == Step(Sim(AfterTimed(b), k + 1), true)
  {
    var u := stream(k);
    assert 0 <= Draw(u, 1) < 1 by { DrawInRange(u, 1); }
    var spent := b[0 := b[0] - 1];
    assert SpendAll(b, Timed.inputs) == spent;
    var wins := Timed.outcomes[0].wins;
    assert wins[..1] == [Win(1, 1, None)] && wins[..1][..0] == [];
    assert PayAll(spent, Caps, wins[..1]) == spent[1 := spent[1] + 1];
  }

  lemma CappedMoves(stream: nat -> real)
    requires Uniform(stream)
    ensures MovesCapped(Caps, Capped, stream)
  {
    forall b: seq<int> | |b| == 5 ensures Affordable(Capped, b) <==> b[3] >= 1 {
      assert CanSpend(Capped.inputs[0], b) <==> b[3] >= 1;
    }
    forall b: seq<int>, k: nat | |b| == 5 && b[3] >= 1
      ensures ExecIn(Caps, Capped, stream, Sim(b, k)) == Step(Sim(AfterCapped(b), k + 1), true)
    {
      CappedStep(stream, b, k);
    }
  }

  lemma TimedMoves(stream: nat -> real)
    requires Uniform(stream)
    ensures MovesTimed(Caps, Timed, stream)
  {
    forall b: seq<int> | |b| == 5 ensures Affordable(Timed, b) <==> b[0] >= 1 {
      assert CanSpend(Timed.inputs[0], b) <==> b[0] >= 1;
    }
    forall b: seq<int>, k: nat | |b| == 5 && b[0] >= 1
      ensures ExecIn(Caps, Timed, stream, Sim(b, k)) == Step(Sim(AfterTimed(b), k + 1), true)
    {
      TimedStep(stream, b, k);
    }
  }

  /** The amounts once the res4-to-res5 conversion has drained res4. */
  function CappedDrained(a: seq<int>): (r: seq<int>)
    requires |a| == 5
    ensures |r| == 5
  {
    a[3 := 0][4 := if a[4] + a[3] < 3 then a[4] + a[3] else 3]
  }

  /** The amounts once the timed conversion has spent all of res1. */
  function TimedDrained(a: seq<int>): (r: seq<int>)
    requires |a| == 5
    ensures |r| == 5
  {
    a[0 := 0][1 := a[1] + a[0]][2 := if a[2] + a[0] < 5 then a[2] + a[0] else 5]
  }

  lemma CappedDrainedStep(a: seq<int>)
    requires |a| == 5 && a[3] >= 1 && 0 <= a[4] <= 3
    ensures AfterCapped(a)[3] == a[3] - 1 && 0 <= AfterCapped(a)[4] <= 3
    ensures CappedDrained(AfterCapped(a)) == CappedDrained(a)
  {
  }

  lemma CappedDrainedIdle(a: seq<int>)
    requires |a| == 5 && a[3] == 0 && a[4] <= 3
    ensures CappedDrained(a) == a
  {
  }

  lemma TimedDrainedStep(a: seq<int>)
    requires |a| == 5 && a[0] >= 1
    ensures AfterTimed(a)[0] == a[0] - 1 && AfterTimed(a)[3] == a[3]
    ensures TimedDrained(AfterTimed(a)) == TimedDrained(a)
    ensures a[0] == 1 ==> AfterTimed(a) == TimedDrained(a)
  {
  }

  // ---------------------------------------------------------------------
  // The drain at time 0.
  // ---------------------------------------------------------------------

  /** One scan of the drain over cv: one unit of res4 moves while res4 is
      left; otherwise the drain is over. */
  lemma CappedScan(max: seq<Option<int>>, cv: Conversion, stream: nat -> real, scans: nat, a: seq<int>, c: nat)
    requires MovesCapped(max, cv, stream) && |a| == 5 && scans > 0
    ensures Drain(Snapshot, max, [cv], stream, Sim(a, c), scans) ==
              if a[3] >= 1 then Drain(Snapshot, max, [cv], stream, Sim(AfterCapped(a), c + 1), scans - 1)
              else Drained(Sim(a, c), Finished)
  {
    if a[3] >= 1 {
      DrainBusy(max, cv, stream, Sim(a, c), scans);
    } else {
      DrainIdle(max, cv, stream, Sim(a, c), scans);
    }
  }

  /** Names one scan; it only serves to pick the instances of the
      quantifier in ScansAsCapped that a proof uses. */
  ghost predicate ScanAt(a: seq<int>, c: nat, scans: nat) {
    true
  }

  /** `drain(a, c, scans)` is a drain from amounts a with c random values
      drawn: every scan goes as CappedScan says. */
  ghost predicate ScansAsCapped(drain: (seq<int>, nat, nat) -> Drained) {
    forall a: seq<int>, c: nat, scans: nat {:trigger ScanAt(a, c, scans)} ::
      ScanAt(a, c, scans) && |a| == 5 && scans > 0 ==>
        drain(a, c, scans) ==
          if a[3] >= 1 then drain(AfterCapped(a), c + 1, scans - 1) else Drained(Sim(a, c), Finished)
  }

  /** The drain over cv, as a function of the amounts, the draws and the
      scan bound. */
  ghost function DrainOf(max: seq<Option<int>>, cv: Conversion, stream: nat -> real): (seq<int>, nat, nat) -> Drained
    requires |max| == 5 && Bound(cv, 5)
  {
    assert AllBound([cv], |max|);
    (a: seq<int>, c: nat, scans: nat) =>
      if |a| == 5 then Drain(Snapshot, max, [cv], stream, Sim(a, c), scans) else Drained(Sim(a, c), OutOfFuel)
  }

  lemma DrainOfAt(max: seq<Option<int>>, cv: Conversion, stream: nat -> real, a: seq<int>, c: nat, scans: nat)
    requires |max| == 5 && Bound(cv, 5) && |a| == 5
    ensures AllBound([cv], 5) &&
            DrainOf(max, cv, stream)(a, c, scans) == Drain(Snapshot, max, [cv], stream, Sim(a, c), scans)
  {
    assert AllBound([cv], 5);
  }

  /** CappedScan, stated on DrainOf. */
  lemma CappedScanOf(max: seq<Option<int>>, cv: Conversion, stream: nat -> real, a: seq<int>, c: nat, scans: nat)
    requires MovesCapped(max, cv, stream) && |a| == 5 && scans > 0
    ensures DrainOf(max, cv, stream)(a, c, scans) ==
              if a[3] >= 1 then DrainOf(max, cv, stream)(AfterCapped(a), c + 1, scans - 1)
              else Drained(Sim(a, c), Finished)
  {
    DrainOfAt(max, cv, stream, a, c, scans);
    if a[3] >= 1 {
      DrainOfAt(max, cv, stream, AfterCapped(a), c + 1, scans - 1);
    }
    CappedScan(max, cv, stream, scans, a, c);
  }

  lemma CappedScans(max: seq<Option<int>>, cv: Conversion, stream: nat -> real)
    requires MovesCapped(max, cv, stream)
    ensures ScansAsCapped(DrainOf(max, cv, stream))
  {
    forall a: seq<int>, c: nat, scans: nat {:trigger ScanAt(a, c, scans)} | ScanAt(a, c, scans) && |a| == 5 && scans > 0
      ensures DrainOf(max, cv, stream)(a, c, scans) ==
                if a[3] >= 1 then DrainOf(max, cv, stream)(AfterCapped(a), c + 1, scans - 1)
                else Drained(Sim(a, c), Finished)
    {
      CappedScanOf(max, cv, stream, a, c, scans);
    }
  }

  /** The drain at time 0: res4 flows into res5 one unit per scan, res5
      stopping at its cap; the scan after the last unit executes nothing. */
  lemma {:induction false} DrainPhase(drain: (seq<int>, nat, nat) -> Drained, scans: nat, a: seq<int>, c: nat)
    requires ScansAsCapped(drain) && |a| == 5 && 0 <= a[3] < scans && 0 <= a[4] <= 3
    ensures drain(a, c, scans) == Drained(Sim(CappedDrained(a), c + a[3]), Finished)
    decreases a[3]
  {
    assert ScanAt(a, c, scans);
    if a[3] == 0 {
      CappedDrainedIdle(a);
    } else {
      CappedDrainedStep(a);
      DrainPhase(drain, scans - 1, AfterCapped(a), c + 1);
    }
  }

  /** The drain of the test at time 0: ten units of res4 spent, res5 at 3. */
  lemma DrainAtStart(max: seq<Option<int>>, cv: Conversion, stream: nat -> real, scans: nat, c: nat)
    requires MovesCapped(max, cv, stream) && scans >= 11
    ensures Drain(Snapshot, max, [cv], stream, Sim([10, 0, 0, 10, 0], c), scans) ==
            Drained(Sim([10, 0, 0, 0, 3], c + 10), Finished)
  {
    var a := [10, 0, 0, 10, 0];
    CappedScans(max, cv, stream);
    DrainPhase(DrainOf(max, cv, stream), scans, a, c);
    DrainOfAt(max, cv, stream, a, c, scans);
    assert CappedDrained(a) == [10, 0, 0, 0, 3];
  }

  // ---------------------------------------------------------------------
  // The rounds from time 1 on.
  // ---------------------------------------------------------------------

  /** One round from time t with res1 left and res4 spent: the timed
      conversion fires, nothing else is affordable, and the loop goes on at
      t + 1 while res1 is left. */
  lemma TimedRound(max: seq<Option<int>>, cv: Conversion, tv: Conversion, stream: nat -> real,
                   scans: nat, rounds: nat, t: int, a: seq<int>, c: nat)
    requires MovesCapped(max, cv, stream) && MovesTimed(max, tv, stream)
    requires |a| == 5 && a[3] == 0 && a[0] >= 1 && rounds > 0 && t + 1 < 100 && scans > 0
    ensures var r := Rules(max, [cv], [Periodic(tv, 1)]);
            var s' := Sim(AfterTimed(a), c + 1);
            Loop(Snapshot, r, stream, 100, scans, t, Sim(a, c), [t], rounds) ==
              if a[0] > 1 then Loop(Snapshot, r, stream, 100, scans, t + 1, s', [t + 1], rounds - 1)
              else Run(s', [t + 1], Finished, 100)
  {
    var r := Rules(max, [cv], [Periodic(tv, 1)]);
    assert RulesValid(r);
    LoopStep(Snapshot, r, stream, 100, scans, t, Sim(a, c), [t], rounds);
    FireSingle(max, Periodic(tv, 1), stream, t, Sim(a, c), t);
    var a' := AfterTimed(a);
    DrainIdle(max, cv, stream, Sim(a', c + 1), scans);
    NextSingle(Periodic(tv, 1), a', t + 1, 100);
  }

  /** Names one round; it only serves to pick the instances of the
      quantifier in RoundsAsTimed that a proof uses. */
  ghost predicate RoundAt(t: int, a: seq<int>, c: nat, rounds: nat) {
    true
  }

  /** `run(t, a, c, rounds)` is a loop from time t, amounts a, c random
      values drawn and its one timer at t: every round with res1 left and
      res4 spent goes as TimedRound says. */
  ghost predicate RoundsAsTimed(run: (int, seq<int>, nat, nat) -> Run) {
    forall t: int, a: seq<int>, c: nat, rounds: nat {:trigger RoundAt(t, a, c, rounds)} ::
      RoundAt(t, a, c, rounds) && |a| == 5 && a[3] == 0 && a[0] >= 1 && rounds > 0 && t + 1 < 100 ==>
        run(t, a, c, rounds) ==
          if a[0] > 1 then run(t + 1, AfterTimed(a), c + 1, rounds - 1)
          else Run(Sim(AfterTimed(a), c + 1), [t + 1], Finished, 100)
  }

  /** The loop over cv and tv, as a function of the time, the amounts, the
      draws and the round bound. */
  ghost function LoopOf(max: seq<Option<int>>, cv: Conversion, tv: Conversion, stream: nat -> real, scans: nat)
    : (int, seq<int>, nat, nat) -> Run
    requires |max| == 5 && Bound(cv, 5) && Bound(tv, 5)
  {
    var r := Rules(max, [cv], [Periodic(tv, 1)]);
    assert RulesValid(r);
    (t: int, a: seq<int>, c: nat, rounds: nat) =>
      if |a| == 5 then Loop(Snapshot, r, stream, 100, scans, t, Sim(a, c), [t], rounds) else Run(Sim(a, c), [t], OutOfFuel, t)
  }

  lemma LoopOfAt(max: seq<Option<int>>, cv: Conversion, tv: Conversion, stream: nat -> real, scans: nat,
                 t: int, a: seq<int>, c: nat, rounds: nat)
    requires |max| == 5 && Bound(cv, 5) && Bound(tv, 5) && |a| == 5
    ensures var r := Rules(max, [cv], [Periodic(tv, 1)]);
            RulesValid(r) && LoopOf(max, cv, tv, stream, scans)(t, a, c, rounds) ==
                             Loop(Snapshot, r, stream, 100, scans, t, Sim(a, c), [t], rounds)
  {
    assert RulesValid(Rules(max, [cv], [Periodic(tv, 1)]));
  }

  /** TimedRound, stated on LoopOf. */
  lemma TimedRoundOf(max: seq<Option<int>>, cv: Conversion, tv: Conversion, stream: nat -> real, scans: nat,
                     t: int, a: seq<int>, c: nat, rounds: nat)
    requires MovesCapped(max, cv, stream) && MovesTimed(max, tv, stream) && scans > 0
    requires |a| == 5 && a[3] == 0 && a[0] >= 1 && rounds > 0 && t + 1 < 100
    ensures LoopOf(max, cv, tv, stream, scans)(t, a, c, rounds) ==
              if a[0] > 1 then LoopOf(max, cv, tv, stream, scans)(t + 1, AfterTimed(a), c + 1, rounds - 1)
              else Run(Sim(AfterTimed(a), c + 1), [t + 1], Finished, 100)
  {
    LoopOfAt(max, cv, tv, stream, scans, t, a, c, rounds);
    LoopOfAt(max, cv, tv, stream, scans, t + 1, AfterTimed(a), c + 1, rounds - 1);
    TimedRound(max, cv, tv, stream, scans, rounds, t, a, c);
  }

  lemma TimedRounds(max: seq<Option<int>>, cv: Conversion, tv: Conversion, stream: nat -> real, scans: nat)
    requires MovesCapped(max, cv, stream) && MovesTimed(max, tv, stream) && scans > 0
    ensures RoundsAsTimed(LoopOf(max, cv, tv, stream, scans))
  {
    forall t: int, a: seq<int>, c: nat, rounds: nat {:trigger RoundAt(t, a, c, rounds)}
      | RoundAt(t, a, c, rounds) && |a| == 5 && a[3] == 0 && a[0] >= 1 && rounds > 0 && t + 1 < 100
      ensures LoopOf(max, cv, tv, stream, scans)(t, a, c, rounds) ==
                if a[0] > 1 then LoopOf(max, cv, tv, stream, scans)(t + 1, AfterTimed(a), c + 1, rounds - 1)
                else Run(Sim(AfterTimed(a), c + 1), [t + 1], Finished, 100)
    {
      TimedRoundOf(max, cv, tv, stream, scans, t, a, c, rounds);
    }
  }

  /** The end of the timed phase, seen one round later. */
  lemma TimedEnd(t: int, a: seq<int>, c: nat)
    requires |a| == 5 && a[0] >= 1
    ensures var a' := AfterTimed(a);
            a[0] > 1 ==> Run(Sim(TimedDrained(a'), c + 1 + a'[0]), [t + 1 + a'[0]], Finished, 100) ==
                         Run(Sim(TimedDrained(a), c + a[0]), [t + a[0]], Finished, 100)
    ensures a[0] == 1 ==> Run(Sim(AfterTimed(a), c + 1), [t + 1], Finished, 100) ==
                          Run(Sim(TimedDrained(a), c + a[0]), [t + a[0]], Finished, 100)
  {
    TimedDrainedStep(a);
  }

  lemma TimedDrainedShape(x0: int, x1: int, x2: int, x3: int, x4: int)
    ensures TimedDrained([x0, x1, x2, x3, x4]) == [0, x1 + x0, if x2 + x0 < 5 then x2 + x0 else 5, x3, x4]
  {
  }

  /** From time t on, with res1 left and res4 spent: the timed conversion
      fires once a second until res1 is spent, then time jumps to 100. */
  lemma {:induction false} TimedPhase(run: (int, seq<int>, nat, nat) -> Run, rounds: nat, t: int, a: seq<int>, c: nat)
    requires RoundsAsTimed(run)
    requires |a| == 5 && a[3] == 0 && 1 <= a[0] <= rounds && t + a[0] < 100
    ensures run(t, a, c, rounds) == Run(Sim(TimedDrained(a), c + a[0]), [t + a[0]], Finished, 100)
    decreases a[0]
  {
    assert RoundAt(t, a, c, rounds);
    TimedEnd(t, a, c);
    if a[0] > 1 {
      TimedDrainedStep(a);
      TimedPhase(run, rounds - 1, t + 1, AfterTimed(a), c + 1);
    }
  }

  /** The loop from time t with res1 left and res4 spent: res1 is spent
      one unit a second, then time jumps to 100. */
  lemma TimedLoop(max: seq<Option<int>>, cv: Conversion, tv: Conversion, stream: nat -> real,
                  scans: nat, rounds: nat, t: int, a: seq<int>, c: nat)
    requires MovesCapped(max, cv, stream) && MovesTimed(max, tv, stream) && scans > 0
    requires |a| == 5 && a[3] == 0 && 1 <= a[0] <= rounds && t + a[0] < 100
    ensures Loop(Snapshot, Rules(max, [cv], [Periodic(tv, 1)]), stream, 100, scans, t, Sim(a, c), [t], rounds) ==
            Run(Sim(TimedDrained(a), c + a[0]), [t + a[0]], Finished, 100)
  {
    TimedRounds(max, cv, tv, stream, scans);
    TimedPhase(LoopOf(max, cv, tv, stream, scans), rounds, t, a, c);
    LoopOfAt(max, cv, tv, stream, scans, t, a, c, rounds);
  }

  // ---------------------------------------------------------------------
  // The whole simulation.
  // ---------------------------------------------------------------------

  /** The first round, at time 0: no timer is due, the drain runs, and the
      affordable timed conversion sets the next time to 1. */
  lemma FirstRound(max: seq<Option<int>>, cv: Conversion, tv: Conversion, stream: nat -> real,
                   scans: nat, rounds: nat, c: nat)
    requires MovesCapped(max, cv, stream) && MovesTimed(max, tv, stream) && scans >= 11 && rounds > 0
    ensures var r := Rules(max, [cv], [Periodic(tv, 1)]);
            RulesValid(r) &&
            Simulation(Snapshot, r, stream, 100, scans, Sim([10, 0, 0, 10, 0], c), [1], rounds) ==
            Loop(Snapshot, r, stream, 100, scans, 1, Sim([10, 0, 0, 0, 3], c + 10), [1], rounds - 1)
  {
    var r := Rules(max, [cv], [Periodic(tv, 1)]);
    assert RulesValid(r);
    var s := Sim([10, 0, 0, 10, 0], c);
    LoopStep(Snapshot, r, stream, 100, scans, 0, s, [1], rounds);
    FireSingle(max, Periodic(tv, 1), stream, 0, s, 1);
    DrainAtStart(max, cv, stream, scans, c);
    NextSingle(Periodic(tv, 1), [10, 0, 0, 0, 3], 1, 100);
  }

  /** simulate(100) over the two conversions from the test's amounts and a
      timer at 1 second: res1 0, res2 10, res3 5, res4 0 and res5 3, after
      ten executions of each conversion. */
  lemma SimulationOf(max: seq<Option<int>>, cv: Conversion, tv: Conversion, stream: nat -> real,
                     scans: nat, rounds: nat, c: nat)
    requires MovesCapped(max, cv, stream) && MovesTimed(max, tv, stream) && scans >= 11 && rounds >= 11
    ensures Simulation(Snapshot, Rules(max, [cv], [Periodic(tv, 1)]), stream, 100, scans, Sim([10, 0, 0, 10, 0], c), [1], rounds) ==
            Run(Sim([0, 10, 5, 0, 3], c + 20), [11], Finished, 100)
  {
    FirstRound(max, cv, tv, stream, scans, rounds, c);
    TimedLoop(max, cv, tv, stream, scans, rounds - 1, 1, [10, 0, 0, 0, 3], c + 10);
    TimedDrainedShape(10, 0, 0, 0, 3);
    assert c + 10 + 10 == c + 20;
  }

  /** simulate(100) on the test rules. */
  lemma TestSimulation(stream: nat -> real, scans: nat, rounds: nat, c: nat)
    requires Uniform(stream) && scans >= 11 && rounds >= 11
    ensures Simulation(Snapshot, TestRules, stream, 100, scans, Sim([10, 0, 0, 10, 0], c), [1], rounds) ==
            Run(Sim([0, 10, 5, 0, 3], c + 20), [11], Finished, 100)
  {
    CappedMoves(stream);
    TimedMoves(stream);
    SimulationOf(Caps, Capped, Timed, stream, scans, rounds, c);
  }

  /** `new Game(config)` on the test configuration over the names `n`. */
  method CreateTest(n: seq<string>, parse: string -> Option<int>, random: Random) returns (game: Game)
    requires |n| == 5 && Distinct(n) && parse("1s") == Some(1000)
    ensures fresh(game) && fresh(game.ledger.amount) && game.random == random
    ensures forall p :: p in game.periodConversions ==> fresh(p)
    ensures game.Valid() && game.initAmounts == ConfigOf(n).initAmounts
    ensures RulesOf(game.ledger, game.conversions, game.periodConversions) == TestRules
    ensures TimersOf(game.periodConversions) == [1]
    ensures game.ledger.names == n && game.ledger.amount[..] == [10, 0, 0, 10, 0]
  {
    CreatesOf(n, parse);
    var created := Game.Create(ConfigOf(n), parse, random);
    game := created.value;
    CreatedRulesOf(game, n, parse);
  }

  /** `game.simulate(100)` on the freshly created test game. */
  method SimulateTest(game: Game, scans: nat, rounds: nat)
    requires game.Valid() && Uniform(game.random.stream) && scans >= 11 && rounds >= 11
    requires RulesOf(game.ledger, game.conversions, game.periodConversions) == TestRules
    requires TimersOf(game.periodConversions) == [1] && game.ledger.amount[..] == [10, 0, 0, 10, 0]
    modifies game.ledger.amount, game.random, set p | p in game.periodConversions
    ensures game.ledger.amount[..] == [0, 10, 5, 0, 3]
  {
    TestSimulation(game.random.stream, scans, rounds, game.random.calls);
    var status := game.Simulate(100, scans, rounds);
  }

  /** The test over any five distinct names `n` in the places of res1 .. res5. */
  method GameOf(n: seq<string>, parse: string -> Option<int>, random: Random, scans: nat, rounds: nat)
    returns (simulated: map<string, int>, reset: map<string, int>)
    requires |n| == 5 && Distinct(n)
    requires parse("1s") == Some(1000) && Uniform(random.stream) && scans >= 11 && rounds >= 11
    modifies random
    ensures simulated == map[n[0] := 0, n[1] := 10, n[2] := 5, n[3] := 0, n[4] := 3]
    ensures reset == map[n[0] := 10, n[1] := 0, n[2] := 0, n[3] := 10, n[4] := 0]
  {
    var game := CreateTest(n, parse, random);
    SimulateTest(game, scans, rounds);
    simulated := game.Result();
    MapOfFive(simulated, n, [0, 10, 5, 0, 3]);
    game.Reset();
    AmountsOf(n);
    reset := game.Result();
    MapOfFive(reset, n, [10, 0, 0, 10, 0]);
  }

  /** The test of test/index.ts: after simulate(100) the result holds
      res1 0, res2 10, res3 5, res4 0, res5 3; after reset it holds 10, 0,
      0, 10, 0. `scans` and `rounds` bound the two loops, and 11 of each
      suffice. */
  method TestGame(parse: string -> Option<int>, random: Random, scans: nat, rounds: nat)
    returns (simulated: map<string, int>, reset: map<string, int>)
    requires parse("1s") == Some(1000) && Uniform(random.stream) && scans >= 11 && rounds >= 11
    modifies random
    ensures simulated == map["res1" := 0, "res2" := 10, "res3" := 5, "res4" := 0, "res5" := 3]
    ensures reset == map["res1" := 10, "res2" := 0, "res3" := 0, "res4" := 10, "res5" := 0]
  {
    simulated, reset := GameOf(Names, parse, random, scans, rounds);
  }
}
