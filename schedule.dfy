/** Periodic conversions and the pieces of the simulation loop: firing due
    periodic conversions, draining the immediate conversions to a fixed point,
    and the time jump. Game.simulate (src/game.ts) and simulate (src/calc.ts)
    are the same loop except for the drain: game.ts filters the affordable
    conversions once per scan and then executes all of them (Snapshot);
    calc.ts checks each conversion just before executing it (Recheck). */
module Schedule {
  import opened Wrappers
  import opened Config
  import opened Conversions
  import opened Seqs

  // ---------------------------------------------------------------------
  // The value-level meaning of the loop.
  // ---------------------------------------------------------------------

  /** A periodic conversion: its conversion and its period in seconds. */
  datatype Periodic = Periodic(conv: Conversion, period: int)

  /** The fixed structure of a simulation. */
  datatype Rules = Rules(max: seq<Option<int>>, immediate: seq<Conversion>, periodic: seq<Periodic>)

  /** The mutable state outside the timers: the item amounts and the number of
      values drawn from the random source so far. */
  datatype Sim = Sim(amounts: seq<int>, calls: nat)

  datatype Status = Finished | Bug | OutOfFuel

  /** Which drain loop runs: game.ts's or calc.ts's. */
  datatype Policy = Snapshot | Recheck

  predicate AllBound(cs: seq<Conversion>, n: nat) {
    forall i :: 0 <= i < |cs| ==> Bound(cs[i], n)
  }

  predicate PeriodicBound(ps: seq<Periodic>, n: nat) {
    forall i :: 0 <= i < |ps| ==> Bound(ps[i].conv, n)
  }

  predicate RulesValid(r: Rules) {
    AllBound(r.immediate, |r.max|) && PeriodicBound(r.periodic, |r.max|)
  }

  datatype Step = Step(sim: Sim, ok: bool)

  /** One execute of `c`, drawing the next value of the random source. */
  function ExecIn(max: seq<Option<int>>, c: Conversion, stream: nat -> real, s: Sim): (t: Step)
    requires |s.amounts| == |max| && Bound(c, |max|)
    ensures |t.sim.amounts| == |max| && t.sim.calls == s.calls + 1
  {
    var e := ExecSpec(s.amounts, max, c, stream(s.calls));
    Step(Sim(e.amounts, s.calls + 1), e.ok)
  }

  datatype Fired = Fired(sim: Sim, timers: seq<int>, ok: bool)

  /** The periodic pass from conversion i on: each conversion whose timer equals
      `time` executes, affordable or not, and its timer advances by its period
      when no BugError was raised. */
  function FireDue(max: seq<Option<int>>, ps: seq<Periodic>, stream: nat -> real, time: int,
                   s: Sim, timers: seq<int>, i: nat): (f: Fired)
    requires |s.amounts| == |max| && PeriodicBound(ps, |max|) && |timers| == |ps| && i <= |ps|
    ensures |f.sim.amounts| == |max| && |f.timers| == |ps|
    decreases |ps| - i
  {
    if i == |ps| then Fired(s, timers, true)
    else if timers[i] != time then FireDue(max, ps, stream, time, s, timers, i + 1)
    else
      var e := ExecIn(max, ps[i].conv, stream, s);
      if !e.ok then Fired(e.sim, timers, false)
      else FireDue(max, ps, stream, time, e.sim, timers[i := timers[i] + ps[i].period], i + 1)
  }

  /** The indices below n of the conversions affordable in `a`, in order:
      `this.conversions.filter(conv => conv.canExecute())`. */
  function Available(cs: seq<Conversion>, a: seq<int>, n: nat): (idx: seq<nat>)
    requires AllBound(cs, |a|) && n <= |cs|
    ensures forall k :: 0 <= k < |idx| ==> idx[k] < n
    decreases n
  {
    if n == 0 then []
    else Available(cs, a, n - 1) + (if Affordable(cs[n - 1], a) then [n - 1] else [])
  }

  /** An execution within a scan: which conversion, and the amounts just before. */
  datatype Shot = Shot(conv: nat, before: seq<int>)

  /** One scan of the immediate conversions: the state after it, the
      executions it made, and false when one of them raised BugError. */
  datatype Scan = Scan(sim: Sim, shots: seq<Shot>, ok: bool)

  /** Executes the conversions `idx` one after another, without any check. */
  function RunAll(max: seq<Option<int>>, cs: seq<Conversion>, stream: nat -> real,
                  idx: seq<nat>, s: Sim): (sc: Scan)
    requires |s.amounts| == |max| && AllBound(cs, |max|)
    requires forall k :: 0 <= k < |idx| ==> idx[k] < |cs|
    ensures |sc.sim.amounts| == |max|
    decreases |idx|
  {
    if idx == [] then Scan(s, [], true)
    else
      var e := ExecIn(max, cs[idx[0]], stream, s);
      if !e.ok then Scan(e.sim, [Shot(idx[0], s.amounts)], false)
      else
        var rest := RunAll(max, cs, stream, idx[1..], e.sim);
        Scan(rest.sim, [Shot(idx[0], s.amounts)] + rest.shots, rest.ok)
  }

  /** game.ts's scan: filter first, then execute every conversion that passed. */
  function SnapshotScan(max: seq<Option<int>>, cs: seq<Conversion>, stream: nat -> real, s: Sim): (sc: Scan)
    requires |s.amounts| == |max| && AllBound(cs, |max|)
    ensures |sc.sim.amounts| == |max|
  {
    RunAll(max, cs, stream, Available(cs, s.amounts, |cs|), s)
  }

  /** calc.ts's scan from conversion i on: each conversion executes only if
      it is affordable just before its turn. */
  function CheckedScan(max: seq<Option<int>>, cs: seq<Conversion>, stream: nat -> real,
                       s: Sim, i: nat): (sc: Scan)
    requires |s.amounts| == |max| && AllBound(cs, |max|) && i <= |cs|
    ensures |sc.sim.amounts| == |max|
    decreases |cs| - i
  {
    if i == |cs| then Scan(s, [], true)
    else if !Affordable(cs[i], s.amounts) then CheckedScan(max, cs, stream, s, i + 1)
    else
      var e := ExecIn(max, cs[i], stream, s);
      if !e.ok then Scan(e.sim, [Shot(i, s.amounts)], false)
      else
        var rest := CheckedScan(max, cs, stream, e.sim, i + 1);
        Scan(rest.sim, [Shot(i, s.amounts)] + rest.shots, rest.ok)
  }

  function ScanOnce(policy: Policy, max: seq<Option<int>>, cs: seq<Conversion>, stream: nat -> real, s: Sim): (sc: Scan)
    requires |s.amounts| == |max| && AllBound(cs, |max|)
    ensures |sc.sim.amounts| == |max|
  {
    match policy
    case Snapshot => SnapshotScan(max, cs, stream, s)
    case Recheck => CheckedScan(max, cs, stream, s, 0)
  }

  datatype Drained = Drained(sim: Sim, status: Status)

  /** The drain loop: scans until one scan executes nothing; at most `scans`
      scans (the source's loop has no bound). */
  function Drain(policy: Policy, max: seq<Option<int>>, cs: seq<Conversion>, stream: nat -> real,
                 s: Sim, scans: nat): (d: Drained)
    requires |s.amounts| == |max| && AllBound(cs, |max|)
    ensures |d.sim.amounts| == |max|
    decreases scans
  {
    if scans == 0 then Drained(s, OutOfFuel)
    else
      var sc := ScanOnce(policy, max, cs, stream, s);
      if !sc.ok then Drained(sc.sim, Bug)
      else if sc.shots == [] then Drained(sc.sim, Finished)
      else Drain(policy, max, cs, stream, sc.sim, scans - 1)
  }

  /** The reduce of the time jump, from conversion i on, with running value t. */
  function Reduce(ps: seq<Periodic>, a: seq<int>, timers: seq<int>, t: int, i: nat): int
    requires PeriodicBound(ps, |a|) && |timers| == |ps| && i <= |ps|
    decreases |ps| - i
  {
    if i == |ps| then t
    else Reduce(ps, a, timers, if Affordable(ps[i].conv, a) && timers[i] < t then timers[i] else t, i + 1)
  }

  /** The time jump: the earliest timer of an affordable periodic conversion,
      or maxTime. */
  function NextTime(ps: seq<Periodic>, a: seq<int>, timers: seq<int>, maxTime: int): int
    requires PeriodicBound(ps, |a|) && |timers| == |ps|
  {
    Reduce(ps, a, timers, maxTime, 0)
  }

  /** The result of a simulation: state, timers, how it ended, and the value
      of its local `time` at that point. */
  datatype Run = Run(sim: Sim, timers: seq<int>, status: Status, time: int)

  /** The outer do-while loop from `time` on; at most `rounds` rounds. */
  function Loop(policy: Policy, r: Rules, stream: nat -> real, maxTime: int, scans: nat,
                time: int, s: Sim, timers: seq<int>, rounds: nat): (run: Run)
    requires RulesValid(r) && |s.amounts| == |r.max| && |timers| == |r.periodic|
    ensures |run.sim.amounts| == |r.max| && |run.timers| == |r.periodic|
    decreases rounds
  {
    if rounds == 0 then Run(s, timers, OutOfFuel, time)
    else
      var f := FireDue(r.max, r.periodic, stream, time, s, timers, 0);
      if !f.ok then Run(f.sim, f.timers, Bug, time)
      else
        var d := Drain(policy, r.max, r.immediate, stream, f.sim, scans);
        if d.status != Finished then Run(d.sim, f.timers, d.status, time)
        else
          var t := NextTime(r.periodic, d.sim.amounts, f.timers, maxTime);
          if t < maxTime then Loop(policy, r, stream, maxTime, scans, t, d.sim, f.timers, rounds - 1)
          else Run(d.sim, f.timers, Finished, t)
  }

  /** simulate(maxTime): the loop, started with `time = 0`. */
  function Simulation(policy: Policy, r: Rules, stream: nat -> real, maxTime: int, scans: nat,
                      s: Sim, timers: seq<int>, rounds: nat): (run: Run)
    requires RulesValid(r) && |s.amounts| == |r.max| && |timers| == |r.periodic|
  {
    Loop(policy, r, stream, maxTime, scans, 0, s, timers, rounds)
  }

  // ---------------------------------------------------------------------
  // Properties of the loop.
  // ---------------------------------------------------------------------

  /** The filter keeps exactly the affordable conversions, in index order. */
  lemma {:induction false} AvailableExactly(cs: seq<Conversion>, a: seq<int>, n: nat)
    requires AllBound(cs, |a|) && n <= |cs|
    ensures forall i :: i in Available(cs, a, n) <==> 0 <= i < n && Affordable(cs[i], a)
    ensures forall k, l :: 0 <= k < l < |Available(cs, a, n)| ==>
              Available(cs, a, n)[k] < Available(cs, a, n)[l]
    decreases n
  {
    if n > 0 {
      AvailableExactly(cs, a, n - 1);
      var prev := Available(cs, a, n - 1);
      var idx := Available(cs, a, n);
      assert idx == prev + (if Affordable(cs[n - 1], a) then [n - 1] else []);
      forall k, l | 0 <= k < l < |idx| ensures idx[k] < idx[l] {
        if l < |prev| {
          assert idx[k] == prev[k] && idx[l] == prev[l];
        } else {
          assert idx[k] == prev[k] && idx[l] == n - 1;
        }
      }
    }
  }

  /** Running a list of conversions executes each of them, in order, unless a
      BugError stops it; an empty list changes nothing. */
  lemma {:induction false} RunAllShots(max: seq<Option<int>>, cs: seq<Conversion>, stream: nat -> real,
                                       idx: seq<nat>, s: Sim)
    requires |s.amounts| == |max| && AllBound(cs, |max|)
    requires forall k :: 0 <= k < |idx| ==> idx[k] < |cs|
    ensures var sc := RunAll(max, cs, stream, idx, s);
            && (sc.shots == [] <==> idx == [])
            && (idx == [] ==> sc.sim == s && sc.ok)
            && (sc.ok ==> |sc.shots| == |idx| && forall k :: 0 <= k < |idx| ==> sc.shots[k].conv == idx[k])
    decreases |idx|
  {
    if idx != [] {
      var e := ExecIn(max, cs[idx[0]], stream, s);
      if e.ok {
        RunAllShots(max, cs, stream, idx[1..], e.sim);
      }
    }
  }

  /** Within one game.ts scan, exactly the conversions affordable at the start
      of the scan execute, in order. */
  lemma SnapshotScanFiresAvailable(max: seq<Option<int>>, cs: seq<Conversion>, stream: nat -> real, s: Sim)
    requires |s.amounts| == |max| && AllBound(cs, |max|)
    requires SnapshotScan(max, cs, stream, s).ok
    ensures var sc := SnapshotScan(max, cs, stream, s);
            && (forall k :: 0 <= k < |sc.shots| ==> sc.shots[k].conv < |cs|)
            && (forall i :: 0 <= i < |cs| ==>
                  ((exists k :: 0 <= k < |sc.shots| && sc.shots[k].conv == i) <==> Affordable(cs[i], s.amounts)))
            && (forall k, l :: 0 <= k < l < |sc.shots| ==> sc.shots[k].conv < sc.shots[l].conv)
  {
    var idx := Available(cs, s.amounts, |cs|);
    AvailableExactly(cs, s.amounts, |cs|);
    RunAllShots(max, cs, stream, idx, s);
    var sc := SnapshotScan(max, cs, stream, s);
    forall i | 0 <= i < |cs| && Affordable(cs[i], s.amounts)
      ensures exists k :: 0 <= k < |sc.shots| && sc.shots[k].conv == i
    {
      assert i in idx;
      var k :| 0 <= k < |idx| && idx[k] == i;
      assert sc.shots[k].conv == i;
    }
  }

  /** The conversion of the shot was affordable just before it executed. */
  predicate ShotAffordable(cs: seq<Conversion>, sh: Shot) {
    sh.conv < |cs| && Bound(cs[sh.conv], |sh.before|) && Affordable(cs[sh.conv], sh.before)
  }

  /** Every shot of the list was affordable when it executed. */
  predicate Gated(cs: seq<Conversion>, shots: seq<Shot>) {
    forall k :: 0 <= k < |shots| ==> ShotAffordable(cs, shots[k])
  }

  /** In a calc.ts scan, every execution happens while the conversion is
      affordable. */
  lemma {:induction false} CheckedScanGated(max: seq<Option<int>>, cs: seq<Conversion>, stream: nat -> real,
                                            s: Sim, i: nat)
    requires |s.amounts| == |max| && AllBound(cs, |max|) && i <= |cs|
    ensures Gated(cs, CheckedScan(max, cs, stream, s, i).shots)
    decreases |cs| - i
  {
    if i < |cs| {
      if !Affordable(cs[i], s.amounts) {
        assert CheckedScan(max, cs, stream, s, i) == CheckedScan(max, cs, stream, s, i + 1);
        CheckedScanGated(max, cs, stream, s, i + 1);
      } else {
        var e := ExecIn(max, cs[i], stream, s);
        var head := Shot(i, s.amounts);
        assert ShotAffordable(cs, head);
        if e.ok {
          CheckedScanGated(max, cs, stream, e.sim, i + 1);
          var rest := CheckedScan(max, cs, stream, e.sim, i + 1).shots;
          ConsShotsAffordable(cs, head, rest);
          assert CheckedScan(max, cs, stream, s, i).shots == [head] + rest;
        } else {
          assert CheckedScan(max, cs, stream, s, i).shots == [head];
        }
      }
    }
  }

  lemma ConsShotsAffordable(cs: seq<Conversion>, head: Shot, rest: seq<Shot>)
    requires ShotAffordable(cs, head) && Gated(cs, rest)
    ensures Gated(cs, [head] + rest)
  {
    var shots := [head] + rest;
    forall k | 0 < k < |shots| ensures ShotAffordable(cs, shots[k]) {
      assert shots[k] == rest[k - 1];
    }
  }

  /** A calc.ts scan that executes nothing found every conversion from i on
      unaffordable and changed nothing. */
  lemma {:induction false} CheckedScanIdle(max: seq<Option<int>>, cs: seq<Conversion>, stream: nat -> real,
                                           s: Sim, i: nat)
    requires |s.amounts| == |max| && AllBound(cs, |max|) && i <= |cs|
    requires CheckedScan(max, cs, stream, s, i).shots == []
    ensures CheckedScan(max, cs, stream, s, i) == Scan(s, [], true)
    ensures forall j :: i <= j < |cs| ==> !Affordable(cs[j], s.amounts)
    decreases |cs| - i
  {
    if i < |cs| {
      CheckedScanIdle(max, cs, stream, s, i + 1);
    }
  }

  /** When the drain loop ends normally, no immediate conversion is affordable:
      the ledger is at a fixed point of the immediate conversions. */
  lemma {:induction false} DrainFixedPoint(policy: Policy, max: seq<Option<int>>, cs: seq<Conversion>,
                                           stream: nat -> real, s: Sim, scans: nat)
    requires |s.amounts| == |max| && AllBound(cs, |max|)
    requires Drain(policy, max, cs, stream, s, scans).status == Finished
    ensures var d := Drain(policy, max, cs, stream, s, scans);
            forall j :: 0 <= j < |cs| ==> !Affordable(cs[j], d.sim.amounts)
    decreases scans
  {
    var sc := ScanOnce(policy, max, cs, stream, s);
    if sc.shots == [] {
      ScanIdle(policy, max, cs, stream, s);
    } else {
      DrainFixedPoint(policy, max, cs, stream, sc.sim, scans - 1);
    }
  }

  /** Under either policy, a scan that executes nothing changes nothing, and
      happens exactly when no immediate conversion is affordable. */
  lemma ScanIdle(policy: Policy, max: seq<Option<int>>, cs: seq<Conversion>, stream: nat -> real, s: Sim)
    requires |s.amounts| == |max| && AllBound(cs, |max|)
    ensures var sc := ScanOnce(policy, max, cs, stream, s);
            sc.shots == [] <==> forall j :: 0 <= j < |cs| ==> !Affordable(cs[j], s.amounts)
    ensures var sc := ScanOnce(policy, max, cs, stream, s);
            sc.shots == [] ==> sc == Scan(s, [], true)
  {
    var sc := ScanOnce(policy, max, cs, stream, s);
    if policy == Snapshot {
      var idx := Available(cs, s.amounts, |cs|);
      RunAllShots(max, cs, stream, idx, s);
      AvailableExactly(cs, s.amounts, |cs|);
      if idx != [] {
        assert idx[0] in idx;
      }
    } else if sc.shots == [] {
      CheckedScanIdle(max, cs, stream, s, 0);
    } else {
      CheckedScanBusy(max, cs, stream, s, 0);
    }
  }

  /** A calc.ts scan that executes something found an affordable conversion. */
  lemma {:induction false} CheckedScanBusy(max: seq<Option<int>>, cs: seq<Conversion>, stream: nat -> real,
                                           s: Sim, i: nat)
    requires |s.amounts| == |max| && AllBound(cs, |max|) && i <= |cs|
    requires CheckedScan(max, cs, stream, s, i).shots != []
    ensures exists j :: i <= j < |cs| && Affordable(cs[j], s.amounts)
    decreases |cs| - i
  {
    if !Affordable(cs[i], s.amounts) {
      CheckedScanBusy(max, cs, stream, s, i + 1);
    }
  }

  /** Unlike calc.ts, game.ts can execute a conversion that stopped being
      affordable earlier in the same scan: two conversions each need the only
      unit of item 0; both pass the filter and both execute, the second one
      on an empty balance. */
  lemma SnapshotCanExecuteUnaffordable()
    ensures var c := Conversion([Input(0, 1, false)], [Outcome(0, 1, [])], 1);
            var sc := SnapshotScan([None], [c, c], _ => 0.0, Sim([1], 0));
            && sc.ok && |sc.shots| == 2 && sc.shots[1].conv == 1 && |sc.shots[1].before| == 1
            && !Affordable(c, sc.shots[1].before)
  {
    var c := Conversion([Input(0, 1, false)], [Outcome(0, 1, [])], 1);
    var stream: nat -> real := _ => 0.0;
    assert !CanSpend(c.inputs[0], [0]);
    assert Affordable(c, [1]) && !Affordable(c, [0]);
    assert Available([c, c], [1], 2) == [0, 1];
    assert SpendAll([1], c.inputs) == [0];
    assert SpendAll([0], c.inputs) == [0];
    assert Draw(0.0, 1) == 0;
    assert ExecIn([None], c, stream, Sim([1], 0)) == Step(Sim([0], 1), true);
    assert ExecIn([None], c, stream, Sim([0], 1)) == Step(Sim([0], 2), true);
    assert [0, 1][1..] == [1];
    assert [1][1..] == [];
  }

  /** The periodic pass advances, by one period, the timers that were due;
      the others keep their value. */
  lemma {:induction false} FireDueTimers(max: seq<Option<int>>, ps: seq<Periodic>, stream: nat -> real,
                                         time: int, s: Sim, timers: seq<int>, i: nat)
    requires |s.amounts| == |max| && PeriodicBound(ps, |max|) && |timers| == |ps| && i <= |ps|
    requires FireDue(max, ps, stream, time, s, timers, i).ok
    ensures var f := FireDue(max, ps, stream, time, s, timers, i);
            forall j :: 0 <= j < |ps| ==>
              f.timers[j] == if i <= j && timers[j] == time then timers[j] + ps[j].period else timers[j]
    decreases |ps| - i
  {
    if i < |ps| {
      if timers[i] != time {
        FireDueTimers(max, ps, stream, time, s, timers, i + 1);
      } else {
        var e := ExecIn(max, ps[i].conv, stream, s);
        FireDueTimers(max, ps, stream, time, e.sim, timers[i := timers[i] + ps[i].period], i + 1);
      }
    }
  }

  /** The reduce computes min(t, timers of the affordable conversions from i on). */
  lemma {:induction false} ReduceIsMinimum(ps: seq<Periodic>, a: seq<int>, timers: seq<int>, t: int, i: nat)
    requires PeriodicBound(ps, |a|) && |timers| == |ps| && i <= |ps|
    ensures var m := Reduce(ps, a, timers, t, i);
            && m <= t
            && (forall j :: i <= j < |ps| && Affordable(ps[j].conv, a) ==> m <= timers[j])
            && (m == t || exists j :: i <= j < |ps| && Affordable(ps[j].conv, a) && timers[j] == m)
    decreases |ps| - i
  {
    if i < |ps| {
      var t' := if Affordable(ps[i].conv, a) && timers[i] < t then timers[i] else t;
      ReduceIsMinimum(ps, a, timers, t', i + 1);
    }
  }

  /** The time jump lands on maxTime or on the timer of an affordable periodic
      conversion, never above maxTime and never beyond an affordable timer. */
  lemma NextTimeIsMinimum(ps: seq<Periodic>, a: seq<int>, timers: seq<int>, maxTime: int)
    requires PeriodicBound(ps, |a|) && |timers| == |ps|
    ensures var t := NextTime(ps, a, timers, maxTime);
            && t <= maxTime
            && (forall j :: 0 <= j < |ps| && Affordable(ps[j].conv, a) ==> t <= timers[j])
            && (t == maxTime || exists j :: 0 <= j < |ps| && Affordable(ps[j].conv, a) && timers[j] == t)
  {
    ReduceIsMinimum(ps, a, timers, maxTime, 0);
  }

  /** The loop ends normally exactly when `time` reaches maxTime. */
  lemma {:induction false} LoopEndsAtHorizon(policy: Policy, r: Rules, stream: nat -> real, maxTime: int,
                                             scans: nat, time: int, s: Sim, timers: seq<int>, rounds: nat)
    requires RulesValid(r) && |s.amounts| == |r.max| && |timers| == |r.periodic|
    requires Loop(policy, r, stream, maxTime, scans, time, s, timers, rounds).status == Finished
    ensures Loop(policy, r, stream, maxTime, scans, time, s, timers, rounds).time == maxTime
    decreases rounds
  {
    var f := FireDue(r.max, r.periodic, stream, time, s, timers, 0);
    var d := Drain(policy, r.max, r.immediate, stream, f.sim, scans);
    var t := NextTime(r.periodic, d.sim.amounts, f.timers, maxTime);
    NextTimeIsMinimum(r.periodic, d.sim.amounts, f.timers, maxTime);
    if t < maxTime {
      LoopEndsAtHorizon(policy, r, stream, maxTime, scans, t, d.sim, f.timers, rounds - 1);
    }
  }

  /** Without periodic conversions the loop body runs once: one drain, then
      `time` jumps to maxTime. */
  lemma NoPeriodicSingleRound(policy: Policy, r: Rules, stream: nat -> real, maxTime: int,
                              scans: nat, s: Sim, rounds: nat)
    requires RulesValid(r) && |s.amounts| == |r.max| && r.periodic == [] && rounds > 0
    ensures var d := Drain(policy, r.max, r.immediate, stream, s, scans);
            Simulation(policy, r, stream, maxTime, scans, s, [], rounds) ==
              Run(d.sim, [], d.status, if d.status == Finished then maxTime else 0)
  {
  }

  /** The scan bound only cuts runs short: once a drain ends within `n`
      scans, any larger bound gives the same drain. */
  lemma {:induction false} DrainMoreFuel(policy: Policy, max: seq<Option<int>>, cs: seq<Conversion>,
                                         stream: nat -> real, s: Sim, n: nat, m: nat)
    requires |s.amounts| == |max| && AllBound(cs, |max|) && n <= m
    requires Drain(policy, max, cs, stream, s, n).status != OutOfFuel
    ensures Drain(policy, max, cs, stream, s, m) == Drain(policy, max, cs, stream, s, n)
    decreases n
  {
    DrainStep(policy, max, cs, stream, s, n);
    DrainStep(policy, max, cs, stream, s, m);
    var sc := ScanOnce(policy, max, cs, stream, s);
    if sc.ok && sc.shots != [] {
      DrainMoreFuel(policy, max, cs, stream, sc.sim, n - 1, m - 1);
    }
  }

  /** Time is not monotonic: a periodic conversion skipped while unaffordable
      keeps its old timer, and once affordable again it pulls `time` back.
      Conversion A (period 1) needs item 0, which B (period 3) pays; at time 3
      B fires, and the jump goes back to A's stale timer, 1. */
  lemma TimeCanMoveBackwards()
    ensures var a := Periodic(Conversion([Input(0, 1, false)], [Outcome(0, 1, [])], 1), 1);
            var b := Periodic(Conversion([], [Outcome(0, 1, [Win(0, 1, None)])], 1), 3);
            var f := FireDue([None], [a, b], _ => 0.0, 3, Sim([0], 0), [1, 3], 0);
            f.ok && NextTime([a, b], f.sim.amounts, f.timers, 100) == 1
  {
    var a := Periodic(Conversion([Input(0, 1, false)], [Outcome(0, 1, [])], 1), 1);
    var b := Periodic(Conversion([], [Outcome(0, 1, [Win(0, 1, None)])], 1), 3);
    var stream: nat -> real := _ => 0.0;
    assert Draw(0.0, 1) == 0;
    assert PayAll([0], [None], [Win(0, 1, None)]) == [1];
    assert ExecIn([None], b.conv, stream, Sim([0], 0)) == Step(Sim([1], 1), true);
    assert FireDue([None], [a, b], stream, 3, Sim([1], 1), [1, 6], 2) == Fired(Sim([1], 1), [1, 6], true);
    assert FireDue([None], [a, b], stream, 3, Sim([0], 0), [1, 3], 1) == Fired(Sim([1], 1), [1, 6], true);
    assert FireDue([None], [a, b], stream, 3, Sim([0], 0), [1, 3], 0) == Fired(Sim([1], 1), [1, 6], true);
    assert Reduce([a, b], [1], [1, 6], 1, 1) == 1;
    assert Affordable(a.conv, [1]);
  }

  // ---------------------------------------------------------------------
  // PeriodConversion and the loop over the ledger.
  // ---------------------------------------------------------------------

  /** The period in whole seconds of a duration in milliseconds:
      Math.floor(ms / 1000). */
  function PeriodSeconds(ms: int): (p: int)
    ensures p * 1000 <= ms < p * 1000 + 1000
  {
    ms / 1000
  }

  /** A periodic conversion with its timer, nextExecTime. */
  class PeriodConversion {
    const conv: Conversion
    const period: int
    var nextExecTime: int

    constructor (conv: Conversion, period: int)
      ensures this.conv == conv && this.period == period && nextExecTime == period
    {
      this.conv := conv;
      this.period := period;
      nextExecTime := period;
    }

    /** execute; the timer advances by one period unless BugError was raised. */
    method Execute(ledger: Ledger, random: Random) returns (ok: bool)
      requires ledger.Valid() && Bound(conv, ledger.amount.Length)
      modifies this, ledger.amount, random
      ensures var e := ExecSpec(old(ledger.amount[..]), ledger.max, conv, random.stream(old(random.calls)));
              ledger.amount[..] == e.amounts && ok == e.ok
      ensures random.calls == old(random.calls) + 1
      ensures nextExecTime == if ok then old(nextExecTime) + period else old(nextExecTime)
    {
      ok := Conversions.Execute(ledger, conv, random);
      if ok {
        nextExecTime := nextExecTime + period;
      }
    }

    /** reset (game.ts only): the timer goes back to its first value. */
    method Reset()
      modifies this
      ensures nextExecTime == period
    {
      nextExecTime := period;
    }
  }

  /** The fixed part of the periodic conversions. */
  function PeriodicOf(pcs: seq<PeriodConversion>): (ps: seq<Periodic>)
    ensures |ps| == |pcs|
    ensures forall i :: 0 <= i < |pcs| ==> ps[i] == Periodic(pcs[i].conv, pcs[i].period)
  {
    if pcs == [] then [] else [Periodic(pcs[0].conv, pcs[0].period)] + PeriodicOf(pcs[1..])
  }

  /** The timers of the periodic conversions. */
  ghost function TimersOf(pcs: seq<PeriodConversion>): (ts: seq<int>)
    reads set p | p in pcs
    ensures |ts| == |pcs|
    ensures forall i :: 0 <= i < |pcs| ==> ts[i] == pcs[i].nextExecTime
  {
    seq(|pcs|, i reads pcs requires 0 <= i < |pcs| => pcs[i].nextExecTime)
  }

  /** The periodic conversions are distinct objects bound to the ledger. */
  ghost predicate PeriodicReady(ledger: Ledger, pcs: seq<PeriodConversion>) {
    && (forall i :: 0 <= i < |pcs| ==> Bound(pcs[i].conv, |ledger.max|))
    && (forall i, j :: 0 <= i < j < |pcs| ==> pcs[i] != pcs[j])
  }

  /** The periodic pass at `time`. */
  method FirePeriodic(ledger: Ledger, pcs: seq<PeriodConversion>, random: Random, time: int) returns (ok: bool)
    requires ledger.Valid() && PeriodicReady(ledger, pcs)
    modifies ledger.amount, random, set p | p in pcs
    ensures var f := FireDue(ledger.max, PeriodicOf(pcs), random.stream, time,
                             Sim(old(ledger.amount[..]), old(random.calls)), old(TimersOf(pcs)), 0);
            ledger.amount[..] == f.sim.amounts && random.calls == f.sim.calls &&
            TimersOf(pcs) == f.timers && ok == f.ok
  {
    ghost var ps := PeriodicOf(pcs);
    ghost var goal := FireDue(ledger.max, ps, random.stream, time,
                              Sim(ledger.amount[..], random.calls), TimersOf(pcs), 0);
    var i := 0;
    while i < |pcs|
      invariant 0 <= i <= |pcs|
      invariant FireDue(ledger.max, ps, random.stream, time, Sim(ledger.amount[..], random.calls), TimersOf(pcs), i) == goal
    {
      ok := FireOne(ledger, pcs, random, time, i);
      if !ok {
        return;
      }
      i := i + 1;
    }
    ok := true;
  }

  /** The body of the periodic pass for conversion i: it executes if its timer
      equals `time`. The pass goes on from i + 1 unless BugError was raised. */
  method FireOne(ledger: Ledger, pcs: seq<PeriodConversion>, random: Random, time: int, i: nat) returns (ok: bool)
    requires ledger.Valid() && PeriodicReady(ledger, pcs) && i < |pcs|
    modifies ledger.amount, random, pcs[i]
    ensures var f := FireDue(ledger.max, PeriodicOf(pcs), random.stream, time,
                             Sim(old(ledger.amount[..]), old(random.calls)), old(TimersOf(pcs)), i);
            var now := Sim(ledger.amount[..], random.calls);
            f == if ok then FireDue(ledger.max, PeriodicOf(pcs), random.stream, time, now, TimersOf(pcs), i + 1)
                 else Fired(now, TimersOf(pcs), false)
  {
    ghost var ps := PeriodicOf(pcs);
    ghost var timers := TimersOf(pcs);
    ghost var before := Sim(ledger.amount[..], random.calls);
    FireDueStep(ledger.max, ps, random.stream, time, before, timers, i);
    ok := true;
    if pcs[i].nextExecTime == time {
      ok := pcs[i].Execute(ledger, random);
      ghost var e := ExecIn(ledger.max, ps[i].conv, random.stream, before);
      assert e == Step(Sim(ledger.amount[..], random.calls), ok);
      ghost var want := if ok then timers[i := timers[i] + ps[i].period] else timers;
      ghost var now := TimersOf(pcs);
      forall j | 0 <= j < |pcs| ensures now[j] == want[j] {
        if j != i {
          assert pcs[j] != pcs[i];
        }
      }
      assert now == want;
    }
  }

  /** One step of the periodic pass. */
  lemma FireDueStep(max: seq<Option<int>>, ps: seq<Periodic>, stream: nat -> real, time: int,
                    s: Sim, timers: seq<int>, i: nat)
    requires |s.amounts| == |max| && PeriodicBound(ps, |max|) && |timers| == |ps| && i < |ps|
    ensures timers[i] != time ==>
              FireDue(max, ps, stream, time, s, timers, i) == FireDue(max, ps, stream, time, s, timers, i + 1)
    ensures timers[i] == time ==>
              var e := ExecIn(max, ps[i].conv, stream, s);
              FireDue(max, ps, stream, time, s, timers, i) ==
                if !e.ok then Fired(e.sim, timers, false)
                else FireDue(max, ps, stream, time, e.sim, timers[i := timers[i] + ps[i].period], i + 1)
  {
  }

  /** The filter of game.ts's scan: the indices of the affordable conversions. */
  method FilterAvailable(ledger: Ledger, cs: seq<Conversion>) returns (available: seq<nat>)
    requires ledger.Valid() && AllBound(cs, |ledger.max|)
    ensures available == Available(cs, ledger.amount[..], |cs|)
  {
    available := [];
    for i := 0 to |cs|
      invariant available == Available(cs, ledger.amount[..], i)
    {
      var b := CanExecute(ledger, cs[i]);
      if b {
        available := available + [i];
      }
    }
  }

  /** Executes the conversions `idx` in order, stopping at a BugError. */
  method ExecuteAll(ledger: Ledger, cs: seq<Conversion>, idx: seq<nat>, random: Random) returns (ok: bool)
    requires ledger.Valid() && AllBound(cs, |ledger.max|)
    requires forall k :: 0 <= k < |idx| ==> idx[k] < |cs|
    modifies ledger.amount, random
    ensures var sc := RunAll(ledger.max, cs, random.stream, idx, Sim(old(ledger.amount[..]), old(random.calls)));
            ledger.amount[..] == sc.sim.amounts && random.calls == sc.sim.calls && ok == sc.ok
  {
    ghost var goal := RunAll(ledger.max, cs, random.stream, idx, Sim(ledger.amount[..], random.calls));
    assert idx[0..] == idx;
    for k := 0 to |idx|
      invariant var rest := RunAll(ledger.max, cs, random.stream, idx[k..], Sim(ledger.amount[..], random.calls));
                rest.sim == goal.sim && rest.ok == goal.ok
    {
      ghost var before := Sim(ledger.amount[..], random.calls);
      RunAllStep(ledger.max, cs, random.stream, idx[k..], before);
      assert idx[k..][0] == idx[k] && idx[k..][1..] == idx[k + 1..];
      ok := Execute(ledger, cs[idx[k]], random);
      assert ExecIn(ledger.max, cs[idx[k]], random.stream, before) == Step(Sim(ledger.amount[..], random.calls), ok);
      if !ok {
        return;
      }
    }
    ok := true;
  }

  /** One step of RunAll. */
  lemma RunAllStep(max: seq<Option<int>>, cs: seq<Conversion>, stream: nat -> real, idx: seq<nat>, s: Sim)
    requires |s.amounts| == |max| && AllBound(cs, |max|)
    requires forall k :: 0 <= k < |idx| ==> idx[k] < |cs|
    requires idx != []
    ensures var e := ExecIn(max, cs[idx[0]], stream, s);
            var sc := RunAll(max, cs, stream, idx, s);
            if e.ok then sc.sim == RunAll(max, cs, stream, idx[1..], e.sim).sim &&
                         sc.ok == RunAll(max, cs, stream, idx[1..], e.sim).ok
            else sc.sim == e.sim && !sc.ok
  {
  }

  /** game.ts's scan: the affordable conversions are collected first, then all
      of them execute. Returns how many passed the filter. */
  method ScanFiltered(ledger: Ledger, cs: seq<Conversion>, random: Random) returns (n: nat, ok: bool)
    requires ledger.Valid() && AllBound(cs, |ledger.max|)
    modifies ledger.amount, random
    ensures var sc := SnapshotScan(ledger.max, cs, random.stream, Sim(old(ledger.amount[..]), old(random.calls)));
            ledger.amount[..] == sc.sim.amounts && random.calls == sc.sim.calls &&
            ok == sc.ok && (ok ==> n == |sc.shots|)
  {
    var available := FilterAvailable(ledger, cs);
    RunAllShots(ledger.max, cs, random.stream, available, Sim(ledger.amount[..], random.calls));
    n := |available|;
    ok := ExecuteAll(ledger, cs, available, random);
  }

  /** One step of CheckedScan. */
  lemma CheckedScanStep(max: seq<Option<int>>, cs: seq<Conversion>, stream: nat -> real, s: Sim, i: nat)
    requires |s.amounts| == |max| && AllBound(cs, |max|) && i < |cs|
    ensures var sc := CheckedScan(max, cs, stream, s, i);
            var e := ExecIn(max, cs[i], stream, s);
            var rest := CheckedScan(max, cs, stream, e.sim, i + 1);
            if !Affordable(cs[i], s.amounts) then sc == CheckedScan(max, cs, stream, s, i + 1)
            else if !e.ok then sc.sim == e.sim && !sc.ok && |sc.shots| == 1
            else sc.sim == rest.sim && sc.ok == rest.ok && |sc.shots| == 1 + |rest.shots|
  {
  }

  /** calc.ts's scan: each conversion is checked just before it would execute.
      Returns whether any executed. */
  method ScanChecked(ledger: Ledger, cs: seq<Conversion>, random: Random) returns (executed: bool, ok: bool)
    requires ledger.Valid() && AllBound(cs, |ledger.max|)
    modifies ledger.amount, random
    ensures var sc := CheckedScan(ledger.max, cs, random.stream, Sim(old(ledger.amount[..]), old(random.calls)), 0);
            ledger.amount[..] == sc.sim.amounts && random.calls == sc.sim.calls &&
            ok == sc.ok && (executed <==> sc.shots != [])
  {
    ghost var goal := CheckedScan(ledger.max, cs, random.stream, Sim(ledger.amount[..], random.calls), 0);
    ghost var count := 0;
    executed := false;
    for i := 0 to |cs|
      invariant var rest := CheckedScan(ledger.max, cs, random.stream, Sim(ledger.amount[..], random.calls), i);
                rest.sim == goal.sim && rest.ok == goal.ok && count + |rest.shots| == |goal.shots|
      invariant executed <==> count > 0
    {
      ghost var before := Sim(ledger.amount[..], random.calls);
      CheckedScanStep(ledger.max, cs, random.stream, before, i);
      var b := CanExecute(ledger, cs[i]);
      if b {
        ok := Execute(ledger, cs[i], random);
        assert ExecIn(ledger.max, cs[i], random.stream, before) == Step(Sim(ledger.amount[..], random.calls), ok);
        executed := true;
        count := count + 1;
        if !ok {
          return;
        }
      }
    }
    ok := true;
  }

  /** One scan under the given policy; `fired` says whether it executed anything. */
  method ScanConversions(ledger: Ledger, cs: seq<Conversion>, random: Random, policy: Policy)
    returns (fired: bool, ok: bool)
    requires ledger.Valid() && AllBound(cs, |ledger.max|)
    modifies ledger.amount, random
    ensures var sc := ScanOnce(policy, ledger.max, cs, random.stream, Sim(old(ledger.amount[..]), old(random.calls)));
            ledger.amount[..] == sc.sim.amounts && random.calls == sc.sim.calls &&
            ok == sc.ok && (ok ==> (fired <==> sc.shots != []))
  {
    if policy == Snapshot {
      var n;
      n, ok := ScanFiltered(ledger, cs, random);
      fired := n > 0;
    } else {
      fired, ok := ScanChecked(ledger, cs, random);
    }
  }

  /** One scan of the drain, unfolded. */
  lemma DrainStep(policy: Policy, max: seq<Option<int>>, cs: seq<Conversion>, stream: nat -> real, s: Sim, scans: nat)
    requires |s.amounts| == |max| && AllBound(cs, |max|) && scans > 0
    ensures var sc := ScanOnce(policy, max, cs, stream, s);
            Drain(policy, max, cs, stream, s, scans) ==
              if !sc.ok then Drained(sc.sim, Bug)
              else if sc.shots == [] then Drained(sc.sim, Finished)
              else Drain(policy, max, cs, stream, sc.sim, scans - 1)
  {
  }

  /** The drain loop, with at most `scans` scans. */
  method DrainConversions(ledger: Ledger, cs: seq<Conversion>, random: Random, policy: Policy, scans: nat)
    returns (status: Status)
    requires ledger.Valid() && AllBound(cs, |ledger.max|)
    modifies ledger.amount, random
    ensures var d := Drain(policy, ledger.max, cs, random.stream, Sim(old(ledger.amount[..]), old(random.calls)), scans);
            ledger.amount[..] == d.sim.amounts && random.calls == d.sim.calls && status == d.status
  {
    ghost var now := Sim(ledger.amount[..], random.calls);
    ghost var goal := Drain(policy, ledger.max, cs, random.stream, now, scans);
    var left := scans;
    while left > 0
      invariant |now.amounts| == |ledger.max| && Sim(ledger.amount[..], random.calls) == now
      invariant Drain(policy, ledger.max, cs, random.stream, now, left) == goal
    {
      var done;
      done, status, now := DrainScan(ledger, cs, random, policy, left, now, goal);
      if done {
        return status;
      }
      left := left - 1;
    }
    status := OutOfFuel;
  }

  /** One scan of the drain loop: `done` when the loop stops after it. */
  method DrainScan(ledger: Ledger, cs: seq<Conversion>, random: Random, policy: Policy, left: nat,
                   ghost before: Sim, ghost target: Drained)
    returns (done: bool, status: Status, ghost after: Sim)
    requires ledger.Valid() && AllBound(cs, |ledger.max|) && left > 0
    requires Sim(ledger.amount[..], random.calls) == before
    requires Drain(policy, ledger.max, cs, random.stream, before, left) == target
    modifies ledger.amount, random
    ensures Sim(ledger.amount[..], random.calls) == after && |after.amounts| == |ledger.max|
    ensures done ==> target == Drained(after, status)
    ensures !done ==> Drain(policy, ledger.max, cs, random.stream, after, left - 1) == target
  {
    DrainStep(policy, ledger.max, cs, random.stream, before, left);
    var fired, ok := ScanConversions(ledger, cs, random, policy);
    after := Sim(ledger.amount[..], random.calls);
    if !ok {
      return true, Bug, after;
    }
    if !fired {
      return true, Finished, after;
    }
    return false, Finished, after;
  }

  /** The time jump: the reduce over the periodic conversions. */
  method NextExecTime(ledger: Ledger, pcs: seq<PeriodConversion>, maxTime: int) returns (t: int)
    requires ledger.Valid() && PeriodicReady(ledger, pcs)
    ensures t == NextTime(PeriodicOf(pcs), ledger.amount[..], TimersOf(pcs), maxTime)
  {
    ghost var ps := PeriodicOf(pcs);
    t := maxTime;
    for i := 0 to |pcs|
      invariant Reduce(ps, ledger.amount[..], TimersOf(pcs), t, i) == NextTime(ps, ledger.amount[..], TimersOf(pcs), maxTime)
    {
      var b := CanExecute(ledger, pcs[i].conv);
      if b && pcs[i].nextExecTime < t {
        t := pcs[i].nextExecTime;
      }
    }
  }

  /** The rules a ledger and its conversions define. */
  function RulesOf(ledger: Ledger, cs: seq<Conversion>, pcs: seq<PeriodConversion>): Rules {
    Rules(ledger.max, cs, PeriodicOf(pcs))
  }

  /** One round of the loop body: the periodic pass at `time`, then, when it
      succeeds, the drain, then, when that finishes, the time jump. */
  method Round(ledger: Ledger, cs: seq<Conversion>, pcs: seq<PeriodConversion>, random: Random,
               policy: Policy, maxTime: int, scans: nat, time: int) returns (ok: bool, status: Status, next: int)
    requires ledger.Valid() && AllBound(cs, |ledger.max|) && PeriodicReady(ledger, pcs)
    modifies ledger.amount, random, set p | p in pcs
    ensures var r := RulesOf(ledger, cs, pcs);
            var f := FireDue(r.max, r.periodic, random.stream, time,
                             Sim(old(ledger.amount[..]), old(random.calls)), old(TimersOf(pcs)), 0);
            var d := Drain(policy, r.max, r.immediate, random.stream, f.sim, scans);
            && ok == f.ok && TimersOf(pcs) == f.timers
            && (!ok ==> Sim(ledger.amount[..], random.calls) == f.sim)
            && (ok ==> Sim(ledger.amount[..], random.calls) == d.sim && status == d.status)
            && (ok && status == Finished ==> next == NextTime(r.periodic, d.sim.amounts, f.timers, maxTime))
  {
    ok := FirePeriodic(ledger, pcs, random, time);
    ghost var timers := TimersOf(pcs);
    if !ok {
      return ok, Bug, time;
    }
    status := DrainConversions(ledger, cs, random, policy, scans);
    if status != Finished {
      return ok, status, time;
    }
    assert TimersOf(pcs) == timers;
    next := NextExecTime(ledger, pcs, maxTime);
  }

  /** The simulation loop of Game.simulate and of calc.ts's simulate, with at
      most `rounds` rounds of at most `scans` scans each; also returns the
      final value of `time`. */
  method RunLoop(ledger: Ledger, cs: seq<Conversion>, pcs: seq<PeriodConversion>, random: Random,
                 policy: Policy, maxTime: int, scans: nat, rounds: nat) returns (status: Status, time: int)
    requires ledger.Valid() && AllBound(cs, |ledger.max|) && PeriodicReady(ledger, pcs)
    modifies ledger.amount, random, set p | p in pcs
    ensures Run(Sim(ledger.amount[..], random.calls), TimersOf(pcs), status, time) ==
            Simulation(policy, RulesOf(ledger, cs, pcs), random.stream, maxTime, scans,
                       Sim(old(ledger.amount[..]), old(random.calls)), old(TimersOf(pcs)), rounds)
  {
    ghost var goal := Simulation(policy, RulesOf(ledger, cs, pcs), random.stream, maxTime, scans,
                                 Sim(ledger.amount[..], random.calls), TimersOf(pcs), rounds);
    time := 0;
    var left := rounds;
    while left > 0
      invariant Loop(policy, RulesOf(ledger, cs, pcs), random.stream, maxTime, scans, time,
                     Sim(ledger.amount[..], random.calls), TimersOf(pcs), left) == goal
    {
      var done, st, next := LoopRound(ledger, cs, pcs, random, policy, maxTime, scans, time, left, goal);
      if done {
        return st, next;
      }
      time := next;
      left := left - 1;
    }
    status := OutOfFuel;
  }

  /** One iteration of the loop, whose remaining rounds would end in
      `target`: either it ends the loop with `status` at time `next`, or
      the loop goes on at time `next` with one round fewer. */
  method LoopRound(ledger: Ledger, cs: seq<Conversion>, pcs: seq<PeriodConversion>, random: Random,
                   policy: Policy, maxTime: int, scans: nat, time: int, rounds: nat, ghost target: Run)
    returns (done: bool, status: Status, next: int)
    requires ledger.Valid() && AllBound(cs, |ledger.max|) && PeriodicReady(ledger, pcs) && rounds > 0
    requires Loop(policy, RulesOf(ledger, cs, pcs), random.stream, maxTime, scans, time,
                  Sim(ledger.amount[..], random.calls), TimersOf(pcs), rounds) == target
    modifies ledger.amount, random, set p | p in pcs
    ensures done ==> Run(Sim(ledger.amount[..], random.calls), TimersOf(pcs), status, next) == target
    ensures !done ==> next < maxTime &&
                      Loop(policy, RulesOf(ledger, cs, pcs), random.stream, maxTime, scans, next,
                           Sim(ledger.amount[..], random.calls), TimersOf(pcs), rounds - 1) == target
  {
    LoopStep(policy, RulesOf(ledger, cs, pcs), random.stream, maxTime, scans, time,
             Sim(ledger.amount[..], random.calls), TimersOf(pcs), rounds);
    var ok, drained;
    ok, drained, next := Round(ledger, cs, pcs, random, policy, maxTime, scans, time);
    if !ok {
      return true, Bug, time;
    }
    if drained != Finished {
      return true, drained, time;
    }
    done := next >= maxTime;
    status := Finished;
  }

  /** One round of the loop. */
  lemma LoopStep(policy: Policy, r: Rules, stream: nat -> real, maxTime: int, scans: nat,
                 time: int, s: Sim, timers: seq<int>, rounds: nat)
    requires RulesValid(r) && |s.amounts| == |r.max| && |timers| == |r.periodic| && rounds > 0
    ensures var f := FireDue(r.max, r.periodic, stream, time, s, timers, 0);
            var d := Drain(policy, r.max, r.immediate, stream, f.sim, scans);
            var t := NextTime(r.periodic, d.sim.amounts, f.timers, maxTime);
            Loop(policy, r, stream, maxTime, scans, time, s, timers, rounds) ==
              if !f.ok then Run(f.sim, f.timers, Bug, time)
              else if d.status != Finished then Run(d.sim, f.timers, d.status, time)
              else if t < maxTime then Loop(policy, r, stream, maxTime, scans, t, d.sim, f.timers, rounds - 1)
              else Run(d.sim, f.timers, Finished, t)
  {
  }

  // ---------------------------------------------------------------------
  // Construction of the conversions of a simulation.
  // ---------------------------------------------------------------------

  /** The error the construction of one conversion raises, if any: an unknown
      item first (the Conversion constructor), then an unparsable period (the
      PeriodConversion constructor, for a conversion with a truthy period). */
  function ConversionError(cfg: ConversionConfig, names: seq<string>, parse: string -> Option<int>): Option<Error> {
    match FirstUnknown(names, ReferencedNames(cfg))
    case Some(n) => Some(UnknownItem(n))
    case None =>
      if TruthyString(cfg.period) && parse(cfg.period.value).None? then Some(InvalidPeriod(cfg.period.value))
      else None
  }

  /** The error the construction of a list of conversions raises: the first
      conversion that fails decides. */
  function FirstError(cfgs: seq<ConversionConfig>, names: seq<string>, parse: string -> Option<int>): Option<Error> {
    if cfgs == [] then None
    else if ConversionError(cfgs[0], names, parse).Some? then ConversionError(cfgs[0], names, parse)
    else FirstError(cfgs[1..], names, parse)
  }

  /** A failing conversion anywhere in the list makes the construction fail,
      whether or not it is the one reported. */
  lemma {:induction false} FirstErrorAt(cfgs: seq<ConversionConfig>, names: seq<string>, parse: string -> Option<int>, k: nat)
    requires k < |cfgs| && ConversionError(cfgs[k], names, parse).Some?
    ensures FirstError(cfgs, names, parse).Some?
    decreases k
  {
    if k > 0 && ConversionError(cfgs[0], names, parse).None? {
      assert cfgs[1..][k - 1] == cfgs[k];
      FirstErrorAt(cfgs[1..], names, parse, k - 1);
    }
  }

  /** The conversions without a truthy period, in order. */
  function ImmediateConfigs(cfgs: seq<ConversionConfig>): (r: seq<ConversionConfig>)
    decreases |cfgs|
  {
    if cfgs == [] then []
    else ImmediateConfigs(cfgs[..|cfgs| - 1]) +
         (if TruthyString(cfgs[|cfgs| - 1].period) then [] else [cfgs[|cfgs| - 1]])
  }

  /** The conversions with a truthy period, in order. */
  function PeriodicConfigs(cfgs: seq<ConversionConfig>): (r: seq<ConversionConfig>)
    decreases |cfgs|
  {
    if cfgs == [] then []
    else PeriodicConfigs(cfgs[..|cfgs| - 1]) +
         (if TruthyString(cfgs[|cfgs| - 1].period) then [cfgs[|cfgs| - 1]] else [])
  }

  /** The immediate list holds only conversions without a truthy period, the
      periodic list only conversions with one. */
  lemma {:induction false} SplitByPeriod(cfgs: seq<ConversionConfig>)
    ensures forall k :: 0 <= k < |ImmediateConfigs(cfgs)| ==> !TruthyString(ImmediateConfigs(cfgs)[k].period)
    ensures forall k :: 0 <= k < |PeriodicConfigs(cfgs)| ==> TruthyString(PeriodicConfigs(cfgs)[k].period)
    decreases |cfgs|
  {
    if cfgs != [] {
      SplitByPeriod(cfgs[..|cfgs| - 1]);
    }
  }

  /** Every conversion goes to exactly one of the two lists. */
  lemma {:induction false} SplitPartitions(cfgs: seq<ConversionConfig>)
    ensures |ImmediateConfigs(cfgs)| + |PeriodicConfigs(cfgs)| == |cfgs|
    ensures multiset(ImmediateConfigs(cfgs)) + multiset(PeriodicConfigs(cfgs)) == multiset(cfgs)
    decreases |cfgs|
  {
    if cfgs != [] {
      var init, last := cfgs[..|cfgs| - 1], cfgs[|cfgs| - 1];
      SplitPartitions(init);
      SplitLast(cfgs);
      MultisetSnoc(cfgs);
    }
  }

  /** The last conversion goes to exactly one of the two lists. */
  lemma SplitLast(cfgs: seq<ConversionConfig>)
    requires cfgs != []
    ensures var init, last := cfgs[..|cfgs| - 1], cfgs[|cfgs| - 1];
            && |ImmediateConfigs(cfgs)| + |PeriodicConfigs(cfgs)| == |ImmediateConfigs(init)| + |PeriodicConfigs(init)| + 1
            && multiset(ImmediateConfigs(cfgs)) + multiset(PeriodicConfigs(cfgs)) ==
               multiset(ImmediateConfigs(init)) + multiset(PeriodicConfigs(init)) + multiset{last}
  {
    var init, last := cfgs[..|cfgs| - 1], cfgs[|cfgs| - 1];
    if TruthyString(last.period) {
      assert PeriodicConfigs(cfgs) == PeriodicConfigs(init) + [last];
    } else {
      assert ImmediateConfigs(cfgs) == ImmediateConfigs(init) + [last];
    }
  }

  /** Extending the prefix by one conversion extends one of the two lists. */
  lemma FiltersStep(cfgs: seq<ConversionConfig>, i: nat)
    requires i < |cfgs|
    ensures ImmediateConfigs(cfgs[..i + 1]) ==
              ImmediateConfigs(cfgs[..i]) + (if TruthyString(cfgs[i].period) then [] else [cfgs[i]])
    ensures PeriodicConfigs(cfgs[..i + 1]) ==
              PeriodicConfigs(cfgs[..i]) + (if TruthyString(cfgs[i].period) then [cfgs[i]] else [])
  {
    TakeTake(cfgs, i);
  }

  /** The PeriodConversion fields built from `cfg`: its conversion, and its
      period from the parsed duration. */
  ghost predicate PeriodBuilt(cfg: ConversionConfig, pc: PeriodConversion, names: seq<string>,
                              parse: string -> Option<int>)
  {
    && TruthyString(cfg.period) && ConversionBuilt(cfg, pc.conv, names)
    && parse(cfg.period.value).Some? && pc.period == PeriodSeconds(parse(cfg.period.value).value)
  }

  /** The PeriodConversion constructor, with its timer at the first period. */
  method BuildPeriodConversion(cfg: ConversionConfig, names: seq<string>, parse: string -> Option<int>)
    returns (r: Result<PeriodConversion, Error>)
    requires TruthyString(cfg.period)
    ensures r.Failure? <==> ConversionError(cfg, names, parse).Some?
    ensures r.Failure? ==> r.error == ConversionError(cfg, names, parse).value
    ensures r.Success? ==> fresh(r.value) && PeriodBuilt(cfg, r.value, names, parse) &&
                           r.value.nextExecTime == r.value.period
  {
    var c := BuildConversion(cfg, names);
    if c.Failure? {
      return Failure(c.error);
    }
    var ms := parse(cfg.period.value);
    if ms.None? {
      return Failure(InvalidPeriod(cfg.period.value));
    }
    var pc := new PeriodConversion(c.value, PeriodSeconds(ms.value));
    return Success(pc);
  }

  /** The conversions of a simulation, split into immediate and periodic ones
      in their order of declaration. */
  datatype Built = Built(immediate: seq<Conversion>, periodic: seq<PeriodConversion>)

  /** Each of `cs` is built from the configuration at its place in `cfgs`. */
  ghost predicate ConversionsBuilt(cfgs: seq<ConversionConfig>, cs: seq<Conversion>, names: seq<string>) {
    |cs| == |cfgs| && forall k :: 0 <= k < |cs| ==> ConversionBuilt(cfgs[k], cs[k], names)
  }

  /** Each of `pcs` is built from the configuration at its place in `cfgs`. */
  ghost predicate PeriodConversionsBuilt(cfgs: seq<ConversionConfig>, pcs: seq<PeriodConversion>,
                                         names: seq<string>, parse: string -> Option<int>)
  {
    |pcs| == |cfgs| && forall k :: 0 <= k < |pcs| ==> PeriodBuilt(cfgs[k], pcs[k], names, parse)
  }

  /** `pos` maps each of `pcs` to its position, so no object occurs twice. */
  ghost predicate Numbered(pcs: seq<PeriodConversion>, pos: map<PeriodConversion, int>) {
    forall k :: 0 <= k < |pcs| ==> pcs[k] in pos && pos[pcs[k]] == k
  }

  lemma NumberedSnoc(pcs: seq<PeriodConversion>, pos: map<PeriodConversion, int>, pc: PeriodConversion)
    requires Numbered(pcs, pos) && pc !in pcs
    ensures Numbered(pcs + [pc], pos[pc := |pcs|])
  {
  }

  lemma NumberedDistinct(pcs: seq<PeriodConversion>, pos: map<PeriodConversion, int>)
    requires Numbered(pcs, pos)
    ensures forall i, j :: 0 <= i < j < |pcs| ==> pcs[i] != pcs[j]
  {
  }

  lemma ConversionsBuiltSnoc(cfgs: seq<ConversionConfig>, cs: seq<Conversion>, names: seq<string>,
                             cfg: ConversionConfig, c: Conversion)
    requires ConversionsBuilt(cfgs, cs, names) && ConversionBuilt(cfg, c, names)
    ensures ConversionsBuilt(cfgs + [cfg], cs + [c], names)
  {
  }

  lemma PeriodConversionsBuiltSnoc(cfgs: seq<ConversionConfig>, pcs: seq<PeriodConversion>,
                                   names: seq<string>, parse: string -> Option<int>,
                                   cfg: ConversionConfig, pc: PeriodConversion)
    requires PeriodConversionsBuilt(cfgs, pcs, names, parse) && PeriodBuilt(cfg, pc, names, parse)
    ensures PeriodConversionsBuilt(cfgs + [cfg], pcs + [pc], names, parse)
  {
  }

  /** `b` holds the conversions constructed from `cfgs`: the immediate ones
      and the periodic ones, each list in declaration order. */
  ghost predicate BuiltAs(cfgs: seq<ConversionConfig>, names: seq<string>, parse: string -> Option<int>, b: Built) {
    && ConversionsBuilt(ImmediateConfigs(cfgs), b.immediate, names)
    && PeriodConversionsBuilt(PeriodicConfigs(cfgs), b.periodic, names, parse)
    && (forall i, j :: 0 <= i < j < |b.periodic| ==> b.periodic[i] != b.periodic[j])
  }

  /** The timers a fresh set of periodic conversions starts with. */
  function PeriodsOf(pcs: seq<PeriodConversion>): (ps: seq<int>)
    ensures |ps| == |pcs| && forall i :: 0 <= i < |pcs| ==> ps[i] == pcs[i].period
  {
    seq(|pcs|, i requires 0 <= i < |pcs| => pcs[i].period)
  }

  /** With distinct item names, the rules built from a configuration are
      determined by it: two constructions give the same conversions, periods
      and first timers. */
  lemma BuiltAsUnique(cfgs: seq<ConversionConfig>, names: seq<string>, parse: string -> Option<int>, b1: Built, b2: Built)
    requires Distinct(names) && BuiltAs(cfgs, names, parse, b1) && BuiltAs(cfgs, names, parse, b2)
    ensures b1.immediate == b2.immediate
    ensures PeriodicOf(b1.periodic) == PeriodicOf(b2.periodic)
    ensures PeriodsOf(b1.periodic) == PeriodsOf(b2.periodic)
  {
    forall k | 0 <= k < |b1.immediate| ensures b1.immediate[k] == b2.immediate[k] {
      ConversionBuiltUnique(ImmediateConfigs(cfgs)[k], b1.immediate[k], b2.immediate[k], names);
    }
    forall k | 0 <= k < |b1.periodic| ensures PeriodicOf(b1.periodic)[k] == PeriodicOf(b2.periodic)[k] {
      ConversionBuiltUnique(PeriodicConfigs(cfgs)[k], b1.periodic[k].conv, b2.periodic[k].conv, names);
    }
  }

  /** The `forEach` over the declared conversions, shared by the Game
      constructor and calc.ts's simulate. */
  method BuildAll(cfgs: seq<ConversionConfig>, names: seq<string>, parse: string -> Option<int>)
    returns (r: Result<Built, Error>)
    ensures r.Failure? <==> FirstError(cfgs, names, parse).Some?
    ensures r.Failure? ==> r.error == FirstError(cfgs, names, parse).value
    ensures r.Success? ==> BuiltAs(cfgs, names, parse, r.value)
    ensures r.Success? ==> forall k :: 0 <= k < |r.value.periodic| ==>
              fresh(r.value.periodic[k]) && r.value.periodic[k].nextExecTime == r.value.periodic[k].period
  {
    var imm: seq<Conversion> := [];
    var pcs: seq<PeriodConversion> := [];
    ghost var immCfgs: seq<ConversionConfig> := [];
    ghost var pcsCfgs: seq<ConversionConfig> := [];
    ghost var pos: map<PeriodConversion, int> := map[];
    SliceEnds(cfgs);
    for i := 0 to |cfgs|
      invariant FirstError(cfgs[i..], names, parse) == FirstError(cfgs, names, parse)
      invariant immCfgs == ImmediateConfigs(cfgs[..i]) && pcsCfgs == PeriodicConfigs(cfgs[..i])
      invariant ConversionsBuilt(immCfgs, imm, names)
      invariant PeriodConversionsBuilt(pcsCfgs, pcs, names, parse) && Numbered(pcs, pos)
      invariant forall k :: 0 <= k < |pcs| ==> fresh(pcs[k]) && pcs[k].nextExecTime == pcs[k].period
    {
      FiltersStep(cfgs, i);
      DropStep(cfgs, i);
      if TruthyString(cfgs[i].period) {
        var p := BuildPeriodConversion(cfgs[i], names, parse);
        if p.Failure? {
          return Failure(p.error);
        }
        PeriodConversionsBuiltSnoc(pcsCfgs, pcs, names, parse, cfgs[i], p.value);
        NumberedSnoc(pcs, pos, p.value);
        pos := pos[p.value := |pcs|];
        pcs := pcs + [p.value];
        pcsCfgs := pcsCfgs + [cfgs[i]];
      } else {
        var c := BuildConversion(cfgs[i], names);
        if c.Failure? {
          return Failure(c.error);
        }
        ConversionsBuiltSnoc(immCfgs, imm, names, cfgs[i], c.value);
        imm := imm + [c.value];
        immCfgs := immCfgs + [cfgs[i]];
      }
    }
    TakeAll(cfgs);
    SliceEnds(cfgs);
    NumberedDistinct(pcs, pos);
    return Success(Built(imm, pcs));
  }
}
