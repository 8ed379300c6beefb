/** The free `simulate` function of the older calculator: it constructs the
    conversions from their configurations over an existing item table and
    runs the same loop as the Game, except that its drain re-checks each
    conversion just before executing it. */
module Calc {
  import opened Wrappers
  import opened Config
  import opened Conversions
  import opened Schedule

  /** simulate(maxTime, items, convRules), with at most `rounds` rounds of at
      most `scans` scans each. A configuration error is reported before any
      amount changes; otherwise the amounts end as the loop over the rules
      built from `convRules` leaves them, every timer starting at its
      period. */
  method Simulate(maxTime: int, ledger: Ledger, convRules: seq<ConversionConfig>,
                  parse: string -> Option<int>, random: Random, scans: nat, rounds: nat)
    returns (r: Result<Status, Error>)
    requires ledger.Valid()
    modifies ledger.amount, random
    ensures r.Failure? <==> FirstError(convRules, ledger.names, parse).Some?
    ensures r.Failure? ==> r.error == FirstError(convRules, ledger.names, parse).value
    ensures r.Failure? ==> ledger.amount[..] == old(ledger.amount[..]) && random.calls == old(random.calls)
    ensures r.Success? ==>
              exists b :: BuiltAs(convRules, ledger.names, parse, b) &&
                var run := Simulation(Recheck, Rules(ledger.max, b.immediate, PeriodicOf(b.periodic)),
                                      random.stream, maxTime, scans,
                                      Sim(old(ledger.amount[..]), old(random.calls)),
                                      PeriodsOf(b.periodic), rounds);
                ledger.amount[..] == run.sim.amounts && random.calls == run.sim.calls && r.value == run.status
  {
    var built := BuildAll(convRules, ledger.names, parse);
    if built.Failure? {
      return Failure(built.error);
    }
    var b := built.value;
    var cs, pcs := b.immediate, b.periodic;
    forall k | 0 <= k < |cs| ensures Bound(cs[k], |ledger.max|) {
      BuiltRangesCumulative(ImmediateConfigs(convRules)[k], cs[k], ledger.names);
    }
    forall k | 0 <= k < |pcs| ensures Bound(pcs[k].conv, |ledger.max|) {
      BuiltRangesCumulative(PeriodicConfigs(convRules)[k], pcs[k].conv, ledger.names);
    }
    assert TimersOf(pcs) == PeriodsOf(pcs);
    var status, time := RunLoop(ledger, cs, pcs, random, Recheck, maxTime, scans, rounds);
    r := Success(status);
  }
}
