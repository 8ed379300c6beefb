/** The item ledger and the helper classes of the engine: ConversionInput,
    ConversionWin, ConversionOutcome and Conversion (src/game.ts; src/calc.ts
    holds a textually identical copy). Items live in one indexed store, the
    ledger; conversions refer to items by index. */
module Conversions {
  import opened Wrappers
  import opened Config
  import opened Seqs

  /** VerificationError: the configuration names an unknown item, or a period
      that the duration parser rejects. */
  datatype Error = UnknownItem(name: string) | InvalidPeriod(period: string)

  /** ConversionInput: the item it consumes, the amount, the force flag. */
  datatype Input = Input(item: nat, amount: int, force: bool)

  /** ConversionWin: the item it pays, the amount, the optional total limit. */
  datatype Win = Win(item: nat, amount: int, totalLimit: Option<int>)

  /** ConversionOutcome: the draws in [freqBegin, freqEnd) select its wins. */
  datatype Outcome = Outcome(freqBegin: int, freqEnd: int, wins: seq<Win>)

  /** Conversion: inputs, ordered outcomes and the sum of their weights. */
  datatype Conversion = Conversion(inputs: seq<Input>, outcomes: seq<Outcome>, totalFreq: int)

  predicate Distinct(names: seq<string>) {
    forall i, j :: 0 <= i < j < |names| ==> names[i] != names[j]
  }

  /** Every item index of `c` points into a ledger of `n` items. */
  predicate Bound(c: Conversion, n: nat) {
    && (forall i :: 0 <= i < |c.inputs| ==> c.inputs[i].item < n)
    && (forall k, j :: 0 <= k < |c.outcomes| && 0 <= j < |c.outcomes[k].wins| ==>
          c.outcomes[k].wins[j].item < n)
  }

  // ---------------------------------------------------------------------
  // The ledger: the source's Map<string, Item>, with Item = { amount, max? }.
  // ---------------------------------------------------------------------

  class Ledger {
    /** Item names, in the Map's insertion order. */
    const names: seq<string>
    /** The optional cap `max` of each item. */
    const max: seq<Option<int>>
    /** The mutable `amount` field of each item. */
    const amount: array<int>

    ghost predicate Valid() {
      |names| == |max| == amount.Length && Distinct(names)
    }

    constructor (names: seq<string>, max: seq<Option<int>>, init: seq<int>)
      requires |names| == |max| == |init| && Distinct(names)
      ensures Valid() && fresh(amount)
      ensures this.names == names && this.max == max && amount[..] == init
    {
      this.names := names;
      this.max := max;
      amount := new int[|init|](i requires 0 <= i < |init| => init[i]);
    }
  }

  /** The injected replacement for Math.random(): the k-th call returns
      `stream(k)`; `calls` counts the calls made so far. */
  class Random {
    const stream: nat -> real
    var calls: nat

    constructor (stream: nat -> real)
      ensures this.stream == stream && calls == 0
    {
      this.stream := stream;
      calls := 0;
    }

    method Next() returns (u: real)
      modifies this
      ensures u == stream(old(calls)) && calls == old(calls) + 1
    {
      u := stream(calls);
      calls := calls + 1;
    }
  }

  /** getItem: the index of `name`, or a VerificationError when unknown. */
  function GetItem(names: seq<string>, name: string): (r: Result<nat, Error>)
    ensures r.Success? <==> name in names
    ensures r.Success? ==> r.value < |names| && names[r.value] == name
    ensures r.Failure? ==> r.error == UnknownItem(name)
  {
    if |names| == 0 then Failure(UnknownItem(name))
    else if names[0] == name then Success(0)
    else
      match GetItem(names[1..], name)
      case Success(k) => Success(k + 1)
      case Failure(e) => Failure(e)
  }

  // ---------------------------------------------------------------------
  // The value-level meaning of the helper classes.
  // ---------------------------------------------------------------------

  /** canSpend: forced, or the balance covers the amount. */
  predicate CanSpend(inp: Input, a: seq<int>)
    requires inp.item < |a|
  {
    inp.force || inp.amount <= a[inp.item]
  }

  /** canExecute: every input can be spent. */
  predicate Affordable(c: Conversion, a: seq<int>)
    requires Bound(c, |a|)
  {
    forall i :: 0 <= i < |c.inputs| ==> CanSpend(c.inputs[i], a)
  }

  /** The balance left by spend: the amount is taken off and the result
      floored at zero. */
  function Spent(balance: int, amount: int): (r: int)
    ensures r >= 0 && r >= balance - amount
    ensures r == 0 || r == balance - amount
  {
    var n := balance - amount;
    if n < 0 then 0 else n
  }

  /** The balance left by payout: first the total-limit clamp (an absolute
      value, tested by truthiness), then the item cap (tested by truthiness). */
  function Paid(balance: int, amount: int, totalLimit: Option<int>, max: Option<int>): (r: int)
    ensures r <= balance + amount
    ensures Truthy(totalLimit) ==> r <= totalLimit.value
    ensures Truthy(max) ==> r <= max.value
    ensures r == balance + amount || (Truthy(totalLimit) && r == totalLimit.value)
                                  || (Truthy(max) && r == max.value)
    ensures ((!Truthy(totalLimit) || balance + amount <= totalLimit.value)
             && (!Truthy(max) || balance + amount <= max.value)) ==> r == balance + amount
  {
    var n := if Truthy(totalLimit) && balance + amount > totalLimit.value
             then totalLimit.value else balance + amount;
    if Truthy(max) && n > max.value then max.value else n
  }

  /** The total-limit clamp can lower a balance that was already above it. */
  lemma TotalLimitCanLowerBalance()
    ensures Paid(10, 1, Some(5), None) == 5
  {
  }

  /** A limit or cap of 0 is falsy: it clamps nothing. */
  lemma ZeroLimitIsNoLimit(balance: int, amount: int)
    ensures Paid(balance, amount, Some(0), Some(0)) == balance + amount
  {
  }

  /** The amounts after spending the inputs one after another. */
  function SpendAll(a: seq<int>, ins: seq<Input>): (b: seq<int>)
    requires forall i :: 0 <= i < |ins| ==> ins[i].item < |a|
    ensures |b| == |a|
    decreases |ins|
  {
    if ins == [] then a
    else
      var p := SpendAll(a, ins[..|ins| - 1]);
      var x := ins[|ins| - 1];
      p[x.item := Spent(p[x.item], x.amount)]
  }

  /** The amounts after paying the wins one after another. */
  function PayAll(a: seq<int>, max: seq<Option<int>>, wins: seq<Win>): (b: seq<int>)
    requires |max| == |a|
    requires forall j :: 0 <= j < |wins| ==> wins[j].item < |a|
    ensures |b| == |a|
    decreases |wins|
  {
    if wins == [] then a
    else
      var p := PayAll(a, max, wins[..|wins| - 1]);
      var w := wins[|wins| - 1];
      p[w.item := Paid(p[w.item], w.amount, w.totalLimit, max[w.item])]
  }

  /** rand = Math.floor(u * totalFreq), for the value u of Math.random(). */
  function Draw(u: real, totalFreq: int): int {
    (u * totalFreq as real).Floor
  }

  /** The index of the first outcome whose range holds `r` (Array.find). */
  function Find(outs: seq<Outcome>, r: int): (k: Option<nat>)
    ensures k.Some? ==> k.value < |outs| && outs[k.value].freqBegin <= r < outs[k.value].freqEnd
    ensures k.Some? ==> forall j :: 0 <= j < k.value ==> !(outs[j].freqBegin <= r < outs[j].freqEnd)
    ensures k.None? ==> forall j :: 0 <= j < |outs| ==> !(outs[j].freqBegin <= r < outs[j].freqEnd)
  {
    if |outs| == 0 then None
    else if outs[0].freqBegin <= r < outs[0].freqEnd then Some(0)
    else
      match Find(outs[1..], r)
      case None => None
      case Some(k) => Some(k + 1)
  }

  /** The effect of Conversion.execute: the ledger afterwards, and whether an
      outcome was found (false: BugError, raised after the inputs were spent). */
  datatype Exec = Exec(amounts: seq<int>, ok: bool)

  function ExecSpec(a: seq<int>, max: seq<Option<int>>, c: Conversion, u: real): (e: Exec)
    requires |max| == |a| && Bound(c, |a|)
    ensures |e.amounts| == |a|
  {
    var spent := SpendAll(a, c.inputs);
    match Find(c.outcomes, Draw(u, c.totalFreq))
    case None => Exec(spent, false)
    case Some(k) => Exec(PayAll(spent, max, c.outcomes[k].wins), true)
  }

  // ---------------------------------------------------------------------
  // Properties of the value-level meaning.
  // ---------------------------------------------------------------------

  /** Spending touches only input items, and leaves each of them at zero or more. */
  lemma {:induction false} SpendAllFloors(a: seq<int>, ins: seq<Input>, j: nat)
    requires forall i :: 0 <= i < |ins| ==> ins[i].item < |a|
    requires j < |a|
    ensures (forall i :: 0 <= i < |ins| ==> ins[i].item != j) ==> SpendAll(a, ins)[j] == a[j]
    ensures (exists i :: 0 <= i < |ins| && ins[i].item == j) ==> SpendAll(a, ins)[j] >= 0
    decreases |ins|
  {
    if ins != [] {
      var pre := ins[..|ins| - 1];
      SpendAllFloors(a, pre, j);
      if ins[|ins| - 1].item != j {
        if exists i :: 0 <= i < |ins| && ins[i].item == j {
          var i :| 0 <= i < |ins| && ins[i].item == j;
          assert pre[i].item == j;
        }
      }
    }
  }

  /** When each input names a different item, every input item ends at
      max(0, balance - amount): execute spends all inputs, unconditionally. */
  lemma {:induction false} SpendAllDistinct(a: seq<int>, ins: seq<Input>, i: nat)
    requires forall k :: 0 <= k < |ins| ==> ins[k].item < |a|
    requires forall k, l :: 0 <= k < l < |ins| ==> ins[k].item != ins[l].item
    requires i < |ins|
    ensures SpendAll(a, ins)[ins[i].item] == Spent(a[ins[i].item], ins[i].amount)
    decreases |ins|
  {
    var pre := ins[..|ins| - 1];
    if i < |ins| - 1 {
      SpendAllDistinct(a, pre, i);
    } else {
      SpendAllFloors(a, pre, ins[i].item);
    }
  }

  /** Paying touches only win items, and leaves every capped win item at or
      below its cap. */
  lemma {:induction false} PayAllCapped(a: seq<int>, max: seq<Option<int>>, wins: seq<Win>, j: nat)
    requires |max| == |a| && j < |a|
    requires forall k :: 0 <= k < |wins| ==> wins[k].item < |a|
    ensures (forall k :: 0 <= k < |wins| ==> wins[k].item != j) ==> PayAll(a, max, wins)[j] == a[j]
    ensures (exists k :: 0 <= k < |wins| && wins[k].item == j) && Truthy(max[j]) ==>
              PayAll(a, max, wins)[j] <= max[j].value
    decreases |wins|
  {
    if wins != [] {
      var pre := wins[..|wins| - 1];
      PayAllCapped(a, max, pre, j);
      if wins[|wins| - 1].item != j {
        if exists k :: 0 <= k < |wins| && wins[k].item == j {
          var k :| 0 <= k < |wins| && wins[k].item == j;
          assert pre[k].item == j;
        }
      }
    }
  }

  /** The draw of a value of Math.random() lies in [0, totalFreq). */
  lemma DrawInRange(u: real, totalFreq: int)
    requires 0.0 <= u < 1.0 && totalFreq > 0
    ensures 0 <= Draw(u, totalFreq) < totalFreq
  {
    var t := totalFreq as real;
    assert 0.0 <= u * t by {
      assert 0.0 <= t;
    }
    assert u * t < t by {
      assert t - u * t == (1.0 - u) * t;
      assert (1.0 - u) * t > 0.0;
    }
  }

  /** Outcome ranges are built back to back, starting at 0, and the total is
      the end of the last one. */
  predicate Contiguous(c: Conversion) {
    && (|c.outcomes| > 0 ==> c.outcomes[0].freqBegin == 0)
    && (forall k :: 0 < k < |c.outcomes| ==> c.outcomes[k].freqBegin == c.outcomes[k - 1].freqEnd)
    && c.totalFreq == if |c.outcomes| == 0 then 0 else c.outcomes[|c.outcomes| - 1].freqEnd
  }

  /** No outcome has a negative weight. */
  predicate NonNegativeWeights(c: Conversion) {
    forall k :: 0 <= k < |c.outcomes| ==> c.outcomes[k].freqBegin <= c.outcomes[k].freqEnd
  }

  /** With contiguous ranges of non-negative weight, earlier ranges end no later
      than later ones begin, all lie between 0 and totalFreq. */
  lemma {:induction false} RangesOrdered(c: Conversion, j: nat, k: nat)
    requires Contiguous(c) && NonNegativeWeights(c)
    requires j < k < |c.outcomes|
    ensures c.outcomes[j].freqEnd <= c.outcomes[k].freqBegin
    decreases k - j
  {
    if j + 1 < k {
      RangesOrdered(c, j, k - 1);
    }
  }

  lemma {:induction false} RangesWithinTotal(c: Conversion, k: nat)
    requires Contiguous(c) && NonNegativeWeights(c)
    requires k < |c.outcomes|
    ensures 0 <= c.outcomes[k].freqBegin && c.outcomes[k].freqEnd <= c.totalFreq
    decreases k
  {
    if k > 0 {
      RangesWithinTotal(c, k - 1);
      assert c.outcomes[k].freqBegin == c.outcomes[k - 1].freqEnd;
    } else {
      assert c.outcomes[0].freqBegin == 0;
    }
    var n := |c.outcomes|;
    if k < n - 1 {
      RangesOrdered(c, k, n - 1);
      assert c.outcomes[n - 1].freqBegin <= c.outcomes[n - 1].freqEnd;
    }
  }

  /** Some of the first n ranges holds r when r lies in [0, end of range n-1). */
  lemma {:induction false} SomeRangeHolds(c: Conversion, n: nat, r: int)
    requires Contiguous(c)
    requires 0 < n <= |c.outcomes| && 0 <= r < c.outcomes[n - 1].freqEnd
    ensures exists k :: 0 <= k < n && c.outcomes[k].freqBegin <= r < c.outcomes[k].freqEnd
    decreases n
  {
    if r < c.outcomes[n - 1].freqBegin {
      assert n > 1 && c.outcomes[n - 1].freqBegin == c.outcomes[n - 2].freqEnd;
      SomeRangeHolds(c, n - 1, r);
    }
  }

  /** The ranges partition [0, totalFreq): every draw in it selects exactly one
      outcome, the one Find returns. */
  lemma Partition(c: Conversion, r: int)
    requires Contiguous(c) && NonNegativeWeights(c)
    requires 0 <= r < c.totalFreq
    ensures Find(c.outcomes, r).Some?
    ensures forall j :: 0 <= j < |c.outcomes| ==>
              (c.outcomes[j].freqBegin <= r < c.outcomes[j].freqEnd <==> j == Find(c.outcomes, r).value)
  {
    SomeRangeHolds(c, |c.outcomes|, r);
    var k := Find(c.outcomes, r).value;
    forall j | 0 <= j < |c.outcomes| && c.outcomes[j].freqBegin <= r < c.outcomes[j].freqEnd
      ensures j == k
    {
      if k < j { RangesOrdered(c, k, j); }
    }
  }

  /** A conversion without weight matches no draw at all. */
  lemma NoWeightNoOutcome(c: Conversion, r: int)
    requires Contiguous(c) && NonNegativeWeights(c) && c.totalFreq == 0
    ensures Find(c.outcomes, r).None?
  {
    forall k | 0 <= k < |c.outcomes|
      ensures !(c.outcomes[k].freqBegin <= r < c.outcomes[k].freqEnd)
    {
      RangesWithinTotal(c, k);
    }
  }

  /** With a positive total weight and a draw from [0, 1), execute finds its
      outcome and pays it, whatever the signs of the single weights. */
  lemma ExecuteFindsOutcome(a: seq<int>, max: seq<Option<int>>, c: Conversion, u: real)
    requires |max| == |a| && Bound(c, |a|)
    requires Contiguous(c) && c.totalFreq > 0
    requires 0.0 <= u < 1.0
    ensures ExecSpec(a, max, c, u).ok
  {
    DrawInRange(u, c.totalFreq);
    SomeRangeHolds(c, |c.outcomes|, Draw(u, c.totalFreq));
  }

  /** With total weight 0, execute spends the inputs and then raises BugError. */
  lemma ExecuteWithoutWeightFails(a: seq<int>, max: seq<Option<int>>, c: Conversion, u: real)
    requires |max| == |a| && Bound(c, |a|)
    requires Contiguous(c) && NonNegativeWeights(c) && c.totalFreq == 0
    ensures ExecSpec(a, max, c, u) == Exec(SpendAll(a, c.inputs), false)
  {
    NoWeightNoOutcome(c, Draw(u, c.totalFreq));
  }

  /** With a negative weight the total can be 0 and still select an outcome:
      weights 1 and -1 make the draw 0, which the first range holds, so no
      BugError is raised. */
  lemma NegativeWeightCanHideBug()
    ensures var c := Conversion([], [Outcome(0, 1, []), Outcome(1, 0, [])], 0);
            && Contiguous(c) && !NonNegativeWeights(c)
            && ExecSpec([], [], c, 0.5) == Exec([], true)
  {
  }

  // ---------------------------------------------------------------------
  // The methods of the helper classes, acting on the ledger.
  // ---------------------------------------------------------------------

  /** ConversionInput.spend. */
  method Spend(ledger: Ledger, inp: Input)
    requires ledger.Valid() && inp.item < ledger.amount.Length
    modifies ledger.amount
    ensures ledger.amount[..] ==
      old(ledger.amount[..])[inp.item := Spent(old(ledger.amount[inp.item]), inp.amount)]
  {
    ledger.amount[inp.item] := ledger.amount[inp.item] - inp.amount;
    if ledger.amount[inp.item] < 0 {
      ledger.amount[inp.item] := 0;
    }
  }

  /** ConversionWin.payout. */
  method Payout(ledger: Ledger, w: Win)
    requires ledger.Valid() && w.item < ledger.amount.Length
    modifies ledger.amount
    ensures ledger.amount[..] == old(ledger.amount[..])[w.item :=
      Paid(old(ledger.amount[w.item]), w.amount, w.totalLimit, ledger.max[w.item])]
  {
    if Truthy(w.totalLimit) && ledger.amount[w.item] + w.amount > w.totalLimit.value {
      ledger.amount[w.item] := w.totalLimit.value;
    } else {
      ledger.amount[w.item] := ledger.amount[w.item] + w.amount;
    }
    if Truthy(ledger.max[w.item]) && ledger.amount[w.item] > ledger.max[w.item].value {
      ledger.amount[w.item] := ledger.max[w.item].value;
    }
  }

  /** ConversionOutcome.payWins. */
  method PayWins(ledger: Ledger, o: Outcome)
    requires ledger.Valid()
    requires forall j :: 0 <= j < |o.wins| ==> o.wins[j].item < ledger.amount.Length
    modifies ledger.amount
    ensures ledger.amount[..] == PayAll(old(ledger.amount[..]), ledger.max, o.wins)
  {
    var j := 0;
    while j < |o.wins|
      invariant 0 <= j <= |o.wins|
      invariant ledger.amount[..] == PayAll(old(ledger.amount[..]), ledger.max, o.wins[..j])
    {
      TakeTake(o.wins, j);
      Payout(ledger, o.wins[j]);
      j := j + 1;
    }
    assert o.wins[..j] == o.wins;
  }

  /** Conversion.canExecute: true iff every input is forced or covered. */
  method CanExecute(ledger: Ledger, c: Conversion) returns (b: bool)
    requires ledger.Valid() && Bound(c, ledger.amount.Length)
    ensures b <==> forall i :: 0 <= i < |c.inputs| ==>
                     c.inputs[i].force || c.inputs[i].amount <= ledger.amount[c.inputs[i].item]
    ensures b == Affordable(c, ledger.amount[..])
  {
    for i := 0 to |c.inputs|
      invariant forall k :: 0 <= k < i ==>
                  c.inputs[k].force || c.inputs[k].amount <= ledger.amount[c.inputs[k].item]
    {
      if !(c.inputs[i].force || c.inputs[i].amount <= ledger.amount[c.inputs[i].item]) {
        return false;
      }
    }
    return true;
  }

  /** Conversion.execute: spends every input without checking affordability,
      draws, and pays the outcome whose range holds the draw; ok is false
      when no range holds it (BugError). */
  method Execute(ledger: Ledger, c: Conversion, random: Random) returns (ok: bool)
    requires ledger.Valid() && Bound(c, ledger.amount.Length)
    modifies ledger.amount, random
    ensures var e := ExecSpec(old(ledger.amount[..]), ledger.max, c, random.stream(old(random.calls)));
            ledger.amount[..] == e.amounts && ok == e.ok
    ensures random.calls == old(random.calls) + 1
  {
    var i := 0;
    while i < |c.inputs|
      invariant 0 <= i <= |c.inputs|
      invariant ledger.amount[..] == SpendAll(old(ledger.amount[..]), c.inputs[..i])
      invariant random.calls == old(random.calls)
    {
      TakeTake(c.inputs, i);
      Spend(ledger, c.inputs[i]);
      i := i + 1;
    }
    assert c.inputs[..i] == c.inputs;
    var u := random.Next();
    var k := Find(c.outcomes, Draw(u, c.totalFreq));
    if k.None? {
      return false;
    }
    PayWins(ledger, c.outcomes[k.value]);
    return true;
  }

  // ---------------------------------------------------------------------
  // Construction from the configuration (the helper classes' constructors).
  // ---------------------------------------------------------------------

  /** The win keys of the outcomes, outcome after outcome. */
  function WinNames(outs: seq<OutcomeConfig>): seq<string> {
    if outs == [] then [] else Keys(outs[0].wins) + WinNames(outs[1..])
  }

  /** The item names a conversion refers to, in the order its constructor looks
      them up: the input keys, then the win keys of each outcome. */
  function ReferencedNames(cfg: ConversionConfig): seq<string> {
    Keys(cfg.inputs) + WinNames(cfg.outcomes)
  }

  /** The first of `refs` missing from `names`: the name getItem throws on. */
  function FirstUnknown(names: seq<string>, refs: seq<string>): (r: Option<string>)
    ensures r.None? <==> forall i :: 0 <= i < |refs| ==> refs[i] in names
    ensures r.Some? ==> r.value in refs && r.value !in names
  {
    if refs == [] then None
    else if refs[0] !in names then Some(refs[0])
    else
      var r := FirstUnknown(names, refs[1..]);
      assert r.None? ==> forall i :: 1 <= i < |refs| ==> refs[i] in names by {
        if r.None? {
          forall i | 1 <= i < |refs| ensures refs[i] in names {
            assert refs[1..][i - 1] == refs[i];
          }
        }
      }
      r
  }

  /** The first unknown name is the one at `i` when all before it exist. */
  lemma FirstUnknownAt(names: seq<string>, refs: seq<string>, i: nat)
    requires i < |refs| && refs[i] !in names
    requires forall l :: 0 <= l < i ==> refs[l] in names
    ensures FirstUnknown(names, refs) == Some(refs[i])
  {
    assert refs == refs[..i] + refs[i..];
    assert forall l :: 0 <= l < i ==> refs[..i][l] in names;
    FirstUnknownSkip(names, refs[..i], refs[i..]);
  }

  /** Names that all exist do not change which name is reported first. */
  lemma {:induction false} FirstUnknownSkip(names: seq<string>, done: seq<string>, rest: seq<string>)
    requires forall i :: 0 <= i < |done| ==> done[i] in names
    ensures FirstUnknown(names, done + rest) == FirstUnknown(names, rest)
    decreases |done|
  {
    if done != [] {
      assert (done + rest)[0] == done[0] && done[0] in names;
      assert (done + rest)[1..] == done[1..] + rest;
      assert FirstUnknown(names, done + rest) == FirstUnknown(names, done[1..] + rest);
      FirstUnknownSkip(names, done[1..], rest);
    } else {
      assert done + rest == rest;
    }
  }

  /** Once an unknown name is met, later names do not matter. */
  lemma {:induction false} FirstUnknownPrefix(names: seq<string>, s: seq<string>, t: seq<string>)
    requires FirstUnknown(names, s).Some?
    ensures FirstUnknown(names, s + t) == FirstUnknown(names, s)
    decreases |s|
  {
    if s[0] in names {
      assert (s + t)[1..] == s[1..] + t;
      FirstUnknownPrefix(names, s[1..], t);
    }
  }

  /** `inp` is the ConversionInput built from the entry `e` (force defaults to false). */
  predicate InputBuilt(e: (string, InputConfig), inp: Input, names: seq<string>) {
    && inp.item < |names| && names[inp.item] == e.0
    && inp.amount == e.1.amount && inp.force == e.1.force.GetOr(false)
  }

  /** `w` is the ConversionWin built from the entry `e`. */
  predicate WinBuilt(e: (string, WinConfig), w: Win, names: seq<string>) {
    && w.item < |names| && names[w.item] == e.0
    && w.amount == e.1.amount && w.totalLimit == e.1.totalLimit
  }

  /** `o` is the ConversionOutcome built from `cfg` after a range ending at `prevFreqEnd`. */
  predicate OutcomeBuilt(cfg: OutcomeConfig, o: Outcome, prevFreqEnd: int, names: seq<string>) {
    && o.freqBegin == prevFreqEnd && o.freqEnd == prevFreqEnd + cfg.freq
    && |o.wins| == |cfg.wins|
    && forall j :: 0 <= j < |o.wins| ==> WinBuilt(cfg.wins[j], o.wins[j], names)
  }

  /** Where the range of outcome k starts: 0, or the end of outcome k - 1. */
  function PrevEnd(outs: seq<Outcome>, k: nat): int
    requires k <= |outs|
  {
    if k == 0 then 0 else outs[k - 1].freqEnd
  }

  /** `c` is the Conversion built from `cfg`. */
  predicate ConversionBuilt(cfg: ConversionConfig, c: Conversion, names: seq<string>) {
    && |c.inputs| == |cfg.inputs|
    && (forall i :: 0 <= i < |c.inputs| ==> InputBuilt(cfg.inputs[i], c.inputs[i], names))
    && |c.outcomes| == |cfg.outcomes|
    && (forall k :: 0 <= k < |c.outcomes| ==>
          OutcomeBuilt(cfg.outcomes[k], c.outcomes[k], PrevEnd(c.outcomes, k), names))
    && c.totalFreq == PrevEnd(c.outcomes, |c.outcomes|)
  }

  /** The sum of the weights of the first n outcomes. */
  function FreqSum(outs: seq<OutcomeConfig>, n: nat): int
    requires n <= |outs|
  {
    if n == 0 then 0 else FreqSum(outs, n - 1) + outs[n - 1].freq
  }

  /** A built conversion refers only to ledger items, its ranges are contiguous,
      each begins at the sum of the weights declared before it, and totalFreq
      is the sum of all weights; non-negative weights give non-empty-or-empty
      ranges, never inverted ones. */
  lemma {:induction false} BuiltRangesCumulative(cfg: ConversionConfig, c: Conversion, names: seq<string>)
    requires ConversionBuilt(cfg, c, names)
    ensures Bound(c, |names|) && Contiguous(c)
    ensures forall k :: 0 <= k < |c.outcomes| ==> c.outcomes[k].freqBegin == FreqSum(cfg.outcomes, k)
    ensures c.totalFreq == FreqSum(cfg.outcomes, |cfg.outcomes|)
    ensures (forall k :: 0 <= k < |cfg.outcomes| ==> cfg.outcomes[k].freq >= 0) ==> NonNegativeWeights(c)
  {
    var n := |c.outcomes|;
    forall k | 0 <= k <= n
      ensures PrevEnd(c.outcomes, k) == FreqSum(cfg.outcomes, k)
    {
      BuiltPrefixSum(cfg, c, names, k);
    }
    forall k | 0 <= k < n
      ensures c.outcomes[k].freqBegin == FreqSum(cfg.outcomes, k)
    {
      assert OutcomeBuilt(cfg.outcomes[k], c.outcomes[k], PrevEnd(c.outcomes, k), names);
    }
    forall k | 0 < k < n
      ensures c.outcomes[k].freqBegin == c.outcomes[k - 1].freqEnd
    {
      assert OutcomeBuilt(cfg.outcomes[k], c.outcomes[k], PrevEnd(c.outcomes, k), names);
    }
    forall k, j | 0 <= k < n && 0 <= j < |c.outcomes[k].wins|
      ensures c.outcomes[k].wins[j].item < |names|
    {
      assert OutcomeBuilt(cfg.outcomes[k], c.outcomes[k], PrevEnd(c.outcomes, k), names);
      assert WinBuilt(cfg.outcomes[k].wins[j], c.outcomes[k].wins[j], names);
    }
    if n > 0 {
      assert OutcomeBuilt(cfg.outcomes[0], c.outcomes[0], PrevEnd(c.outcomes, 0), names);
    }
  }

  lemma {:induction false} BuiltPrefixSum(cfg: ConversionConfig, c: Conversion, names: seq<string>, k: nat)
    requires ConversionBuilt(cfg, c, names) && k <= |c.outcomes|
    ensures PrevEnd(c.outcomes, k) == FreqSum(cfg.outcomes, k)
    decreases k
  {
    if k > 0 {
      BuiltPrefixSum(cfg, c, names, k - 1);
      assert OutcomeBuilt(cfg.outcomes[k - 1], c.outcomes[k - 1], PrevEnd(c.outcomes, k - 1), names);
    }
  }

  /** Construction is deterministic: with distinct item names, the
      configuration fixes every field of the conversion built from it. */
  lemma ConversionBuiltUnique(cfg: ConversionConfig, c1: Conversion, c2: Conversion, names: seq<string>)
    requires Distinct(names) && ConversionBuilt(cfg, c1, names) && ConversionBuilt(cfg, c2, names)
    ensures c1 == c2
  {
    forall i | 0 <= i < |c1.inputs| ensures c1.inputs[i] == c2.inputs[i] {
      assert names[c1.inputs[i].item] == names[c2.inputs[i].item];
    }
    assert c1.inputs == c2.inputs;
    OutcomesBuiltUnique(cfg, c1, c2, names, |c1.outcomes|);
    assert c1.outcomes == c2.outcomes;
  }

  lemma {:induction false} OutcomesBuiltUnique(cfg: ConversionConfig, c1: Conversion, c2: Conversion,
                                               names: seq<string>, n: nat)
    requires Distinct(names) && ConversionBuilt(cfg, c1, names) && ConversionBuilt(cfg, c2, names)
    requires n <= |c1.outcomes|
    ensures forall k :: 0 <= k < n ==> c1.outcomes[k] == c2.outcomes[k]
    decreases n
  {
    if n > 0 {
      var k := n - 1;
      OutcomesBuiltUnique(cfg, c1, c2, names, k);
      assert PrevEnd(c1.outcomes, k) == PrevEnd(c2.outcomes, k);
      OutcomeBuiltUnique(cfg.outcomes[k], c1.outcomes[k], c2.outcomes[k], PrevEnd(c1.outcomes, k), names);
    }
  }

  lemma OutcomeBuiltUnique(cfg: OutcomeConfig, o1: Outcome, o2: Outcome, prevFreqEnd: int, names: seq<string>)
    requires Distinct(names) && OutcomeBuilt(cfg, o1, prevFreqEnd, names) && OutcomeBuilt(cfg, o2, prevFreqEnd, names)
    ensures o1 == o2
  {
    forall j | 0 <= j < |o1.wins| ensures o1.wins[j] == o2.wins[j] {
      assert names[o1.wins[j].item] == names[o2.wins[j].item];
    }
    assert o1.wins == o2.wins;
  }

  /** new ConversionOutcome(cfg, prevFreqEnd, items). */
  method BuildOutcome(cfg: OutcomeConfig, prevFreqEnd: int, names: seq<string>) returns (r: Result<Outcome, Error>)
    ensures r.Failure? <==> FirstUnknown(names, Keys(cfg.wins)).Some?
    ensures r.Failure? ==> r.error == UnknownItem(FirstUnknown(names, Keys(cfg.wins)).value)
    ensures r.Success? ==> OutcomeBuilt(cfg, r.value, prevFreqEnd, names)
  {
    var wins: seq<Win> := [];
    var j := 0;
    while j < |cfg.wins|
      invariant 0 <= j <= |cfg.wins| && |wins| == j
      invariant forall l :: 0 <= l < j ==> WinBuilt(cfg.wins[l], wins[l], names)
    {
      var name := cfg.wins[j].0;
      var item := GetItem(names, name);
      if item.Failure? {
        ghost var ks := Keys(cfg.wins);
        assert ks == ks[..j] + ([name] + ks[j + 1..]);
        assert forall l :: 0 <= l < j ==> ks[..j][l] in names by {
          forall l | 0 <= l < j ensures ks[..j][l] in names {
            assert WinBuilt(cfg.wins[l], wins[l], names);
          }
        }
        FirstUnknownSkip(names, ks[..j], [name] + ks[j + 1..]);
        return Failure(item.error);
      }
      wins := wins + [Win(item.value, cfg.wins[j].1.amount, cfg.wins[j].1.totalLimit)];
      j := j + 1;
    }
    assert forall l :: 0 <= l < |cfg.wins| ==> Keys(cfg.wins)[l] in names by {
      forall l | 0 <= l < |cfg.wins| ensures Keys(cfg.wins)[l] in names {
        assert WinBuilt(cfg.wins[l], wins[l], names);
      }
    }
    return Success(Outcome(prevFreqEnd, prevFreqEnd + cfg.freq, wins));
  }

  /** The input loop of the Conversion constructor. */
  method BuildInputs(cfg: Record<InputConfig>, names: seq<string>) returns (r: Result<seq<Input>, Error>)
    ensures r.Failure? <==> FirstUnknown(names, Keys(cfg)).Some?
    ensures r.Failure? ==> r.error == UnknownItem(FirstUnknown(names, Keys(cfg)).value)
    ensures r.Success? ==> (|r.value| == |cfg| &&
              forall i :: 0 <= i < |cfg| ==> InputBuilt(cfg[i], r.value[i], names))
  {
    ghost var ks := Keys(cfg);
    var inputs: seq<Input> := [];
    var i := 0;
    while i < |cfg|
      invariant 0 <= i <= |cfg| && |inputs| == i
      invariant forall l :: 0 <= l < i ==> InputBuilt(cfg[l], inputs[l], names)
    {
      var name := cfg[i].0;
      var item := GetItem(names, name);
      if item.Failure? {
        assert ks == ks[..i] + ([name] + ks[i + 1..]);
        assert forall l :: 0 <= l < i ==> ks[..i][l] in names by {
          forall l | 0 <= l < i ensures ks[..i][l] in names {
            assert InputBuilt(cfg[l], inputs[l], names);
          }
        }
        FirstUnknownSkip(names, ks[..i], [name] + ks[i + 1..]);
        return Failure(item.error);
      }
      inputs := inputs + [Input(item.value, cfg[i].1.amount, cfg[i].1.force.GetOr(false))];
      i := i + 1;
    }
    assert forall l :: 0 <= l < |cfg| ==> ks[l] in names by {
      forall l | 0 <= l < |cfg| ensures ks[l] in names {
        assert InputBuilt(cfg[l], inputs[l], names);
      }
    }
    return Success(inputs);
  }

  /** The outcome loop of the Conversion constructor: each range starts where
      the previous one ended. */
  method BuildOutcomes(cfg: seq<OutcomeConfig>, names: seq<string>) returns (r: Result<seq<Outcome>, Error>)
    ensures r.Failure? <==> FirstUnknown(names, WinNames(cfg)).Some?
    ensures r.Failure? ==> r.error == UnknownItem(FirstUnknown(names, WinNames(cfg)).value)
    ensures r.Success? ==> (|r.value| == |cfg| &&
              forall k :: 0 <= k < |cfg| ==> OutcomeBuilt(cfg[k], r.value[k], PrevEnd(r.value, k), names))
  {
    ghost var done: seq<string> := [];
    var outcomes: seq<Outcome> := [];
    var totalFreq := 0;
    var k := 0;
    while k < |cfg|
      invariant 0 <= k <= |cfg| && |outcomes| == k
      invariant totalFreq == PrevEnd(outcomes, k)
      invariant forall l :: 0 <= l < k ==> OutcomeBuilt(cfg[l], outcomes[l], PrevEnd(outcomes, l), names)
      invariant WinNames(cfg) == done + WinNames(cfg[k..])
      invariant forall l :: 0 <= l < |done| ==> done[l] in names
    {
      DropStep(cfg, k);
      assert WinNames(cfg[k..]) == Keys(cfg[k].wins) + WinNames(cfg[k + 1..]);
      var o := BuildOutcome(cfg[k], totalFreq, names);
      if o.Failure? {
        FirstUnknownPrefix(names, Keys(cfg[k].wins), WinNames(cfg[k + 1..]));
        FirstUnknownSkip(names, done, WinNames(cfg[k..]));
        return Failure(o.error);
      }
      ghost var prev := outcomes;
      outcomes := outcomes + [o.value];
      totalFreq := o.value.freqEnd;
      assert done + WinNames(cfg[k..]) == (done + Keys(cfg[k].wins)) + WinNames(cfg[k + 1..]);
      done := done + Keys(cfg[k].wins);
      k := k + 1;
      forall l | 0 <= l < k
        ensures OutcomeBuilt(cfg[l], outcomes[l], PrevEnd(outcomes, l), names)
      {
        assert PrevEnd(outcomes, l) == PrevEnd(prev, l);
      }
    }
    assert cfg[k..] == [];
    return Success(outcomes);
  }

  /** new Conversion(cfg, items): resolves the inputs, then builds the outcome
      ranges back to back; an unknown item name raises VerificationError, the
      first one met in lookup order. */
  method BuildConversion(cfg: ConversionConfig, names: seq<string>) returns (r: Result<Conversion, Error>)
    ensures r.Failure? <==> FirstUnknown(names, ReferencedNames(cfg)).Some?
    ensures r.Failure? ==> r.error == UnknownItem(FirstUnknown(names, ReferencedNames(cfg)).value)
    ensures r.Success? ==> ConversionBuilt(cfg, r.value, names)
  {
    var inputs := BuildInputs(cfg.inputs, names);
    if inputs.Failure? {
      FirstUnknownPrefix(names, Keys(cfg.inputs), WinNames(cfg.outcomes));
      return Failure(inputs.error);
    }
    assert forall l :: 0 <= l < |cfg.inputs| ==> Keys(cfg.inputs)[l] in names;
    FirstUnknownSkip(names, Keys(cfg.inputs), WinNames(cfg.outcomes));
    var outcomes := BuildOutcomes(cfg.outcomes, names);
    if outcomes.Failure? {
      return Failure(outcomes.error);
    }
    var os := outcomes.value;
    return Success(Conversion(inputs.value, os, PrevEnd(os, |os|)));
  }
}
