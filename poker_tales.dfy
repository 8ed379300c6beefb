/** The Poker Tales configuration generator: it turns poker, theft and story
    rules into a game configuration by appending conversions and caps to a
    configuration object. */
module PokerTales {
  import opened Wrappers
  import opened Config
  import Simulator
  import opened Conversions
  import opened Schedule
  import opened Seqs

  // ---------------------------------------------------------------------
  // Rules.
  // ---------------------------------------------------------------------

  /** IPokerOutcome: a weight and the optional gold/anchor/magicball/crown paid. */
  datatype PokerOutcome = PokerOutcome(freq: int, gold: Option<int>, anchor: Option<int>,
                                       magicball: Option<int>, crown: Option<int>)

  /** IPokerRules. */
  datatype PokerRules = PokerRules(energyInput: int, period: string, outcomes: seq<PokerOutcome>)

  /** ITheftOutcome. */
  datatype TheftOutcome = TheftOutcome(freq: int, gold: int, energy: int)

  /** ITheftRules: one theft chance (in percent) per poker outcome. */
  datatype TheftRules = TheftRules(probs: seq<int>, win: TheftOutcome, loose: TheftOutcome)

  /** IStorySubLevel as the rules of the first level give it. */
  datatype SubLevel = SubLevel(goldInput: int, wins: Record<int>)

  /** IStorySubLevel as the per-level multipliers give it (fractional numbers). */
  datatype SubLevelGrowth = SubLevelGrowth(goldInput: real, wins: Record<real>)

  /** IStoryRules. */
  datatype StoryRules = StoryRules(first: seq<SubLevel>, multi: seq<SubLevelGrowth>, levelsNum: nat)

  /** IPokerTalesRules. */
  datatype PokerTalesRules = PokerTalesRules(initEnergy: int, refillEnergyPeriod: string, poker: PokerRules,
                                             theft: TheftRules, story: StoryRules)

  /** The configuration object the generators append to. */
  class ConfigDraft {
    var items: seq<string>
    var itemsMax: Record<int>
    var conversions: seq<ConversionConfig>
    var initAmounts: Record<int>

    constructor (items: seq<string>, itemsMax: Record<int>, conversions: seq<ConversionConfig>,
                 initAmounts: Record<int>)
      ensures this.items == items && this.itemsMax == itemsMax
      ensures this.conversions == conversions && this.initAmounts == initAmounts
    {
      this.items := items;
      this.itemsMax := itemsMax;
      this.conversions := conversions;
      this.initAmounts := initAmounts;
    }

    function Value(): GameConfig
      reads this
    {
      GameConfig(items, itemsMax, conversions, initAmounts)
    }
  }

  // ---------------------------------------------------------------------
  // Generated item names: a template literal renders a number in decimal.
  // ---------------------------------------------------------------------

  function Digit(d: nat): char
    requires d < 10
  {
    (48 + d) as char
  }

  /** `${n}` for a natural number. */
  function Decimal(n: nat): (s: string)
    ensures |s| >= 1 && forall i :: 0 <= i < |s| ==> '0' <= s[i] <= '9'
  {
    if n < 10 then [Digit(n)] else Decimal(n / 10) + [Digit(n % 10)]
  }

  /** The number a string of decimal digits denotes. */
  function DecimalValue(s: string): int {
    if s == [] then 0 else DecimalValue(s[..|s| - 1]) * 10 + (s[|s| - 1] as int - 48)
  }

  /** Reading the decimal rendering back gives the number. */
  lemma {:induction false} DecimalRoundTrip(n: nat)
    ensures DecimalValue(Decimal(n)) == n
  {
    var s := Decimal(n);
    if n < 10 {
      assert s[..0] == [];
    } else {
      DecimalRoundTrip(n / 10);
      assert s[..|s| - 1] == Decimal(n / 10);
    }
  }

  function TheftName(id: nat): string {
    "theft" + Decimal(id)
  }

  function LevelName(i: nat): string {
    "level" + Decimal(i)
  }

  /** Different numbers give different item names. */
  lemma NamesInjective(a: nat, b: nat)
    ensures TheftName(a) == TheftName(b) ==> a == b
    ensures LevelName(a) == LevelName(b) ==> a == b
  {
    DecimalRoundTrip(a);
    DecimalRoundTrip(b);
    assert TheftName(a)[5..] == Decimal(a) && TheftName(b)[5..] == Decimal(b);
    assert LevelName(a)[5..] == Decimal(a) && LevelName(b)[5..] == Decimal(b);
  }

  function Win(amount: int): WinConfig {
    WinConfig(amount, None)
  }

  function Input(amount: int): InputConfig {
    InputConfig(amount, None)
  }

  // ---------------------------------------------------------------------
  // genereatePokerConfig.
  // ---------------------------------------------------------------------

  /** The outcome appended for poker outcome `id`. */
  function PokerOutcomeConfig(po: PokerOutcome, id: nat): OutcomeConfig {
    assert TheftName(id)[0] == 't';
    OutcomeConfig(po.freq, [("gold", Win(po.gold.GetOr(0))), ("anchor", Win(po.anchor.GetOr(0))),
                            ("magicball", Win(po.magicball.GetOr(0))), ("crown", Win(po.crown.GetOr(0))),
                            (TheftName(id), Win(1))])
  }

  function PokerOutcomes(os: seq<PokerOutcome>): seq<OutcomeConfig> {
    seq(|os|, id requires 0 <= id < |os| => PokerOutcomeConfig(os[id], id))
  }

  lemma PokerOutcomesSnoc(os: seq<PokerOutcome>, id: nat)
    requires id < |os|
    ensures PokerOutcomes(os[..id + 1]) == PokerOutcomes(os[..id]) + [PokerOutcomeConfig(os[id], id)]
  {
    assert forall k :: 0 <= k < id ==> os[..id + 1][k] == os[..id][k];
  }

  /** The poker conversion. */
  function PokerConversion(rules: PokerRules): ConversionConfig {
    ConversionConfig([("energy", Input(rules.energyInput))], PokerOutcomes(rules.outcomes), Some(rules.period))
  }

  /** `r[k] = v` for every `k` of `ks`, in order. */
  function SetAll(r: Record<int>, ks: seq<string>, v: int): Record<int>
    decreases |ks|
  {
    if ks == [] then r else Put(SetAll(r, ks[..|ks| - 1], v), ks[|ks| - 1], v)
  }

  /** After the assignments every key of `ks` holds `v`. */
  lemma {:induction false} SetAllHit(r: Record<int>, ks: seq<string>, v: int, k: string)
    requires k in ks
    ensures Lookup(SetAll(r, ks, v), k) == Some(v)
    decreases |ks|
  {
    var last := ks[|ks| - 1];
    PutLookup(SetAll(r, ks[..|ks| - 1], v), last, v);
    if k != last {
      var prev := ks[..|ks| - 1];
      assert ks == prev + [last];
      SetAllHit(r, prev, v, k);
    }
  }

  /** Every key outside `ks` keeps its value. */
  lemma {:induction false} SetAllMiss(r: Record<int>, ks: seq<string>, v: int, k: string)
    requires k !in ks
    ensures Lookup(SetAll(r, ks, v), k) == Lookup(r, k)
    decreases |ks|
  {
    if ks != [] {
      var prev := ks[..|ks| - 1];
      assert ks == prev + [ks[|ks| - 1]];
      PutLookup(SetAll(r, prev, v), ks[|ks| - 1], v);
      SetAllMiss(r, prev, v, k);
    }
  }

  /** The theft items of the first `n` poker outcomes, in order. */
  function TheftNames(n: nat): (ns: seq<string>)
    ensures |ns| == n && forall id :: 0 <= id < n ==> ns[id] == TheftName(id)
  {
    seq(n, id requires 0 <= id < n => TheftName(id))
  }

  /** The caps after poker: every theft item of a poker outcome is capped at
      1, and every other cap is left as it was. */
  lemma PokerCapsLookup(m: Record<int>, n: nat, k: string)
    ensures (exists id :: 0 <= id < n && k == TheftName(id)) ==> Lookup(SetAll(m, TheftNames(n), 1), k) == Some(1)
    ensures (forall id :: 0 <= id < n ==> k != TheftName(id)) ==> Lookup(SetAll(m, TheftNames(n), 1), k) == Lookup(m, k)
  {
    if k in TheftNames(n) {
      SetAllHit(m, TheftNames(n), 1, k);
    } else {
      SetAllMiss(m, TheftNames(n), 1, k);
    }
  }

  /** Poker outcome `id` keeps the weight of the rules' outcome `id`, pays
      its prizes (0 when absent) and one `theft<id>`. */
  lemma PokerOutcomeShape(po: PokerOutcome, id: nat)
    ensures var o := PokerOutcomeConfig(po, id);
            && o.freq == po.freq
            && Keys(o.wins) == ["gold", "anchor", "magicball", "crown", TheftName(id)]
            && Lookup(o.wins, "gold") == Some(Win(po.gold.GetOr(0)))
            && Lookup(o.wins, "anchor") == Some(Win(po.anchor.GetOr(0)))
            && Lookup(o.wins, "magicball") == Some(Win(po.magicball.GetOr(0)))
            && Lookup(o.wins, "crown") == Some(Win(po.crown.GetOr(0)))
            && Lookup(o.wins, TheftName(id)) == Some(Win(1))
  {
    var o := PokerOutcomeConfig(po, id);
    assert o.wins[0] == ("gold", Win(po.gold.GetOr(0)));
    assert o.wins[1] == ("anchor", Win(po.anchor.GetOr(0)));
    assert o.wins[2] == ("magicball", Win(po.magicball.GetOr(0)));
    assert o.wins[3] == ("crown", Win(po.crown.GetOr(0)));
    assert o.wins[4] == (TheftName(id), Win(1));
  }

  /** The poker conversion carries the rules' period, consumes only
      `energyInput` energy and has one outcome per poker outcome, in order. */
  lemma PokerConversionShape(rules: PokerRules)
    ensures var c := PokerConversion(rules);
            && c.period == Some(rules.period)
            && Keys(c.inputs) == ["energy"] && Lookup(c.inputs, "energy") == Some(Input(rules.energyInput))
            && |c.outcomes| == |rules.outcomes|
            && forall id :: 0 <= id < |c.outcomes| ==> c.outcomes[id] == PokerOutcomeConfig(rules.outcomes[id], id)
  {
    var c := PokerConversion(rules);
    assert c.inputs[0] == ("energy", Input(rules.energyInput));
  }

  /** genereatePokerConfig(rules, config). */
  method GeneratePoker(rules: PokerRules, config: ConfigDraft)
    modifies config
    ensures config.items == old(config.items) && config.initAmounts == old(config.initAmounts)
    ensures config.itemsMax == SetAll(old(config.itemsMax), TheftNames(|rules.outcomes|), 1)
    ensures config.conversions == old(config.conversions) + [PokerConversion(rules)]
  {
    ghost var thefts := TheftNames(|rules.outcomes|);
    var outcomes: seq<OutcomeConfig> := [];
    for id := 0 to |rules.outcomes|
      invariant config.items == old(config.items) && config.initAmounts == old(config.initAmounts)
      invariant config.conversions == old(config.conversions)
      invariant config.itemsMax == SetAll(old(config.itemsMax), thefts[..id], 1)
      invariant outcomes == PokerOutcomes(rules.outcomes[..id])
    {
      PokerOutcomesSnoc(rules.outcomes, id);
      TakeTake(thefts, id);
      config.itemsMax := Put(config.itemsMax, TheftName(id), 1);
      outcomes := outcomes + [PokerOutcomeConfig(rules.outcomes[id], id)];
    }
    TakeAll(rules.outcomes);
    TakeAll(thefts);
    config.conversions := config.conversions +
      [ConversionConfig([("energy", Input(rules.energyInput))], outcomes, Some(rules.period))];
  }

  // ---------------------------------------------------------------------
  // generateTheftConfig.
  // ---------------------------------------------------------------------

  /** The conversion turning a `theft<id>` into a theft pass with chance `prob`. */
  function TheftPass(prob: int, id: nat): ConversionConfig {
    ConversionConfig([(TheftName(id), Input(1))],
                     [OutcomeConfig(prob, [("theftPass", Win(1))]), OutcomeConfig(100 - prob, [])],
                     None)
  }

  /** The conversions for the nonzero chances, in order. */
  function TheftPasses(probs: seq<int>): seq<ConversionConfig>
    decreases |probs|
  {
    if probs == [] then []
    else TheftPasses(probs[..|probs| - 1]) +
         (if probs[|probs| - 1] == 0 then [] else [TheftPass(probs[|probs| - 1], |probs| - 1)])
  }

  function TheftOutcomeConfig(t: TheftOutcome): OutcomeConfig {
    OutcomeConfig(t.freq, [("gold", Win(t.gold)), ("energy", Win(t.energy))])
  }

  /** The conversion spending a theft pass, win outcome first. */
  function TheftReward(rules: TheftRules): ConversionConfig {
    ConversionConfig([("theftPass", Input(1))], [TheftOutcomeConfig(rules.win), TheftOutcomeConfig(rules.loose)], None)
  }

  function TheftConversions(rules: TheftRules): seq<ConversionConfig> {
    TheftPasses(rules.probs) + [TheftReward(rules)]
  }

  /** Each theft pass comes from a nonzero chance, and each nonzero chance
      gives its pass. */
  lemma {:induction false} TheftPassesFromChances(probs: seq<int>)
    ensures forall c :: c in TheftPasses(probs) ==>
              exists id :: 0 <= id < |probs| && probs[id] != 0 && c == TheftPass(probs[id], id)
    ensures forall id :: 0 <= id < |probs| && probs[id] != 0 ==> TheftPass(probs[id], id) in TheftPasses(probs)
    decreases |probs|
  {
    if probs != [] {
      var p := probs[..|probs| - 1];
      TheftPassesFromChances(p);
      assert forall id :: 0 <= id < |p| ==> p[id] == probs[id];
    }
  }

  /** A theft item is consumed by some conversion of the theft pass exactly
      when its chance is nonzero: a chance of 0 produces no conversion. */
  lemma TheftChanceIff(probs: seq<int>, id: nat)
    requires id < |probs|
    ensures (exists c :: c in TheftPasses(probs) && TheftName(id) in Keys(c.inputs)) <==> probs[id] != 0
  {
    TheftPassesFromChances(probs);
    if probs[id] != 0 {
      var c := TheftPass(probs[id], id);
      assert c in TheftPasses(probs) && Keys(c.inputs)[0] == TheftName(id);
    } else {
      forall c | c in TheftPasses(probs) ensures TheftName(id) !in Keys(c.inputs) {
        var j :| 0 <= j < |probs| && probs[j] != 0 && c == TheftPass(probs[j], j);
        NamesInjective(id, j);
        assert Keys(c.inputs) == [TheftName(j)];
      }
    }
  }

  /** The theft part ends with the theft pass reward, whose first outcome is
      the win and whose second is the loss. */
  lemma TheftRewardLast(rules: TheftRules)
    ensures var cs := TheftConversions(rules);
            && |cs| >= 1 && cs[|cs| - 1] == TheftReward(rules)
            && Keys(cs[|cs| - 1].inputs) == ["theftPass"]
            && cs[|cs| - 1].outcomes == [TheftOutcomeConfig(rules.win), TheftOutcomeConfig(rules.loose)]
  {
  }

  /** generateTheftConfig(rules, config). */
  method GenerateTheft(rules: TheftRules, config: ConfigDraft)
    modifies config
    ensures config.items == old(config.items) && config.initAmounts == old(config.initAmounts)
    ensures config.itemsMax == old(config.itemsMax)
    ensures config.conversions == old(config.conversions) + TheftConversions(rules)
  {
    for id := 0 to |rules.probs|
      invariant config.items == old(config.items) && config.initAmounts == old(config.initAmounts)
      invariant config.itemsMax == old(config.itemsMax)
      invariant config.conversions == old(config.conversions) + TheftPasses(rules.probs[..id])
    {
      TakeTake(rules.probs, id);
      var prob := rules.probs[id];
      if prob != 0 {
        config.conversions := config.conversions + [TheftPass(prob, id)];
      }
    }
    TakeAll(rules.probs);
    config.conversions := config.conversions + [TheftReward(rules)];
  }

  // ---------------------------------------------------------------------
  // generateStoryLevelConfig.
  // ---------------------------------------------------------------------

  /** The wins of a sub-level as conversion wins, in the same order. */
  function WinsOf(wins: Record<int>): (r: Record<WinConfig>)
    ensures Keys(r) == Keys(wins)
  {
    var r := seq(|wins|, k requires 0 <= k < |wins| => (wins[k].0, Win(wins[k].1)));
    assert forall k :: 0 <= k < |r| ==> r[k].0 == wins[k].0;
    r
  }

  /** Each win of a sub-level is paid with its amount and no limit. */
  lemma WinsOfLookup(wins: Record<int>, key: string)
    ensures Lookup(WinsOf(wins), key) == if Lookup(wins, key).Some? then Some(Win(Lookup(wins, key).value)) else None
  {
    if Lookup(wins, key).Some? {
      var i :| 0 <= i < |wins| && wins[i] == (key, Lookup(wins, key).value);
      assert WinsOf(wins)[i] == (key, Win(Lookup(wins, key).value));
    }
  }

  /** The `for ... in sl.wins` copy into conversion wins. */
  method AmountWins(wins: Record<int>) returns (r: Record<WinConfig>)
    ensures r == WinsOf(wins)
  {
    r := [];
    for k := 0 to |wins|
      invariant r == WinsOf(wins[..k])
    {
      assert wins[k].0 !in Keys(r);
      r := Put(r, wins[k].0, Win(wins[k].1));
    }
    TakeAll(wins);
  }

  /** The conversion of sub-level `i` of the story. */
  function StoryConversion(sl: SubLevel, i: nat): ConversionConfig {
    assert LevelName(i)[0] == 'l';
    ConversionConfig([("gold", Input(sl.goldInput)), (LevelName(i), Input(1))],
                     [OutcomeConfig(1, Put(WinsOf(sl.wins), LevelName(i + 1), Win(1)))],
                     None)
  }

  /** The conversions of level `levelId`, whose sub-levels are `level`. */
  function StoryLevel(levelId: nat, level: seq<SubLevel>): seq<ConversionConfig> {
    seq(|level|, k requires 0 <= k < |level| => StoryConversion(level[k], levelId * |level| + k))
  }

  /** Conversion `c` is link `i` of the story chain: it consumes gold and one
      `level<i>`, and with certainty pays one `level<i+1>`. */
  ghost predicate Chained(c: ConversionConfig, i: nat) {
    && c.period == None
    && Keys(c.inputs) == ["gold", LevelName(i)] && Lookup(c.inputs, LevelName(i)) == Some(Input(1))
    && |c.outcomes| == 1 && c.outcomes[0].freq == 1
    && Lookup(c.outcomes[0].wins, LevelName(i + 1)) == Some(Win(1))
  }

  /** The conversion of sub-level `i` is link `i` of the chain; it costs the
      sub-level's gold and pays its wins, except that a win named like the
      next level is replaced by the single `level<i+1>`. */
  lemma StoryConversionShape(sl: SubLevel, i: nat)
    ensures var c := StoryConversion(sl, i);
            && Chained(c, i)
            && Lookup(c.inputs, "gold") == Some(Input(sl.goldInput))
            && forall key :: key != LevelName(i + 1) && Lookup(sl.wins, key).Some? ==>
                 Lookup(c.outcomes[0].wins, key) == Some(Win(Lookup(sl.wins, key).value))
  {
    var c := StoryConversion(sl, i);
    assert c.inputs[1] == (LevelName(i), Input(1));
    PutLookup(WinsOf(sl.wins), LevelName(i + 1), Win(1));
    forall key | key != LevelName(i + 1) && Lookup(sl.wins, key).Some?
      ensures Lookup(c.outcomes[0].wins, key) == Some(Win(Lookup(sl.wins, key).value))
    {
      WinsOfLookup(sl.wins, key);
    }
  }

  /** One iteration of generateStoryLevelConfig: the conversion of
      sub-level `sl`, numbered `subLevelId`. */
  method SubLevelConversion(sl: SubLevel, subLevelId: nat) returns (c: ConversionConfig)
    ensures c == StoryConversion(sl, subLevelId)
  {
    var current := LevelName(subLevelId);
    var next := LevelName(subLevelId + 1);
    var wins := AmountWins(sl.wins);
    wins := Put(wins, next, Win(1));
    assert current[0] == 'l';
    c := ConversionConfig([("gold", Input(sl.goldInput)), (current, Input(1))], [OutcomeConfig(1, wins)], None);
  }

  /** generateStoryLevelConfig(levelId, level, config). */
  method GenerateStoryLevel(levelId: nat, level: seq<SubLevel>, config: ConfigDraft)
    modifies config
    ensures config.items == old(config.items) && config.initAmounts == old(config.initAmounts)
    ensures config.itemsMax == old(config.itemsMax)
    ensures config.conversions == old(config.conversions) + StoryLevel(levelId, level)
  {
    ghost var want := StoryLevel(levelId, level);
    var subLevelId := levelId * |level|;
    for k := 0 to |level|
      invariant config.items == old(config.items) && config.initAmounts == old(config.initAmounts)
      invariant config.itemsMax == old(config.itemsMax)
      invariant subLevelId == levelId * |level| + k
      invariant config.conversions == old(config.conversions) + want[..k]
    {
      var c := SubLevelConversion(level[k], subLevelId);
      assert want[..k + 1] == want[..k] + [c];
      config.conversions := config.conversions + [c];
      subLevelId := subLevelId + 1;
    }
    TakeAll(want);
  }

  // ---------------------------------------------------------------------
  // generateStoryConfig: level `levelId` scales the first level's numbers by
  // the multipliers raised to `levelId`, rounding down.
  // ---------------------------------------------------------------------

  /** Math.pow for a natural exponent. */
  function Pow(x: real, e: nat): real {
    if e == 0 then 1.0 else x * Pow(x, e - 1)
  }

  /** Math.floor(v * f). */
  function Scale(v: int, f: real): int {
    (v as real * f).Floor
  }

  /** The factor of a win whose multiplier may be missing: Math.pow(x, 0) is 1
      whatever `x` is, so a missing multiplier only matters above level 0. */
  function Factor(m: Option<real>, levelId: nat): real
    requires levelId == 0 || m.Some?
  {
    if levelId == 0 then 1.0 else Pow(m.value, levelId)
  }

  /** Every win of `sl` has a multiplier in `m`, or nothing is raised. */
  predicate Scalable(sl: SubLevel, m: SubLevelGrowth, levelId: nat) {
    levelId == 0 || forall k :: 0 <= k < |sl.wins| ==> Lookup(m.wins, sl.wins[k].0).Some?
  }

  /** Sub-level `sl` of the first level, scaled for level `levelId`. */
  function ScaledSubLevel(sl: SubLevel, m: SubLevelGrowth, levelId: nat): SubLevel
    requires Scalable(sl, m, levelId)
  {
    var wins := seq(|sl.wins|, k requires 0 <= k < |sl.wins| =>
                      (sl.wins[k].0, Scale(sl.wins[k].1, Factor(Lookup(m.wins, sl.wins[k].0), levelId))));
    assert forall k :: 0 <= k < |wins| ==> wins[k].0 == sl.wins[k].0;
    SubLevel(Scale(sl.goldInput, Pow(m.goldInput, levelId)), wins)
  }

  /** The story rules give every number the scaling reads: a multiplier per
      first-level sub-level whenever a level is generated, and a multiplier
      for every win whenever a level above 0 is. */
  predicate StoryDefined(story: StoryRules) {
    story.levelsNum > 0 ==>
      && |story.first| <= |story.multi|
      && forall id :: 0 <= id < |story.first| ==> Scalable(story.first[id], story.multi[id], story.levelsNum - 1)
  }

  function ScaledLevel(story: StoryRules, levelId: nat): (level: seq<SubLevel>)
    requires StoryDefined(story) && levelId < story.levelsNum
    ensures |level| == |story.first|
  {
    seq(|story.first|, id requires 0 <= id < |story.first| =>
          ScaledSubLevel(story.first[id], story.multi[id], levelId))
  }

  /** Level 0 is the first level itself. */
  lemma FirstLevelUnscaled(story: StoryRules)
    requires StoryDefined(story) && story.levelsNum > 0
    ensures ScaledLevel(story, 0) == story.first
  {
    forall id | 0 <= id < |story.first| ensures ScaledLevel(story, 0)[id] == story.first[id] {
      var sl := story.first[id];
      var s := ScaledSubLevel(sl, story.multi[id], 0);
      assert s.goldInput == sl.goldInput;
      assert s.wins == sl.wins by {
        forall k | 0 <= k < |sl.wins| ensures s.wins[k] == sl.wins[k] {
          assert Scale(sl.wins[k].1, 1.0) == sl.wins[k].1;
        }
      }
    }
  }

  /** The story conversions of the first `n` levels, one level after another. */
  function StoryConfigs(story: StoryRules, n: nat): seq<ConversionConfig>
    requires StoryDefined(story) && n <= story.levelsNum
  {
    if n == 0 then [] else StoryConfigs(story, n - 1) + StoryLevel(n - 1, ScaledLevel(story, n - 1))
  }

  lemma {:induction false} StoryLength(story: StoryRules, n: nat)
    requires StoryDefined(story) && n <= story.levelsNum
    ensures |StoryConfigs(story, n)| == n * |story.first|
  {
    if n > 0 {
      StoryLength(story, n - 1);
      assert n * |story.first| == (n - 1) * |story.first| + |story.first|;
    }
  }

  /** Position j of row b lies before row m when b < m. */
  lemma RowBefore(b: nat, m: nat, len: nat, j: nat)
    requires b < m && j < len
    ensures b * len + j < m * len
  {
    assert b * len + len == (b + 1) * len;
    assert (b + 1) * len <= m * len;
  }

  /** Sub-level `j` of level `b` is conversion `b * first.length + j`. */
  lemma {:induction false} StoryAt(story: StoryRules, n: nat, b: nat, j: nat)
    requires StoryDefined(story) && n <= story.levelsNum && b < n && j < |story.first|
    ensures b * |story.first| + j < |StoryConfigs(story, n)|
    ensures StoryConfigs(story, n)[b * |story.first| + j] ==
            StoryConversion(ScaledLevel(story, b)[j], b * |story.first| + j)
  {
    var len := |story.first|;
    StoryLength(story, n - 1);
    var prev, level := StoryConfigs(story, n - 1), StoryLevel(n - 1, ScaledLevel(story, n - 1));
    assert StoryConfigs(story, n) == prev + level;
    if b < n - 1 {
      StoryAt(story, n - 1, b, j);
      RowBefore(b, n - 1, len, j);
    } else {
      assert b * len == |prev|;
      assert StoryConfigs(story, n)[b * len + j] == level[j];
    }
  }

  lemma StoryLevelChained(levelId: nat, level: seq<SubLevel>, j: nat)
    requires j < |level|
    ensures Chained(StoryLevel(levelId, level)[j], levelId * |level| + j)
  {
    StoryConversionShape(level[j], levelId * |level| + j);
  }

  /** Appending level `levelId` to a chain of `levelId` full levels keeps it
      a chain. */
  lemma ChainExtended(prev: seq<ConversionConfig>, levelId: nat, level: seq<SubLevel>)
    requires |prev| == levelId * |level|
    requires forall k :: 0 <= k < |prev| ==> Chained(prev[k], k)
    ensures ChainFrom(prev + StoryLevel(levelId, level), 0)
  {
    var cs := prev + StoryLevel(levelId, level);
    forall k | |prev| <= k < |prev| + |level| ensures Chained(cs[k], k) {
      StoryLevelChained(levelId, level, k - |prev|);
      assert cs[k] == StoryLevel(levelId, level)[k - |prev|];
    }
    forall k | 0 <= k < |prev| ensures Chained(cs[k], k) {
      assert cs[k] == prev[k];
    }
  }

  /** The story is one chain: conversion `k`, whatever its level, consumes
      `level<k>` and pays `level<k+1>`, so the last sub-level of a level
      leads into the first of the next. */
  lemma {:induction false} StoryChain(story: StoryRules, n: nat)
    requires StoryDefined(story) && n <= story.levelsNum
    ensures forall k :: 0 <= k < |StoryConfigs(story, n)| ==> Chained(StoryConfigs(story, n)[k], k)
  {
    if n > 0 {
      StoryChain(story, n - 1);
      StoryLength(story, n - 1);
      var prev, level := StoryConfigs(story, n - 1), ScaledLevel(story, n - 1);
      ChainExtended(prev, n - 1, level);
      assert ChainFrom(StoryConfigs(story, n), 0);
    }
  }

  /** The `first.map(...)` of one sub-level: its wins copied with the
      multipliers applied. */
  method ScaleSubLevel(sl: SubLevel, m: SubLevelGrowth, levelId: nat) returns (r: SubLevel)
    requires Scalable(sl, m, levelId)
    ensures r == ScaledSubLevel(sl, m, levelId)
  {
    var wins: Record<int> := [];
    for k := 0 to |sl.wins|
      invariant |wins| == k
      invariant forall j :: 0 <= j < k ==>
                  wins[j] == (sl.wins[j].0, Scale(sl.wins[j].1, Factor(Lookup(m.wins, sl.wins[j].0), levelId)))
    {
      var key := sl.wins[k].0;
      assert key !in Keys(wins) by {
        forall j | 0 <= j < k ensures Keys(wins)[j] != key {
          assert Keys(wins)[j] == sl.wins[j].0;
        }
      }
      wins := Put(wins, key, Scale(sl.wins[k].1, Factor(Lookup(m.wins, key), levelId)));
    }
    r := SubLevel(Scale(sl.goldInput, Pow(m.goldInput, levelId)), wins);
  }

  /** The `first.map(...)` for level `levelId`. */
  method ScaleLevel(story: StoryRules, levelId: nat) returns (level: seq<SubLevel>)
    requires StoryDefined(story) && levelId < story.levelsNum
    ensures level == ScaledLevel(story, levelId)
  {
    level := [];
    for id := 0 to |story.first|
      invariant |level| == id
      invariant forall j :: 0 <= j < id ==> level[j] == ScaledLevel(story, levelId)[j]
    {
      var sl := ScaleSubLevel(story.first[id], story.multi[id], levelId);
      level := level + [sl];
    }
  }

  /** generateStoryConfig(story, config). */
  method GenerateStory(story: StoryRules, config: ConfigDraft)
    requires StoryDefined(story)
    modifies config
    ensures config.items == old(config.items) && config.initAmounts == old(config.initAmounts)
    ensures config.itemsMax == old(config.itemsMax)
    ensures config.conversions == old(config.conversions) + StoryConfigs(story, story.levelsNum)
  {
    for levelId := 0 to story.levelsNum
      invariant config.items == old(config.items) && config.initAmounts == old(config.initAmounts)
      invariant config.itemsMax == old(config.itemsMax)
      invariant config.conversions == old(config.conversions) + StoryConfigs(story, levelId)
    {
      var level := ScaleLevel(story, levelId);
      GenerateStoryLevel(levelId, level, config);
    }
  }

  // ---------------------------------------------------------------------
  // generatePokerTalesConfig.
  // ---------------------------------------------------------------------

  const Items: seq<string> := ["energy", "gold", "anchor", "magicball", "crown", "theftPass", "egg", "umbrella", "level0"]

  /** The initial caps: at most 3 umbrellas. */
  const UmbrellaCap: Record<int> := [("umbrella", 3)]

  /** The free energy refill, carrying the given period: each run tops energy
      up by 50, to at most 50. */
  function Refill(period: string): ConversionConfig {
    ConversionConfig([], [OutcomeConfig(1, [("energy", WinConfig(50, Some(50)))])], Some(period))
  }

  /** The configuration generatePokerTalesConfig(rules) returns. */
  function PokerTalesConfig(rules: PokerTalesRules): GameConfig
    requires StoryDefined(rules.story)
  {
    GameConfig(Items, SetAll(UmbrellaCap, TheftNames(|rules.poker.outcomes|), 1),
               [Refill(rules.refillEnergyPeriod), PokerConversion(rules.poker)] + TheftConversions(rules.theft) +
                 StoryConfigs(rules.story, rules.story.levelsNum),
               [("energy", rules.initEnergy)])
  }

  /** generatePokerTalesConfig(rules). */
  method GeneratePokerTales(rules: PokerTalesRules) returns (r: GameConfig)
    requires StoryDefined(rules.story)
    ensures r == PokerTalesConfig(rules)
  {
    var config := new ConfigDraft(Items, UmbrellaCap, [], [("energy", rules.initEnergy)]);
    config.conversions := config.conversions + [Refill(rules.refillEnergyPeriod)];
    GeneratePoker(rules.poker, config);
    assert config.conversions == [Refill(rules.refillEnergyPeriod), PokerConversion(rules.poker)];
    GenerateTheft(rules.theft, config);
    GenerateStory(rules.story, config);
    r := config.Value();
  }

  /** From position `off` on, conversion `k` is link `k - off` of the chain. */
  ghost predicate ChainFrom(cs: seq<ConversionConfig>, off: nat) {
    forall k :: off <= k < |cs| ==> Chained(cs[k], k - off)
  }

  /** A chain keeps its links when conversions are put before it. */
  lemma ChainShifted(head: seq<ConversionConfig>, chain: seq<ConversionConfig>, cs: seq<ConversionConfig>)
    requires forall k :: 0 <= k < |chain| ==> Chained(chain[k], k)
    requires cs == head + chain
    ensures ChainFrom(cs, |head|)
  {
    forall k | |head| <= k < |cs| ensures Chained(cs[k], k - |head|) {
      assert cs[k] == chain[k - |head|];
    }
  }

  /** The conversions come in the order refill, poker, theft passes, theft
      reward, story; story conversion `k` is link `k` of the chain. */
  lemma PokerTalesLayout(rules: PokerTalesRules)
    requires StoryDefined(rules.story)
    ensures var cs := PokerTalesConfig(rules).conversions;
            var t := |TheftPasses(rules.theft.probs)|;
            && |cs| == 3 + t + rules.story.levelsNum * |rules.story.first|
            && cs[0] == Refill(rules.refillEnergyPeriod)
            && cs[1] == PokerConversion(rules.poker)
            && cs[2..2 + t] == TheftPasses(rules.theft.probs)
            && cs[2 + t] == TheftReward(rules.theft)
            && ChainFrom(cs, 3 + t)
  {
    var story := StoryConfigs(rules.story, rules.story.levelsNum);
    var head := [Refill(rules.refillEnergyPeriod), PokerConversion(rules.poker)] + TheftConversions(rules.theft);
    var cs := PokerTalesConfig(rules).conversions;
    assert cs == head + story;
    assert |head| == 3 + |TheftPasses(rules.theft.probs)|;
    StoryLength(rules.story, rules.story.levelsNum);
    StoryChain(rules.story, rules.story.levelsNum);
    ChainShifted(head, story, cs);
  }

  /** Only the refill and the poker conversions carry a period; every theft
      and story conversion is immediate. */
  lemma PokerTalesPeriods(rules: PokerTalesRules)
    requires StoryDefined(rules.story)
    ensures var cs := PokerTalesConfig(rules).conversions;
            && cs[0].period == Some(rules.refillEnergyPeriod) && cs[1].period == Some(rules.poker.period)
            && forall k :: 0 <= k < |cs| ==> (cs[k].period.Some? <==> k < 2)
  {
    var passes := TheftPasses(rules.theft.probs);
    var story := StoryConfigs(rules.story, rules.story.levelsNum);
    var cs := PokerTalesConfig(rules).conversions;
    assert cs == [Refill(rules.refillEnergyPeriod), PokerConversion(rules.poker)] + passes +
                 [TheftReward(rules.theft)] + story;
    TheftPassesFromChances(rules.theft.probs);
    StoryChain(rules.story, rules.story.levelsNum);
    forall k | 2 <= k < |cs| ensures cs[k].period == None {
      if k < 2 + |passes| {
        assert cs[k] == passes[k - 2] && passes[k - 2] in passes;
      } else if k > 2 + |passes| {
        assert cs[k] == story[k - 3 - |passes|];
      }
    }
  }

  /** The game runs the refill and the poker conversions periodically exactly
      when their period texts are not empty, and every other conversion
      immediately. */
  lemma PokerTalesPeriodic(rules: PokerTalesRules)
    requires StoryDefined(rules.story)
    ensures var cs := PokerTalesConfig(rules).conversions;
            forall k :: 0 <= k < |cs| ==>
              (TruthyString(cs[k].period) <==>
                 (k == 0 && rules.refillEnergyPeriod != "") || (k == 1 && rules.poker.period != ""))
  {
    PokerTalesPeriods(rules);
  }

  /** Every key the caps hold is an old key or one of `ks`. */
  lemma {:induction false} SetAllKeys(r: Record<int>, ks: seq<string>, v: int)
    ensures forall k :: k in Keys(SetAll(r, ks, v)) ==> k in Keys(r) || k in ks
    decreases |ks|
  {
    if ks != [] {
      var prev := ks[..|ks| - 1];
      SetAllKeys(r, prev, v);
      assert ks == prev + [ks[|ks| - 1]];
    }
  }

  /** The caps of the generated game: `umbrella` at 3, each theft item of a
      poker outcome at 1, and nothing else. */
  lemma PokerTalesCaps(rules: PokerTalesRules, k: string)
    requires StoryDefined(rules.story)
    ensures var caps := PokerTalesConfig(rules).itemsMax;
            Lookup(caps, k) ==
              if k == "umbrella" then Some(3)
              else if exists id :: 0 <= id < |rules.poker.outcomes| && k == TheftName(id) then Some(1)
              else None
  {
    var n := |rules.poker.outcomes|;
    PokerCapsLookup(UmbrellaCap, n, k);
    if k == "umbrella" {
      forall id | 0 <= id < n ensures k != TheftName(id) {
        assert TheftName(id)[0] == 't';
      }
    }
  }

  /** The story refers to items the game never declares: with at least one
      level and one sub-level, the first story conversion pays `level1`, which
      is neither a listed item nor a capped one, so building a game from this
      configuration fails, whatever the period parser: with `VerificationError`
      for `level1` at the latest, or earlier for another unknown item or an
      invalid period. */
  lemma UndeclaredLevel(rules: PokerTalesRules, parse: string -> Option<int>)
    requires StoryDefined(rules.story) && rules.story.levelsNum > 0 && |rules.story.first| > 0
    ensures var c := PokerTalesConfig(rules);
            var k := 3 + |TheftPasses(rules.theft.probs)|;
            && k < |c.conversions| && |c.conversions[k].outcomes| == 1
            && Lookup(c.conversions[k].outcomes[0].wins, LevelName(1)) == Some(Win(1))
            && LevelName(1) !in Simulator.ItemNames(c)
    ensures Simulator.CreateError(PokerTalesConfig(rules), parse).Some?
  {
    var c := PokerTalesConfig(rules);
    var k := 3 + |TheftPasses(rules.theft.probs)|;
    PokerTalesLayout(rules);
    assert 0 < rules.story.levelsNum * |rules.story.first|;
    assert Chained(c.conversions[k], 0);
    LevelOneUndeclared(|rules.poker.outcomes|);
    var names := Simulator.ItemNames(c);
    var cfg := c.conversions[k];
    assert LevelName(1) in Keys(cfg.outcomes[0].wins);
    assert WinNames(cfg.outcomes) == Keys(cfg.outcomes[0].wins) + WinNames(cfg.outcomes[1..]);
    var refs := ReferencedNames(cfg);
    assert LevelName(1) in refs;
    var i :| 0 <= i < |refs| && refs[i] == LevelName(1);
    assert FirstUnknown(names, refs).Some?;
    assert ConversionError(cfg, names, parse).Some?;
    FirstErrorAt(c.conversions, names, parse, k);
  }

  /** No declared item or cap is called `level1`. */
  lemma LevelOneUndeclared(n: nat)
    ensures LevelName(1) !in Items + Keys(SetAll(UmbrellaCap, TheftNames(n), 1))
  {
    SetAllKeys(UmbrellaCap, TheftNames(n), 1);
    assert LevelName(1) == "level1";
    forall id | 0 <= id < n ensures LevelName(1) != TheftNames(n)[id] {
      assert TheftNames(n)[id][0] == 't';
    }
  }
}
