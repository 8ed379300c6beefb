/** The configuration schema consumed by the engine, and the JavaScript idioms
    the engine relies on: objects used as dictionaries, optional numbers and
    truthiness tests. */
module Config {
  import opened Wrappers

  /** No key occurs twice among the entries of a dictionary. */
  predicate DistinctKeys<V>(r: seq<(string, V)>) {
    forall i, j :: 0 <= i < j < |r| ==> r[i].0 != r[j].0
  }

  /** A JavaScript object used as a dictionary: its entries in insertion order,
      each key once (keys here are never integer-like, so `for ... in` visits
      them in insertion order). */
  type Record<V> = r: seq<(string, V)> | DistinctKeys(r) witness []

  /** The keys of a dictionary, in order. */
  function Keys<V>(r: seq<(string, V)>): (ks: seq<string>)
    ensures |ks| == |r|
    ensures forall i :: 0 <= i < |r| ==> ks[i] == r[i].0
  {
    seq(|r|, i requires 0 <= i < |r| => r[i].0)
  }

  /** The position of the first entry with key `k`, or -1 when there is none. */
  function IndexOf<V>(r: seq<(string, V)>, k: string): (i: int)
    ensures -1 <= i < |r|
    ensures i == -1 <==> forall j :: 0 <= j < |r| ==> r[j].0 != k
    ensures i >= 0 ==> r[i].0 == k && forall j :: 0 <= j < i ==> r[j].0 != k
    decreases |r|
  {
    if |r| == 0 then -1
    else if r[0].0 == k then 0
    else
      var i := IndexOf(r[1..], k);
      assert forall j :: 1 <= j < |r| ==> r[j] == r[1..][j - 1];
      if i == -1 then -1 else i + 1
  }

  /** `r[k]`: the value stored under `k`, or `None` when `k` is not a key. */
  function Lookup<V>(r: seq<(string, V)>, k: string): (v: Option<V>)
    ensures v.None? <==> k !in Keys(r)
    ensures v.Some? ==> exists i :: 0 <= i < |r| && r[i] == (k, v.value)
    ensures DistinctKeys(r) ==> forall i :: 0 <= i < |r| && r[i].0 == k ==> v == Some(r[i].1)
  {
    var i := IndexOf(r, k);
    assert k in Keys(r) ==> i >= 0 by {
      if k in Keys(r) {
        var j :| 0 <= j < |r| && Keys(r)[j] == k;
        assert r[j].0 == k;
      }
    }
    assert i >= 0 ==> Keys(r)[i] == k;
    if i < 0 then None else Some(r[i].1)
  }

  /** `r[k] = v`: replaces the value of an existing key in place, or appends a
      new entry. What a lookup then finds is PutLookup. */
  function Put<V>(r: Record<V>, k: string, v: V): (r': Record<V>)
    ensures k in Keys(r) ==> Keys(r') == Keys(r)
    ensures k !in Keys(r) ==> Keys(r') == Keys(r) + [k] && r' == r + [(k, v)]
  {
    if k in Keys(r) then
      var i :| 0 <= i < |r| && r[i].0 == k;
      var r' := r[i := (k, v)];
      assert Keys(r') == Keys(r);
      r'
    else
      var r' := r + [(k, v)];
      assert Keys(r') == Keys(r) + [k];
      r'
  }

  /** After `r[k] = v`, `k` maps to `v` and every other key keeps its value. */
  lemma PutLookup<V>(r: Record<V>, k: string, v: V)
    ensures Lookup(Put(r, k, v), k) == Some(v)
    ensures forall k' :: k' != k ==> Lookup(Put(r, k, v), k') == Lookup(r, k')
  {
    var r' := Put(r, k, v);
    if k in Keys(r) {
      var i :| 0 <= i < |r| && r[i].0 == k && r' == r[i := (k, v)];
      assert r'[i] == (k, v);
      forall k' | k' != k ensures Lookup(r', k') == Lookup(r, k') {
        if k' in Keys(r) {
          var j :| 0 <= j < |r| && Keys(r)[j] == k';
          assert r'[j] == r[j];
        }
      }
    } else {
      assert r'[|r|] == (k, v);
      forall k' | k' != k ensures Lookup(r', k') == Lookup(r, k') {
        if k' in Keys(r) {
          var j :| 0 <= j < |r| && Keys(r)[j] == k';
          assert r'[j] == r[j];
        }
      }
    }
  }

  /** JavaScript truthiness of an optional number: `undefined` and 0 are falsy. */
  predicate Truthy(n: Option<int>) {
    n.Some? && n.value != 0
  }

  /** JavaScript truthiness of an optional string: `undefined` and "" are falsy. */
  predicate TruthyString(s: Option<string>) {
    s.Some? && s.value != ""
  }

  /** IConversionInput: amount consumed; `force` skips the affordability test. */
  datatype InputConfig = InputConfig(amount: int, force: Option<bool>)

  /** IConversionWin: amount granted, optional absolute ceiling on the balance. */
  datatype WinConfig = WinConfig(amount: int, totalLimit: Option<int>)

  /** IConversionOutcome: a weight and the wins paid when it is drawn. */
  datatype OutcomeConfig = OutcomeConfig(freq: int, wins: Record<WinConfig>)

  /** IConversion: inputs by item name, ordered outcomes, optional period text. */
  datatype ConversionConfig = ConversionConfig(
    inputs: Record<InputConfig>,
    outcomes: seq<OutcomeConfig>,
    period: Option<string>)

  /** IGameConfig. */
  datatype GameConfig = GameConfig(
    items: seq<string>,
    itemsMax: Record<int>,
    conversions: seq<ConversionConfig>,
    initAmounts: Record<int>)
}
