/** Python dictionaries keyed by strings.

    A dict is an association list in insertion order, which is the order in
    which Python iterates over it. `Set` is the assignment `d[k] = v`: it
    replaces the value of an existing key where it stands and appends a new
    key at the end. */
module Dicts {
  import opened Outcomes

  type Dict<V> = seq<(string, V)>

  /** The keys in iteration order. */
  function Keys<V>(d: Dict<V>): (ks: seq<string>)
    ensures |ks| == |d|
    ensures forall i :: 0 <= i < |d| ==> ks[i] == d[i].0
  {
    seq(|d|, i requires 0 <= i < |d| => d[i].0)
  }

  /** Every key occurs once, as in every Python dict. */
  predicate DistinctKeys<V>(d: Dict<V>) {
    forall i, j :: 0 <= i < j < |d| ==> d[i].0 != d[j].0
  }

  /** The position of key `k`, or -1 when `k` is not a key. */
  function IndexOf<V>(d: Dict<V>, k: string): (i: int)
    ensures -1 <= i < |d|
    ensures 0 <= i ==> d[i].0 == k && forall j :: 0 <= j < i ==> d[j].0 != k
    ensures i == -1 ==> forall j :: 0 <= j < |d| ==> d[j].0 != k
  {
    if |d| == 0 then -1
    else if d[0].0 == k then 0
    else
      var j := IndexOf(d[1..], k);
      if j < 0 then -1 else j + 1
  }

  predicate HasKey<V>(d: Dict<V>, k: string) {
    IndexOf(d, k) >= 0
  }

  /** Python's `k in d` is `HasKey`. */
  lemma HasKeyInKeys<V>(d: Dict<V>, k: string)
    ensures HasKey(d, k) <==> k in Keys(d)
  {
    if k in Keys(d) {
      var j :| 0 <= j < |d| && Keys(d)[j] == k;
      assert d[j].0 == k;
    }
  }

  /** `d.get(k)`: the value stored under `k`, if any. */
  function Get<V>(d: Dict<V>, k: string): (r: Option<V>)
    ensures r.Some? <==> k in Keys(d)
  {
    var i := IndexOf(d, k);
    if i >= 0 then Some(d[i].1) else None
  }

  /** `d[k]`: the value stored under `k`, or a KeyError. */
  function Lookup<V>(d: Dict<V>, k: string): (r: Result<V>)
    ensures r.Ok? <==> HasKey(d, k)
    ensures r.Err? ==> r.error == KeyError(k)
  {
    var i := IndexOf(d, k);
    if i >= 0 then Ok(d[i].1) else Err(KeyError(k))
  }

  /** `d[k] = v`. */
  function Set<V>(d: Dict<V>, k: string, v: V): (r: Dict<V>)
    ensures HasKey(d, k) ==> |r| == |d| && Keys(r) == Keys(d)
    ensures !HasKey(d, k) ==> r == d + [(k, v)]
    ensures Lookup(r, k) == Ok(v)
    ensures forall j :: 0 <= j < |d| && d[j].0 != k ==> r[j] == d[j]
  {
    var i := IndexOf(d, k);
    if i >= 0 then d[i := (k, v)]
    else
      var r := d + [(k, v)];
      assert r[|d|].0 == k;
      r
  }

  /** `sum(d.values())`, added from the first entry to the last. */
  function SumValues(d: Dict<real>): real {
    if |d| == 0 then 0.0 else SumValues(d[..|d| - 1]) + d[|d| - 1].1
  }

  /** The sum of the first `k` values adds the `k`-th value to the sum of the first `k - 1`. */
  lemma SumValuesPrefixStep(d: Dict<real>, k: nat)
    requires 0 < k <= |d|
    ensures SumValues(d[..k]) == SumValues(d[..k - 1]) + d[k - 1].1
  {
    assert d[..k][..k - 1] == d[..k - 1];
  }

  /** Replacing one value changes the sum by the difference. */
  lemma {:induction false} SumValuesUpdate(d: Dict<real>, i: nat, k: string, v: real)
    requires i < |d|
    ensures SumValues(d[i := (k, v)]) == SumValues(d) - d[i].1 + v
  {
    var n := |d| - 1;
    var d' := d[i := (k, v)];
    if i == n {
      assert d'[..n] == d[..n];
    } else {
      assert d'[..n] == d[..n][i := (k, v)];
      SumValuesUpdate(d[..n], i, k, v);
    }
  }

  /** `d[k] = v` on an existing key changes the sum by `v - d[k]`. */
  lemma SumValuesOfSet(d: Dict<real>, k: string, v: real)
    requires HasKey(d, k)
    ensures SumValues(Set(d, k, v)) == SumValues(d) - Lookup(d, k).value + v
  {
    SumValuesUpdate(d, IndexOf(d, k), k, v);
  }

  /** The dict a loop over `source` fills when it stores `outcomes[i]` under
      the `i`-th key and stops at the first error: its state after `k` steps. */
  function Gather<S, T>(source: Dict<S>, outcomes: seq<Result<T>>, k: nat): Result<Dict<T>>
    requires |outcomes| == |source|
    requires k <= |source|
  {
    if k == 0 then Ok([])
    else
      match Gather(source, outcomes, k - 1)
      case Err(e) => Err(e)
      case Ok(gathered) =>
        match outcomes[k - 1]
        case Err(e) => Err(e)
        case Ok(v) => Ok(Set(gathered, source[k - 1].0, v))
  }

  /** One step of the loop: an earlier error is kept, a failing outcome stops
      the loop, a successful one is stored under its key. */
  lemma GatherStep<S, T>(source: Dict<S>, outcomes: seq<Result<T>>, k: nat)
    requires |outcomes| == |source|
    requires 0 < k <= |source|
    ensures Gather(source, outcomes, k - 1).Err? ==> Gather(source, outcomes, k) == Gather(source, outcomes, k - 1)
    ensures Gather(source, outcomes, k - 1).Ok? && outcomes[k - 1].Err? ==> Gather(source, outcomes, k) == Err(outcomes[k - 1].error)
    ensures Gather(source, outcomes, k - 1).Ok? && outcomes[k - 1].Ok? ==>
      Gather(source, outcomes, k) == Ok(Set(Gather(source, outcomes, k - 1).value, source[k - 1].0, outcomes[k - 1].value))
  {
  }

  /** The loop succeeds exactly when every outcome does; otherwise it stops
      with the error of the first outcome that fails. */
  lemma {:induction false} GatherOkIff<S, T>(source: Dict<S>, outcomes: seq<Result<T>>, k: nat)
    requires |outcomes| == |source|
    requires k <= |source|
    ensures Gather(source, outcomes, k).Ok? <==> forall i :: 0 <= i < k ==> outcomes[i].Ok?
    ensures Gather(source, outcomes, k).Err? ==>
      exists i :: 0 <= i < k && outcomes[i] == Err(Gather(source, outcomes, k).error)
                  && forall j :: 0 <= j < i ==> outcomes[j].Ok?
  {
    if k > 0 {
      GatherOkIff(source, outcomes, k - 1);
      GatherStep(source, outcomes, k);
    }
  }

  /** `gathered` holds the first `k` keys of `source`, in order, with their outcomes. */
  ghost predicate Gathered<S, T>(source: Dict<S>, outcomes: seq<Result<T>>, gathered: Dict<T>, k: nat)
    requires |outcomes| == |source|
    requires k <= |source|
  {
    && |gathered| == k
    && (forall i :: 0 <= i < k ==> gathered[i].0 == source[i].0)
    && (forall i :: 0 <= i < k ==> Ok(gathered[i].1) == outcomes[i])
  }

  /** With distinct keys, the first `k` steps store the first `k` keys, in
      order, each with its own outcome. */
  lemma {:induction false} GatherEntries<S, T>(source: Dict<S>, outcomes: seq<Result<T>>, k: nat)
    requires |outcomes| == |source|
    requires DistinctKeys(source)
    requires k <= |source|
    requires Gather(source, outcomes, k).Ok?
    ensures Gathered(source, outcomes, Gather(source, outcomes, k).value, k)
  {
    if k > 0 {
      GatherStep(source, outcomes, k);
      GatherEntries(source, outcomes, k - 1);
      GatherAppend(source, outcomes, Gather(source, outcomes, k - 1).value, k);
    }
  }

  /** Storing outcome `k - 1` under its fresh key extends the gathered prefix by one entry. */
  lemma GatherAppend<S, T>(source: Dict<S>, outcomes: seq<Result<T>>, before: Dict<T>, k: nat)
    requires |outcomes| == |source|
    requires DistinctKeys(source)
    requires 0 < k <= |source|
    requires Gathered(source, outcomes, before, k - 1)
    requires outcomes[k - 1].Ok?
    ensures Gathered(source, outcomes, Set(before, source[k - 1].0, outcomes[k - 1].value), k)
  {
    var key := source[k - 1].0;
    assert !HasKey(before, key);
    var after := Set(before, key, outcomes[k - 1].value);
    assert after == before + [(key, outcomes[k - 1].value)];
    forall i | 0 <= i < k
      ensures after[i].0 == source[i].0 && Ok(after[i].1) == outcomes[i]
    {
      if i < k - 1 {
        assert after[i] == before[i];
      }
    }
  }

  /** The keys of a completed loop over distinct keys are the source's keys. */
  lemma GatheredKeys<S, T>(source: Dict<S>, outcomes: seq<Result<T>>, gathered: Dict<T>)
    requires |outcomes| == |source|
    requires Gathered(source, outcomes, gathered, |source|)
    ensures Keys(gathered) == Keys(source)
  {
    assert forall i :: 0 <= i < |source| ==> Keys(gathered)[i] == Keys(source)[i];
  }

  /** Once an outcome fails, the loop's result stays that failure. */
  lemma {:induction false} GatherErrSticks<S, T>(source: Dict<S>, outcomes: seq<Result<T>>, k: nat, n: nat)
    requires |outcomes| == |source|
    requires k <= n <= |source|
    requires Gather(source, outcomes, k).Err?
    ensures Gather(source, outcomes, n) == Gather(source, outcomes, k)
    decreases n - k
  {
    if k < n {
      GatherErrSticks(source, outcomes, k + 1, n);
    }
  }
}
