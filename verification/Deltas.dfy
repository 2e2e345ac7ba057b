/** Amounts, amount deltas and data deltas (accounting/src/delta). */
module Deltas {
  import opened Wrappers

  const U128_MAX: int := 0xffff_ffff_ffff_ffff_ffff_ffff_ffff_ffff
  const I128_MAX: int := 0x7fff_ffff_ffff_ffff_ffff_ffff_ffff_ffff

  type Amount = x: int | 0 <= x <= U128_MAX

  predicate FitsI128(x: int) {
    -I128_MAX - 1 <= x <= I128_MAX
  }

  datatype DeltaError = ToSignedFailed | DeltaAdditionFailed | SumToUnsignedFailed | DeltaDataMismatch

  // ---------- amounts ----------

  /** Signed changes by key; a change of zero is not kept. */
  type AmountDeltas<!K> = map<K, int>

  function DeltaOf<K>(m: AmountDeltas<K>, k: K): int {
    if k in m then m[k] else 0
  }

  ghost predicate Normal<K(!new)>(m: AmountDeltas<K>) {
    forall k :: k in m ==> m[k] != 0 && FitsI128(m[k])
  }

  function MergeAmount<K>(m: AmountDeltas<K>, k: K, x: int): Result<AmountDeltas<K>, DeltaError> {
    if k in m && !FitsI128(m[k] + x) then Err(DeltaAdditionFailed)
    else
      var sum := DeltaOf(m, k) + x;
      Ok(if sum == 0 then m - {k} else m[k := sum])
  }

  function AddUnsigned<K>(m: AmountDeltas<K>, k: K, a: Amount): Result<AmountDeltas<K>, DeltaError> {
    if a > I128_MAX then Err(ToSignedFailed) else MergeAmount(m, k, a)
  }

  function SubUnsigned<K>(m: AmountDeltas<K>, k: K, a: Amount): Result<AmountDeltas<K>, DeltaError> {
    var x: int := a;
    if x > I128_MAX then Err(ToSignedFailed) else MergeAmount(m, k, -x)
  }

  /** The amount a view shows: the parent's, with the local change applied in
      signed arithmetic. */
  function Combine<K>(parent: Amount, m: AmountDeltas<K>, k: K): Result<Amount, DeltaError> {
    if k !in m then Ok(parent)
    else if parent > I128_MAX then Err(ToSignedFailed)
    else if !FitsI128(parent + m[k]) then Err(DeltaAdditionFailed)
    else if parent + m[k] < 0 then Err(SumToUnsignedFailed)
    else Ok(parent + m[k])
  }

  /** A merge of a signed amount is undone, to the letter, by its negation. */
  lemma MergeUndone<K(!new)>(m: AmountDeltas<K>, k: K, x: int)
    requires Normal(m) && -I128_MAX <= x <= I128_MAX && MergeAmount(m, k, x).Ok?
    ensures Normal(MergeAmount(m, k, x).value)
    ensures MergeAmount(MergeAmount(m, k, x).value, k, -x) == Ok(m)
    ensures DeltaOf(MergeAmount(m, k, x).value, k) == DeltaOf(m, k) + x
    ensures forall j :: j != k ==> DeltaOf(MergeAmount(m, k, x).value, j) == DeltaOf(m, j)
  {
    var m' := MergeAmount(m, k, x).value;
    assert k in m ==> m[k] != 0 && FitsI128(m[k]);
    var back := MergeAmount(m', k, -x).value;
    assert back == m;
  }

  // ---------- data ----------

  /** A change of a datum, from what was there to what is there now. */
  datatype DataDelta<+T> = DataDelta(before: Option<T>, after: Option<T>) {
    function Invert(): DataDelta<T> {
      DataDelta(after, before)
    }
  }

  type DataDeltas<!K, +T> = map<K, DataDelta<T>>

  function MergeData<K, T(==)>(m: DataDeltas<K, T>, k: K, d: DataDelta<T>): Result<DataDeltas<K, T>, DeltaError> {
    if k !in m then Ok(m[k := d])
    else if m[k].after != d.before then Err(DeltaDataMismatch)
    else Ok(m[k := DataDelta(m[k].before, d.after)])
  }

  function DataView<K, T>(parent: map<K, T>, m: DataDeltas<K, T>, k: K): Option<T> {
    if k in m then m[k].after else if k in parent then Some(parent[k]) else None
  }

  /** A merge that starts from what the view shows always succeeds, and shows
      the new datum at its key and nothing new elsewhere. */
  lemma MergeDataShows<K(!new), T>(parent: map<K, T>, m: DataDeltas<K, T>, k: K, d: DataDelta<T>)
    requires d.before == DataView(parent, m, k)
    ensures MergeData(m, k, d).Ok?
    ensures DataView(parent, MergeData(m, k, d).value, k) == d.after
    ensures forall j :: j != k ==> DataView(parent, MergeData(m, k, d).value, j) == DataView(parent, m, j)
  {
  }

  // ---------- whole collections ----------

  /** Every change of `d` starts where `m` left its datum. */
  predicate DataMergeable<K, T(==)>(m: DataDeltas<K, T>, d: DataDeltas<K, T>) {
    forall k :: k in d && k in m ==> m[k].after == d[k].before
  }

  function DataMerged<K, T(==)>(m: DataDeltas<K, T>, d: DataDeltas<K, T>): DataDeltas<K, T>
    requires DataMergeable(m, d)
  {
    map k | k in m.Keys + d.Keys ::
      if k !in d then m[k] else if k !in m then d[k] else DataDelta(m[k].before, d[k].after)
  }

  /** No sum of two changes leaves the signed range. */
  predicate AmountsMergeable<K>(m: AmountDeltas<K>, d: AmountDeltas<K>) {
    forall k :: k in d && k in m ==> FitsI128(m[k] + d[k])
  }

  function AmountsMerged<K>(m: AmountDeltas<K>, d: AmountDeltas<K>): AmountDeltas<K> {
    map k | k in m.Keys + d.Keys && DeltaOf(m, k) + DeltaOf(d, k) != 0 :: DeltaOf(m, k) + DeltaOf(d, k)
  }

  /** Merges a collection of changes, in any order of its keys; the first that
      does not fit stops it. */
  method MergeDeltaData<K(!new), T(==)>(m: DataDeltas<K, T>, d: DataDeltas<K, T>)
    returns (r: Result<DataDeltas<K, T>, DeltaError>)
    ensures r.Ok? <==> DataMergeable(m, d)
    ensures r.Ok? ==> r.value == DataMerged(m, d)
    ensures r.Err? ==> r.error == DeltaDataMismatch
  {
    var cur, todo := m, d.Keys;
    while todo != {}
      invariant todo <= d.Keys
      invariant cur.Keys == m.Keys + (d.Keys - todo)
      invariant forall k :: k in m && (k !in d || k in todo) ==> cur[k] == m[k]
      invariant forall k :: k in d && k !in todo && k in m ==>
                  m[k].after == d[k].before && cur[k] == DataDelta(m[k].before, d[k].after)
      invariant forall k :: k in d && k !in todo && k !in m ==> cur[k] == d[k]
      decreases todo
    {
      var k :| k in todo;
      var step := MergeData(cur, k, d[k]);
      if step.Err? {
        assert k in m && m[k].after != d[k].before;
        return Err(step.error);
      }
      cur := step.value;
      todo := todo - {k};
    }
    assert cur == DataMerged(m, d);
    r := Ok(cur);
  }

  method MergeDeltaAmounts<K(!new)>(m: AmountDeltas<K>, d: AmountDeltas<K>)
    returns (r: Result<AmountDeltas<K>, DeltaError>)
    requires Normal(m) && Normal(d)
    ensures r.Ok? <==> AmountsMergeable(m, d)
    ensures r.Ok? ==> r.value == AmountsMerged(m, d)
    ensures r.Err? ==> r.error == DeltaAdditionFailed
  {
    var cur, todo := m, d.Keys;
    while todo != {}
      invariant todo <= d.Keys
      invariant forall k :: k in cur <==>
                  if k in d && k !in todo then DeltaOf(m, k) + DeltaOf(d, k) != 0 else k in m
      invariant forall k :: k in cur ==>
                  cur[k] == if k in d && k !in todo then DeltaOf(m, k) + DeltaOf(d, k) else DeltaOf(m, k)
      invariant forall k :: k in d && k !in todo && k in m ==> FitsI128(m[k] + d[k])
      decreases todo
    {
      var k :| k in todo;
      var step := MergeAmount(cur, k, d[k]);
      if step.Err? {
        assert k in m && !FitsI128(m[k] + d[k]);
        return Err(step.error);
      }
      cur := step.value;
      todo := todo - {k};
    }
    var merged := AmountsMerged(m, d);
    assert forall k :: k in cur <==> k in merged;
    assert cur == merged;
    r := Ok(cur);
  }

  function Stored<K, T>(parent: map<K, T>, k: K): Option<T> {
    if k in parent then Some(parent[k]) else None
  }

  /** Every change starts from what the parent holds. */
  ghost predicate Rooted<K(!new), T>(parent: map<K, T>, m: DataDeltas<K, T>) {
    forall k :: k in m ==> m[k].before == Stored(parent, k)
  }

  lemma MergeDataKeepsRooted<K(!new), T>(parent: map<K, T>, m: DataDeltas<K, T>, k: K, d: DataDelta<T>)
    requires Rooted(parent, m) && d.before == DataView(parent, m, k)
    ensures MergeData(m, k, d).Ok? && Rooted(parent, MergeData(m, k, d).value)
  {
  }

  /** Changes rooted in what a cache shows always fit on top of its own, and
      then the cache shows what they show. */
  lemma DataFlushed<K(!new), T>(
    parent: map<K, T>, m: DataDeltas<K, T>, upper: map<K, T>, d: DataDeltas<K, T>)
    requires forall k :: Stored(upper, k) == DataView(parent, m, k)
    requires Rooted(upper, d)
    ensures DataMergeable(m, d)
    ensures forall k :: DataView(parent, DataMerged(m, d), k) == DataView(upper, d, k)
    ensures Rooted(parent, m) ==> Rooted(parent, DataMerged(m, d))
  {
    forall k | k in d && k in m ensures m[k].after == d[k].before {
      assert Stored(upper, k) == DataView(parent, m, k);
    }
    forall k ensures DataView(parent, DataMerged(m, d), k) == DataView(upper, d, k) {
      assert Stored(upper, k) == DataView(parent, m, k);
    }
    if Rooted(parent, m) {
      forall k | k in DataMerged(m, d) ensures DataMerged(m, d)[k].before == Stored(parent, k) {
        assert Stored(upper, k) == DataView(parent, m, k);
      }
    }
  }

  /** A balance reads the same through two layers of changes and through their
      sum, failures to read it included. */
  lemma AmountFlushed<K(!new)>(parent: Amount, m: AmountDeltas<K>, upper: Amount, d: AmountDeltas<K>, k: K)
    requires Normal(m) && Normal(d) && AmountsMergeable(m, d) && Combine(parent, m, k) == Ok(upper)
    ensures Combine(parent, AmountsMerged(m, d), k) == Combine(upper, d, k)
  {
    assert k in m ==> m[k] != 0;
    assert k in d ==> d[k] != 0;
  }

  lemma MergedIsNormal<K(!new)>(m: AmountDeltas<K>, d: AmountDeltas<K>)
    requires Normal(m) && Normal(d) && AmountsMergeable(m, d)
    ensures Normal(AmountsMerged(m, d))
  {
    var merged := AmountsMerged(m, d);
    forall k | k in merged ensures merged[k] != 0 && FitsI128(merged[k]) {
      assert k in m ==> FitsI128(m[k]);
      assert k in d ==> FitsI128(d[k]);
    }
  }

  /** Where the upper balance can be read, the two changes do not overflow. */
  lemma ReadableMerges<K(!new)>(parent: Amount, m: AmountDeltas<K>, upper: Amount, d: AmountDeltas<K>, k: K)
    requires k in m && k in d && Combine(parent, m, k) == Ok(upper) && Combine(upper, d, k).Ok?
    ensures FitsI128(m[k] + d[k])
  {
  }
}
