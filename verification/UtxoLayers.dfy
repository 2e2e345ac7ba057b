/** Coins, cache entries and cache layers: the data of utxo/src and the pure
    transition functions of one cache over a fixed parent view. */
module UtxoLayers {
  import opened Wrappers

  type Id = nat

  datatype SourceId = TransactionId(tx: Id) | BlockRewardId(block: Id)

  datatype OutPoint = OutPoint(source: SourceId, index: nat)

  datatype OutputKind =
    | Transfer | LockThenTransfer | CreateStakePool | ProduceBlockFromStake | IssueNft | Htlc
    | CreateDelegationId | DelegateStaking | Burn | IssueFungibleToken | DataDeposit | AnyoneCanTake

  datatype TxOutput = TxOutput(kind: OutputKind, body: int)

  datatype UtxoSource = Blockchain(height: nat) | Mempool

  datatype Utxo = Utxo(output: TxOutput, source: UtxoSource)

  datatype Error =
    | OverwritingUtxo
    | FreshUtxoAlreadyExists
    | UtxoAlreadySpent(source: SourceId)
    | NoUtxoFound
    | MissingBlockRewardUndo(block: Id)
    | InvalidBlockRewardOutputType(block: Id)
    | TxInputAndUndoMismatch(tx: Id)

  /** The plain utxo set a cache has to behave like. */
  type Coins = map<OutPoint, Utxo>

  function Find(m: Coins, o: OutPoint): Option<Utxo> {
    if o in m then Some(m[o]) else None
  }

  /** Two coin sets that answer every query alike are equal. */
  lemma SameCoins(m: Coins, n: Coins)
    requires forall o :: Find(m, o) == Find(n, o)
    ensures m == n
  {
    forall o: OutPoint
      ensures (o in m <==> o in n) && (o in m ==> m[o] == n[o])
    {
      assert Find(m, o) == Find(n, o);
    }
    assert m.Keys == n.Keys;
  }

  /** A cached utxo (or its spentness) with its two flags. */
  datatype Entry = Entry(utxo: Option<Utxo>, isFresh: bool, isDirty: bool) {
    predicate Spent() {
      utxo.None?
    }

    /** The flag combinations the constructor's assertions admit. */
    predicate FlagsOk() {
      if utxo.Some? then isFresh ==> isDirty else isFresh != isDirty
    }
  }

  /** The constructor panics on other combinations, so callers owe them. */
  function NewEntry(utxo: Option<Utxo>, isFresh: bool, isDirty: bool): (e: Entry)
    requires if utxo.Some? then isFresh ==> isDirty else isFresh != isDirty
    ensures e.FlagsOk()
    ensures e.Spent() <==> utxo.None?
  {
    Entry(utxo, isFresh, isDirty)
  }

  type Entries = map<OutPoint, Entry>

  /** One cache: its own entries over the view of its parent. */
  datatype Layer = Layer(base: Coins, entries: Entries) {

    function Query(o: OutPoint): Option<Utxo> {
      if o in entries then entries[o].utxo else Find(base, o)
    }

    /** The coins the cache shows. */
    function View(): (v: Coins)
      ensures forall o :: Find(v, o) == Query(o)
    {
      map o | o in base.Keys + entries.Keys && Query(o).Some? :: Query(o).value
    }

    /** The flag discipline: FRESH means the parent has nothing there, and an
        entry that is not DIRTY agrees with the parent. */
    ghost predicate Inv() {
      forall o :: o in entries ==> EntryInv(o)
    }

    ghost predicate EntryInv(o: OutPoint)
      requires o in entries
    {
      var e := entries[o];
      && e.FlagsOk()
      && (e.isFresh ==> o !in base)
      && (!e.isDirty ==> e.utxo == Find(base, o))
    }

    /** What a caller of a non-overwriting add owes: the outpoint is not held
        unspent by the parent alone. */
    predicate AddSafe(o: OutPoint) {
      o in base ==> o in entries
    }

    /** FRESH marks every entry of a coin the parent does not have. */
    ghost predicate Exact() {
      forall o :: o in entries ==> (entries[o].isFresh <==> o !in base)
    }

    /** No entry is kept for a coin that neither the parent has nor the cache
        shows. */
    ghost predicate Traceless() {
      forall o :: o in entries && o !in base ==> entries[o].utxo.Some?
    }

    function With(o: OutPoint, e: Entry): Layer {
      this.(entries := entries[o := e])
    }

    function Without(o: OutPoint): Layer {
      this.(entries := entries - {o})
    }

    function Fetch(o: OutPoint): (Layer, Option<Entry>) {
      if o in entries then
        (this, Some(entries[o]))
      else if o in base then
        var e := NewEntry(Some(base[o]), false, false);
        (With(o, e), Some(e))
      else
        (this, None)
    }

    function Add(o: OutPoint, u: Utxo, overwrite: bool): Result<Layer, Error> {
      if o !in entries then
        Ok(With(o, NewEntry(Some(u), !overwrite, true)))
      else
        var e := entries[o];
        if overwrite then
          Ok(With(o, NewEntry(Some(u), e.isFresh, true)))
        else if !e.Spent() then
          Err(OverwritingUtxo)
        else
          Ok(With(o, NewEntry(Some(u), !e.isDirty || e.isFresh, true)))
    }

    function Spend(o: OutPoint): (Layer, Result<Utxo, Error>) {
      var (l, found) := Fetch(o);
      match found
      case None => (l, Err(NoUtxoFound))
      case Some(e) =>
        var l' := if e.isFresh then l.Without(o) else l.With(o, NewEntry(None, false, true));
        (l', if e.utxo.Some? then Ok(e.utxo.value) else Err(UtxoAlreadySpent(o.source)))
    }

    function Uncache(o: OutPoint): Result<Layer, Error> {
      if o in entries && !entries[o].isFresh && !entries[o].isDirty then
        Ok(Without(o))
      else
        Err(NoUtxoFound)
    }
  }

  // ---------- each operation against the plain map ----------

  lemma FetchRefines(l: Layer, o: OutPoint)
    requires l.Inv()
    ensures l.Fetch(o).0.Inv()
    ensures l.Fetch(o).0.base == l.base
    ensures l.Fetch(o).0.View() == l.View()
    ensures l.Query(o).Some? ==> l.Fetch(o).1.Some? && l.Fetch(o).1.value.utxo == l.Query(o)
    ensures l.Fetch(o).1.None? ==> o !in l.View()
  {
    var l' := l.Fetch(o).0;
    forall p | p in l'.entries ensures l'.EntryInv(p) {
      assert p in l.entries ==> l.EntryInv(p);
    }
    forall p ensures Find(l'.View(), p) == Find(l.View(), p) {
      assert l'.Query(p) == l.Query(p);
    }
    SameCoins(l'.View(), l.View());
    assert Find(l.View(), o) == l.Query(o);
  }

  /** Spending succeeds exactly on present coins, hands back that coin, and
      removes it; a refused spend shows the same coins as before. */
  lemma SpendRefines(l: Layer, o: OutPoint)
    requires l.Inv()
    ensures l.Spend(o).0.Inv()
    ensures l.Spend(o).0.base == l.base
    ensures l.Spend(o).1.Ok? <==> o in l.View()
    ensures l.Spend(o).1.Ok? ==> l.Spend(o).1.value == l.View()[o]
    ensures l.Spend(o).0.View() == l.View() - {o}
  {
    FetchRefines(l, o);
    var (l', r) := l.Spend(o);
    var f := l.Fetch(o).0;
    assert o in f.entries ==> f.EntryInv(o);
    forall p | p in l'.entries ensures l'.EntryInv(p) {
      assert p in f.entries ==> f.EntryInv(p);
    }
    assert Find(l.View(), o) == l.Query(o);
    forall p ensures Find(l'.View(), p) == Find(l.View() - {o}, p) {
      assert Find(l'.View(), p) == l'.Query(p);
      assert Find(f.View(), p) == f.Query(p);
    }
    SameCoins(l'.View(), l.View() - {o});
  }

  /** Under the caller's obligation a non-overwriting add succeeds exactly on
      absent outpoints; either way the coin set is updated like a map. */
  lemma AddRefines(l: Layer, o: OutPoint, u: Utxo, overwrite: bool)
    requires l.Inv()
    requires overwrite || l.AddSafe(o)
    ensures l.Add(o, u, overwrite).Ok? <==> overwrite || o !in l.View()
    ensures l.Add(o, u, overwrite).Err? ==> l.Add(o, u, overwrite).error == OverwritingUtxo
    ensures l.Add(o, u, overwrite).Ok? ==>
              var l' := l.Add(o, u, overwrite).value;
              l'.Inv() && l'.base == l.base && l'.View() == l.View()[o := u]
  {
    assert Find(l.View(), o) == l.Query(o);
    assert o in l.entries ==> l.EntryInv(o);
    if l.Add(o, u, overwrite).Ok? {
      var l' := l.Add(o, u, overwrite).value;
      forall p | p in l'.entries ensures l'.EntryInv(p) {
        assert p in l.entries ==> l.EntryInv(p);
      }
      forall p ensures Find(l'.View(), p) == Find(l.View()[o := u], p) {
        assert Find(l'.View(), p) == l'.Query(p);
        assert Find(l.View(), p) == l.Query(p);
      }
      SameCoins(l'.View(), l.View()[o := u]);
    }
  }

  lemma UncacheRefines(l: Layer, o: OutPoint)
    requires l.Inv()
    ensures l.Uncache(o).Ok? ==>
              var l' := l.Uncache(o).value;
              l'.Inv() && l'.base == l.base && l'.View() == l.View()
  {
    if l.Uncache(o).Ok? {
      var l' := l.Uncache(o).value;
      assert l.EntryInv(o);
      forall p | p in l'.entries ensures l'.EntryInv(p) {
        assert l.EntryInv(p);
      }
      forall p ensures Find(l'.View(), p) == Find(l.View(), p) {
        assert Find(l'.View(), p) == l'.Query(p);
        assert Find(l.View(), p) == l.Query(p);
      }
      SameCoins(l'.View(), l.View());
    }
  }

  /** Evicting undoes a fetch to the letter; what a call has changed is never
      evicted, nor what is not cached. */
  lemma UncacheAnswers(l: Layer, o: OutPoint, u: Utxo, overwrite: bool)
    ensures o !in l.entries && o in l.base ==> l.Fetch(o).0.Uncache(o) == Ok(l)
    ensures o !in l.entries ==> l.Uncache(o).Err?
    ensures l.Add(o, u, overwrite).Ok? ==> l.Add(o, u, overwrite).value.Uncache(o).Err?
    ensures l.Spend(o).1.Ok? ==> l.Spend(o).0.Uncache(o).Err?
  {
    if o !in l.entries && o in l.base {
      assert l.Fetch(o).0.Uncache(o).value.entries == l.entries;
    }
  }

  /** The obligation is exact: a non-overwriting add of an outpoint that only
      the parent holds unspent goes through and breaks the flag discipline;
      every other add keeps it. */
  lemma AddKeepsInvariantIff(l: Layer, o: OutPoint, u: Utxo)
    requires l.Inv()
    ensures (l.Add(o, u, false).Ok? ==> l.Add(o, u, false).value.Inv()) <==> l.AddSafe(o)
  {
    if l.AddSafe(o) {
      AddRefines(l, o, u, false);
    } else {
      var l' := l.Add(o, u, false).value;
      assert o in l'.entries && l'.entries[o].isFresh && o in l'.base;
      assert !l'.EntryInv(o);
    }
  }

  /** So for what a caller sees: a non-overwriting add is accepted exactly on
      absent coins if and only if the obligation is met. */
  lemma AddAnswersIff(l: Layer, o: OutPoint, u: Utxo)
    requires l.Inv()
    ensures (l.Add(o, u, false).Ok? <==> o !in l.View()) <==> l.AddSafe(o)
  {
    assert Find(l.View(), o) == l.Query(o);
    if l.AddSafe(o) { AddRefines(l, o, u, false); }
  }

  /** Adding over a coin that only the parent holds: spending what was added
      then brings the parent's coin back. */
  lemma UnsafeAddExample(o: OutPoint, u: Utxo, v: Utxo)
    ensures var l := Layer(map[o := u], map[]);
            && l.Inv()
            && l.Add(o, v, false).Ok?
            && var (l', r) := l.Add(o, v, false).value.Spend(o);
               r == Ok(v) && l'.View() == map[o := u]
  {
    var l := Layer(map[o := u], map[]);
    var l' := l.Add(o, v, false).value.Spend(o).0;
    assert l' == l;
    SameCoins(l.View(), map[o := u]);
  }

  // ---------- exact flags ----------

  /** An add keeps the flags exact if and only if a non-overwriting one meets its
      obligation and an overwriting one has something to overwrite. */
  lemma AddKeepsExactIff(l: Layer, o: OutPoint, u: Utxo, overwrite: bool)
    requires l.Inv() && l.Exact()
    ensures (l.Add(o, u, overwrite).Ok? ==> l.Add(o, u, overwrite).value.Exact()) <==>
              if overwrite then o in l.base || o in l.entries else l.AddSafe(o)
  {
    if l.Add(o, u, overwrite).Ok? {
      var l' := l.Add(o, u, overwrite).value;
      assert o in l'.entries;
      assert o in l.entries ==> l.EntryInv(o);
    }
  }

  lemma CallsKeepExact(l: Layer, o: OutPoint)
    requires l.Inv() && l.Exact()
    ensures l.Fetch(o).0.Exact() && l.Spend(o).0.Exact()
    ensures l.Uncache(o).Ok? ==> l.Uncache(o).value.Exact()
  {
  }

  /** With exact flags, a coin that comes and goes inside the cache leaves no
      entry there. */
  lemma CallsLeaveNoTrace(l: Layer, o: OutPoint, u: Utxo, overwrite: bool)
    requires l.Inv() && l.Exact() && l.Traceless()
    ensures l.Fetch(o).0.Traceless() && l.Spend(o).0.Traceless()
    ensures l.Add(o, u, overwrite).Ok? ==> l.Add(o, u, overwrite).value.Traceless()
    ensures l.Uncache(o).Ok? ==> l.Uncache(o).value.Traceless()
  {
  }

  /** And the refusal of a spend tells a coin that was spent here from one that
      never was. */
  lemma SpendTellsWhy(l: Layer, o: OutPoint)
    requires l.Inv() && l.Exact() && l.Traceless() && o !in l.View()
    ensures l.Spend(o).1 == Err(if o in l.base then UtxoAlreadySpent(o.source) else NoUtxoFound)
  {
    assert Find(l.View(), o) == l.Query(o);
    assert o in l.entries ==> l.EntryInv(o);
  }

  // ---------- the flags alone ----------

  /** Every entry has a combination of flags its constructor admits. */
  predicate GoodFlags(es: Entries) {
    forall o :: o in es ==> es[o].FlagsOk()
  }

  /** No call makes an entry the constructor would reject, whatever the parent
      holds and whether or not adds are safe. */
  lemma CallsKeepFlags(l: Layer, o: OutPoint, u: Utxo, overwrite: bool)
    requires GoodFlags(l.entries)
    ensures GoodFlags(l.Fetch(o).0.entries)
    ensures GoodFlags(l.Spend(o).0.entries)
    ensures l.Add(o, u, overwrite).Ok? ==> GoodFlags(l.Add(o, u, overwrite).value.entries)
    ensures l.Uncache(o).Ok? ==> GoodFlags(l.Uncache(o).value.entries)
  {
  }

  // ---------- flushing one cache into the one below ----------

  /** What batch_write stores for a key: the child's DIRTY entry moved into the
      (possibly absent) entry of the cache below. */
  function MergeEntry(below: Option<Entry>, child: Entry): Result<Option<Entry>, Error> {
    if !child.isDirty then
      Ok(below)
    else
      match below
      case None =>
        if child.isFresh && child.Spent() then Ok(None)
        else Ok(Some(NewEntry(child.utxo, child.isFresh, true)))
      case Some(b) =>
        if child.isFresh && !b.Spent() then Err(FreshUtxoAlreadyExists)
        else if b.isFresh && child.Spent() then Ok(None)
        else Ok(Some(NewEntry(child.utxo, b.isFresh, true)))
  }

  function EntryAt(es: Entries, o: OutPoint): Option<Entry> {
    if o in es then Some(es[o]) else None
  }

  /** The entry left at `o` when `child` is flushed into `below`. */
  function MergeAt(below: Entries, child: Entries, o: OutPoint): Result<Option<Entry>, Error> {
    if o in child then MergeEntry(EntryAt(below, o), child[o]) else Ok(EntryAt(below, o))
  }

  predicate Mergeable(below: Entries, child: Entries) {
    forall o :: o in child ==> MergeAt(below, child, o).Ok?
  }

  function Merge(below: Entries, child: Entries): (m: Entries)
    requires Mergeable(below, child)
    ensures forall o :: MergeAt(below, child, o).Ok? && EntryAt(m, o) == MergeAt(below, child, o).value
  {
    map o | o in below.Keys + child.Keys && MergeAt(below, child, o).value.Some?
      :: MergeAt(below, child, o).value.value
  }

  lemma MergeKeepsFlags(below: Entries, child: Entries)
    requires GoodFlags(below) && GoodFlags(child) && Mergeable(below, child)
    ensures GoodFlags(Merge(below, child))
  {
    var m := Merge(below, child);
    forall o | o in m ensures m[o].FlagsOk() {
      assert EntryAt(m, o) == MergeAt(below, child, o).value;
    }
  }

  /** Flushing a cache into the one it was built on never hits the fresh-entry
      error, keeps the discipline against the grandparent, and leaves the
      cache below showing exactly what the flushed cache showed. */
  lemma FlushRefines(below: Layer, child: Layer)
    requires below.Inv() && child.Inv()
    requires child.base == below.View()
    ensures Mergeable(below.entries, child.entries)
    ensures Layer(below.base, Merge(below.entries, child.entries)).Inv()
    ensures Layer(below.base, Merge(below.entries, child.entries)).View() == child.View()
  {
    forall o | o in child.entries ensures MergeAt(below.entries, child.entries, o).Ok? {
      assert child.EntryInv(o);
      assert Find(below.View(), o) == below.Query(o);
    }
    var merged := Layer(below.base, Merge(below.entries, child.entries));
    forall o ensures o in merged.entries ==> merged.EntryInv(o)
      ensures merged.Query(o) == child.Query(o)
    {
      FlushAt(below, child, o);
    }
    forall o ensures Find(merged.View(), o) == Find(child.View(), o) {
      assert merged.Query(o) == child.Query(o);
    }
    SameCoins(merged.View(), child.View());
  }

  lemma FlushAt(below: Layer, child: Layer, o: OutPoint)
    requires below.Inv() && child.Inv()
    requires child.base == below.View()
    requires Mergeable(below.entries, child.entries)
    ensures var merged := Layer(below.base, Merge(below.entries, child.entries));
            && (o in merged.entries ==> merged.EntryInv(o))
            && merged.Query(o) == child.Query(o)
  {
    var merged := Layer(below.base, Merge(below.entries, child.entries));
    assert o in below.entries ==> below.EntryInv(o);
    assert o in child.entries ==> child.EntryInv(o);
    assert Find(below.View(), o) == below.Query(o);
    assert EntryAt(merged.entries, o) == MergeAt(below.entries, child.entries, o).value;
  }

  /** Into a cache that it was not built on, a flush is refused exactly when a
      coin made above is held unspent below. */
  lemma MergeRefusedIff(below: Entries, child: Entries)
    ensures !Mergeable(below, child) <==>
              exists o :: o in child && o in below && child[o].isDirty && child[o].isFresh && below[o].utxo.Some?
  {
    if o :| o in child && o in below && child[o].isDirty && child[o].isFresh && below[o].utxo.Some? {
      assert MergeAt(below, child, o).Err?;
    }
  }

  /** And it keeps exact flags exact, so that a coin made in one of the two caches
      and spent in the other leaves no entry either. */
  lemma FlushKeepsExact(below: Layer, child: Layer)
    requires below.Inv() && child.Inv()
    requires child.base == below.View()
    requires below.Exact() && below.Traceless() && child.Exact() && child.Traceless()
    requires Mergeable(below.entries, child.entries)
    ensures Layer(below.base, Merge(below.entries, child.entries)).Exact()
    ensures Layer(below.base, Merge(below.entries, child.entries)).Traceless()
  {
    var m := Merge(below.entries, child.entries);
    forall o | o in m
      ensures m[o].isFresh <==> o !in below.base
      ensures o !in below.base ==> m[o].utxo.Some?
    {
      assert EntryAt(m, o) == MergeAt(below.entries, child.entries, o).value;
      assert Find(below.View(), o) == below.Query(o);
      assert o in below.entries ==> below.EntryInv(o);
      assert o in child.entries ==> child.EntryInv(o);
    }
  }

  /** The database keeps no flags: it takes the DIRTY entries as they are. */
  function WriteDb(db: Coins, child: Entries): (m: Coins)
    ensures forall o :: Find(m, o) == if o in child && child[o].isDirty then child[o].utxo else Find(db, o)
  {
    map o | o in db.Keys + child.Keys && (if o in child && child[o].isDirty then child[o].utxo.Some? else o in db)
      :: if o in child && child[o].isDirty then child[o].utxo.value else db[o]
  }

  lemma WriteDbRefines(child: Layer)
    requires child.Inv()
    ensures WriteDb(child.base, child.entries) == child.View()
  {
    var db := WriteDb(child.base, child.entries);
    forall o ensures Find(db, o) == Find(child.View(), o) {
      assert o in child.entries ==> child.EntryInv(o);
      assert Find(child.View(), o) == child.Query(o);
    }
    SameCoins(db, child.View());
  }
}
