/** The tokens cache, updated in place (tokens-accounting/src/cache.rs). */
module TokensCache {
  import opened Wrappers
  import opened Deltas
  import Runs
  import opened Tokens

  class TokensAccountingCache {
    const parent: Parent
    var tokenData: DataDeltas<Id, TokenData>
    var circulatingSupply: AmountDeltas<Id>

    constructor (parent: Parent)
      ensures AsState() == State(parent, map[], map[])
      ensures Normal(circulatingSupply)
    {
      this.parent := parent;
      tokenData, circulatingSupply := map[], map[];
    }

    function AsState(): State
      reads this
    {
      State(parent, tokenData, circulatingSupply)
    }

    function GetTokenData(id: Id): (r: Option<TokenData>)
      reads this
      ensures r == TokenOf(AsState(), id)
    {
      if id !in tokenData then (if id in parent.tokens then Some(parent.tokens[id]) else None)
      else tokenData[id].after
    }

    function GetCirculatingSupply(id: Id): (r: Outcome<Amount>)
      reads this
      ensures r == SupplyOf(AsState(), id)
      ensures r.Ok? ==> r.value == Supply(AsState(), id)
    {
      AsTokenError(Combine(if id in parent.supply then parent.supply[id] else 0, circulatingSupply, id))
    }

    function FindToken(id: Id): Outcome<TokenData>
      reads this
    {
      if GetTokenData(id).None? then Err(TokenDataNotFound(id)) else Ok(GetTokenData(id).value)
    }

    function FindForUndo(id: Id): Outcome<TokenData>
      reads this
    {
      if GetTokenData(id).None? then Err(TokenDataNotFoundOnReversal(id)) else Ok(GetTokenData(id).value)
    }

    method AddSupply(id: Id, amount: Amount) returns (r: Outcome<()>)
      modifies `circulatingSupply
      ensures r == Unit(AsTokenError(AddUnsigned(old(circulatingSupply), id, amount)))
      ensures r.Ok? ==> circulatingSupply == AddUnsigned(old(circulatingSupply), id, amount).value
    {
      var m :- AsTokenError(AddUnsigned(circulatingSupply, id, amount));
      circulatingSupply := m;
      return Ok(());
    }

    method SubSupply(id: Id, amount: Amount) returns (r: Outcome<()>)
      modifies `circulatingSupply
      ensures r == Unit(AsTokenError(SubUnsigned(old(circulatingSupply), id, amount)))
      ensures r.Ok? ==> circulatingSupply == SubUnsigned(old(circulatingSupply), id, amount).value
    {
      var m :- AsTokenError(SubUnsigned(circulatingSupply, id, amount));
      circulatingSupply := m;
      return Ok(());
    }

    /** Merges a change of a token's data; the result undoes it. */
    method MergeToken(id: Id, d: DataDelta<TokenData>) returns (r: Outcome<DataDelta<TokenData>>)
      modifies `tokenData
      ensures r.Ok? <==> MergeData(old(tokenData), id, d).Ok?
      ensures r.Ok? ==> r.value == d.Invert() && tokenData == MergeData(old(tokenData), id, d).value
      ensures r.Err? ==> r.error == AccountingError(MergeData(old(tokenData), id, d).error)
    {
      var m :- AsTokenError(MergeData(tokenData, id, d));
      tokenData := m;
      return Ok(d.Invert());
    }

    method IssueToken(id: Id, data: TokenData) returns (r: Outcome<Undo>)
      modifies this
      ensures Follows(old(AsState()), Issue(id, data), r, AsState())
    {
      hide MergeData, DataView, Combine;
      if GetTokenData(id).Some? { return Err(TokenAlreadyExists(id)); }
      var supply :- GetCirculatingSupply(id);
      if supply > 0 { return Err(TokenAlreadyExists(id)); }
      var undoData :- MergeToken(id, DataDelta(None, Some(data)));
      return Ok(IssueUndo(id, undoData));
    }

    method MintTokens(id: Id, amount: Amount) returns (r: Outcome<Undo>)
      modifies this
      ensures Follows(old(AsState()), Mint(id, amount), r, AsState())
    {
      hide AddUnsigned, DataView, Combine;
      var d :- FindToken(id);
      if d.frozen.IsFrozen? { return Err(CannotMintFrozenToken(id)); }
      match d.totalSupply {
        case Fixed(limit) =>
          var supply :- GetCirculatingSupply(id);
          if supply + amount > U128_MAX { return Err(AmountOverflow); }
          if supply + amount > limit { return Err(MintExceedsSupplyLimit(amount, limit, id)); }
        case Lockable =>
          if d.locked { return Err(CannotMintFromLockedSupply(id)); }
        case Unlimited =>
      }
      var _ :- AddSupply(id, amount);
      return Ok(MintUndo(id, amount));
    }

    method UnmintTokens(id: Id, amount: Amount) returns (r: Outcome<Undo>)
      modifies this
      ensures Follows(old(AsState()), Unmint(id, amount), r, AsState())
    {
      hide SubUnsigned, DataView, Combine;
      var d :- FindToken(id);
      if d.locked { return Err(CannotUnmintFromLockedSupply(id)); }
      if d.frozen.IsFrozen? { return Err(CannotUnmintFrozenToken(id)); }
      var supply :- GetCirculatingSupply(id);
      if supply < amount { return Err(NotEnoughCirculatingSupplyToUnmint(supply, amount, id)); }
      var _ :- SubSupply(id, amount);
      return Ok(UnmintUndo(id, amount));
    }

    method LockCirculatingSupply(id: Id) returns (r: Outcome<Undo>)
      modifies this
      ensures Follows(old(AsState()), Lock(id), r, AsState())
    {
      hide MergeData, DataView;
      var d :- FindToken(id);
      if d.locked { return Err(SupplyIsAlreadyLocked(id)); }
      if d.frozen.IsFrozen? { return Err(CannotLockFrozenToken(id)); }
      var d' := d.TryLock();
      if d'.None? { return Err(CannotLockNotLockableSupply(id)); }
      var undoData :- MergeToken(id, DataDelta(Some(d), d'));
      return Ok(LockUndo(id, undoData));
    }

    method FreezeToken(id: Id, unfreezable: bool) returns (r: Outcome<Undo>)
      modifies this
      ensures Follows(old(AsState()), Freeze(id, unfreezable), r, AsState())
    {
      hide MergeData, DataView;
      var d :- FindToken(id);
      if d.frozen.IsFrozen? { return Err(TokenIsAlreadyFrozen(id)); }
      var d' := d.TryFreeze(unfreezable);
      if d'.None? { return Err(CannotFreezeNotFreezableToken(id)); }
      var undoData :- MergeToken(id, DataDelta(Some(d), d'));
      return Ok(FreezeUndo(id, undoData));
    }

    method UnfreezeToken(id: Id) returns (r: Outcome<Undo>)
      modifies this
      ensures Follows(old(AsState()), Unfreeze(id), r, AsState())
    {
      hide MergeData, DataView;
      var d :- FindToken(id);
      if !d.frozen.IsFrozen? { return Err(CannotUnfreezeTokenThatIsNotFrozen(id)); }
      var d' := d.TryUnfreeze();
      if d'.None? { return Err(CannotUnfreezeNotUnfreezableToken(id)); }
      var undoData :- MergeToken(id, DataDelta(Some(d), d'));
      return Ok(UnfreezeUndo(id, undoData));
    }

    method ChangeAuthority(id: Id, newAuthority: Destination) returns (r: Outcome<Undo>)
      modifies this
      ensures Follows(old(AsState()), SetAuthority(id, newAuthority), r, AsState())
    {
      hide MergeData, DataView;
      var d :- FindToken(id);
      if d.frozen.IsFrozen? { return Err(CannotChangeAuthorityForFrozenToken(id)); }
      var undoData :- MergeToken(id, DataDelta(Some(d), Some(d.ChangeAuthority(newAuthority))));
      return Ok(AuthorityUndo(id, undoData));
    }

    method ChangeMetadataUri(id: Id, newUri: Text) returns (r: Outcome<Undo>)
      modifies this
      ensures Follows(old(AsState()), SetUri(id, newUri), r, AsState())
    {
      hide MergeData, DataView;
      var d :- FindToken(id);
      if d.frozen.IsFrozen? { return Err(CannotChangeMetadataUriForFrozenToken(id)); }
      var undoData :- MergeToken(id, DataDelta(Some(d), Some(d.ChangeMetadataUri(newUri))));
      return Ok(UriUndo(id, undoData));
    }

    method Undo(u: Undo) returns (r: Outcome<()>)
      modifies this
      ensures r == Unit(UndoOne(old(AsState()), u))
      ensures r.Ok? ==> AsState() == UndoOne(old(AsState()), u).value
    {
      hide AddUnsigned, SubUnsigned, MergeData, DataView;
      var d :- FindForUndo(u.id);
      match u {
        case MintUndo(id, amount) =>
          if d.locked { return Err(CannotUndoMintForLockedSupplyOnReversal(id)); }
          r := SubSupply(id, amount);
          return;
        case UnmintUndo(id, amount) =>
          if d.locked { return Err(CannotUndoUnmintForLockedSupplyOnReversal(id)); }
          r := AddSupply(id, amount);
          return;
        case IssueUndo(_, _) =>
        case LockUndo(id, _) =>
          if !d.locked { return Err(CannotUnlockNotLockedSupplyOnReversal(id)); }
        case FreezeUndo(id, _) =>
          if !d.frozen.IsFrozen? { return Err(CannotUndoFreezeTokenThatIsNotFrozen(id)); }
        case UnfreezeUndo(id, _) =>
          if d.frozen.IsFrozen? { return Err(CannotUndoUnfreezeTokenThatIsFrozen(id)); }
        case AuthorityUndo(id, _) =>
          if d.frozen.IsFrozen? { return Err(CannotUndoChangeAuthorityForFrozenToken(id)); }
        case UriUndo(id, _) =>
          if d.frozen.IsFrozen? { return Err(CannotUndoChangeMetadataUriForFrozenToken(id)); }
      }
      var _ :- MergeToken(u.id, u.delta);
      return Ok(());
    }

    method Perform(op: Op) returns (r: Outcome<Undo>)
      modifies this
      ensures Follows(old(AsState()), op, r, AsState())
    {
      hide Follows;
      match op
      case Issue(id, data) => r := IssueToken(id, data);
      case Mint(id, amount) => r := MintTokens(id, amount);
      case Unmint(id, amount) => r := UnmintTokens(id, amount);
      case Lock(id) => r := LockCirculatingSupply(id);
      case Freeze(id, unfreezable) => r := FreezeToken(id, unfreezable);
      case Unfreeze(id) => r := UnfreezeToken(id);
      case SetAuthority(id, authority) => r := ChangeAuthority(id, authority);
      case SetUri(id, uri) => r := ChangeMetadataUri(id, uri);
    }

    /** Performs operations in turn and keeps their undos in order. */
    method PerformAll(ops: seq<Op>) returns (r: Outcome<seq<Undo>>)
      modifies this
      ensures r.Ok? <==> ApplyAll(old(AsState()), ops).Ok?
      ensures r.Ok? ==> (AsState(), r.value) == ApplyAll(old(AsState()), ops).value
      ensures r.Err? ==> r.error == ApplyAll(old(AsState()), ops).error
    {
      hide Apply;
      ghost var start := ApplyAll(AsState(), ops);
      var undos: seq<Undo> := [];
      if start.Ok? { assert [] + start.value.1 == start.value.1; }
      for i := 0 to |ops|
        invariant start == Runs.Prepend(undos, ApplyAll(AsState(), ops[i..]))
      {
        Runs.PrependStep(Apply, AsState(), undos, ops[i..]);
        assert ops[i..][0] == ops[i] && ops[i..][1..] == ops[i + 1..];
        var u :- Perform(ops[i]);
        undos := undos + [u];
      }
      assert undos + [] == undos;
      return Ok(undos);
    }

    /** Undoes, last first, what a run from `before` did. No guard rejects, and
        every getter then answers as before the run, exactly when the run's
        starting point allows it. */
    method UndoEverything(undos: seq<Undo>, ghost before: State, ghost ops: seq<Op>) returns (r: Outcome<()>)
      requires Normal(before.supply)
      requires ApplyAll(before, ops).Ok? && undos == ApplyAll(before, ops).value.1
      requires SameView(AsState(), ApplyAll(before, ops).value.0)
      modifies this
      ensures r == Unit(UndoAll(old(AsState()), undos))
      ensures r.Ok? <==> MintsSane(before, ops)
      ensures r.Ok? ==> SameView(AsState(), before)
      ensures r.Ok? ==> forall id ::
                        GetTokenData(id) == TokenOf(before, id) && GetCirculatingSupply(id) == SupplyOf(before, id)
    {
      hide ApplyAll, MintsSane;
      ghost var s0 := AsState();
      RunUndoneIff(before, ops, s0);
      var i := |undos|;
      while i > 0
        invariant 0 <= i <= |undos|
        invariant UndoAll(s0, undos[i..]) == Ok(AsState())
      {
        i := i - 1;
        assert undos[i..][0] == undos[i] && undos[i..][1..] == undos[i + 1..];
        var done := Undo(undos[i]);
        if done.Err? {
          Runs.UndoStops(UndoOne, s0, undos, i);
          return done;
        }
      }
      assert undos[0..] == undos;
      return Ok(());
    }

    /** Takes over the changes of a cache built on this one: the loops over its
        data and its supplies, in any order of keys. */
    method BatchWrite(data: DataDeltas<Id, TokenData>, supply: AmountDeltas<Id>) returns (r: Outcome<()>)
      requires Normal(circulatingSupply) && Normal(supply)
      modifies this
      ensures forall p :: r == Unit(Flush(old(AsState()), State(p, data, supply)))
      ensures r.Ok? ==> forall p :: AsState() == Flush(old(AsState()), State(p, data, supply)).value
    {
      var mergedData := MergeDeltaData(tokenData, data);
      if mergedData.Err? {
        return Err(AccountingError(mergedData.error));
      }
      tokenData := mergedData.value;
      var mergedSupply := MergeDeltaAmounts(circulatingSupply, supply);
      if mergedSupply.Err? {
        return Err(AccountingError(mergedSupply.error));
      }
      circulatingSupply := mergedSupply.value;
      return Ok(());
    }
  }

  /** What a method did is what the operation does: the same undo and the same
      new state, or the same error. */
  predicate Follows(s: State, op: Op, r: Outcome<Undo>, s': State) {
    && (r.Ok? <==> Apply(s, op).Ok?)
    && (r.Ok? ==> Apply(s, op).value == (s', r.value))
    && (r.Err? ==> Apply(s, op).error == r.error)
  }

  /** Flushing a cache into the one it was built on fails exactly where two
      pending changes of a supply overflow together, and otherwise leaves the
      lower one with the upper one's answers. */
  method FlushToBase(upper: TokensAccountingCache, lower: TokensAccountingCache) returns (r: Outcome<()>)
    requires upper != lower && Normal(lower.circulatingSupply) && Normal(upper.circulatingSupply)
    requires BuiltOn(upper.AsState(), lower.AsState()) && WellRooted(upper.AsState())
    modifies lower
    ensures r.Ok? <==> AmountsMergeable(old(lower.circulatingSupply), upper.circulatingSupply)
    ensures r.Err? ==> r.error == AccountingError(DeltaAdditionFailed)
    ensures r.Ok? ==> Normal(lower.circulatingSupply)
    ensures r.Ok? ==> forall id ::
                        && lower.GetTokenData(id) == upper.GetTokenData(id)
                        && lower.GetCirculatingSupply(id) == upper.GetCirculatingSupply(id)
  {
    ghost var l, u := lower.AsState(), upper.AsState();
    FlushIff(l, u);
    hide Flush, AmountsMergeable, TokenOf, SupplyOf;
    r := lower.BatchWrite(upper.tokenData, upper.circulatingSupply);
    assert State(u.parent, upper.tokenData, upper.circulatingSupply) == u;
  }
}
