/** When each token operation succeeds, what it leaves of the token, and what
    may follow it (tokens-accounting/src/cache.rs, tokens-accounting/src/data.rs). */
module TokenEffects {
  import opened Wrappers
  import opened Deltas
  import opened Tokens

  /** A change of a supply can be written down. */
  predicate Writable(s: State, id: Id, change: int) {
    -I128_MAX <= change <= I128_MAX && (id in s.supply ==> FitsI128(s.supply[id] + change))
  }

  predicate Exists(s: State, id: Id) {
    TokenOf(s, id).Some?
  }

  // ---------- when ----------

  lemma IssueIff(s: State, id: Id, data: TokenData)
    ensures Apply(s, Issue(id, data)).Ok? <==> !Exists(s, id) && SupplyOf(s, id) == Ok(0)
    ensures Exists(s, id) ==> Apply(s, Issue(id, data)) == Err(TokenAlreadyExists(id))
  {
    hide DataView, SupplyOf, MergeData;
    if !Exists(s, id) { MergeDataShows(s.parent.tokens, s.data, id, DataDelta(None, Some(data))); }
  }

  /** Minting: the token is not frozen, a fixed supply keeps within its limit, a
      lockable one is not locked, and the amount can be written down. */
  lemma MintIff(s: State, id: Id, amount: Amount)
    ensures Apply(s, Mint(id, amount)).Ok? <==>
              && Exists(s, id)
              && var d := TokenOf(s, id).value;
                 && d.frozen.NotFrozen?
                 && (d.totalSupply.Fixed? ==>
                       SupplyOf(s, id).Ok? && SupplyOf(s, id).value + amount <= d.totalSupply.limit)
                 && (d.totalSupply.Lockable? ==> !d.locked)
                 && Writable(s, id, amount)
  {
    hide DataView, SupplyOf;
  }

  /** Unminting: the token is neither locked nor frozen, and there is as much. */
  lemma UnmintIff(s: State, id: Id, amount: Amount)
    ensures Apply(s, Unmint(id, amount)).Ok? <==>
              && Exists(s, id)
              && !TokenOf(s, id).value.locked && TokenOf(s, id).value.frozen.NotFrozen?
              && SupplyOf(s, id).Ok? && amount <= SupplyOf(s, id).value && amount <= I128_MAX
  {
    hide DataView;
    var x: int := amount;
    if SupplyOf(s, id).Ok? && x <= SupplyOf(s, id).value && id in s.supply && x <= I128_MAX {
      assert s.supply[id] - x >= 0 - ParentSupply(s, id) >= -I128_MAX;
    }
  }

  /** The operations that change only data. */
  lemma DataOpsIff(s: State, id: Id, b: bool, authority: Destination, uri: Text)
    ensures Apply(s, Lock(id)).Ok? <==>
              && Exists(s, id)
              && var d := TokenOf(s, id).value; !d.locked && d.frozen.NotFrozen? && d.totalSupply.Lockable?
    ensures Apply(s, Freeze(id, b)).Ok? <==> Exists(s, id) && TokenOf(s, id).value.frozen == NotFrozen(true)
    ensures Apply(s, Unfreeze(id)).Ok? <==> Exists(s, id) && TokenOf(s, id).value.frozen == IsFrozen(true)
    ensures Apply(s, SetAuthority(id, authority)).Ok? <==> Exists(s, id) && TokenOf(s, id).value.frozen.NotFrozen?
    ensures Apply(s, SetUri(id, uri)).Ok? <==> Exists(s, id) && TokenOf(s, id).value.frozen.NotFrozen?
  {
    hide SupplyOf, AddUnsigned, SubUnsigned;
  }

  // ---------- what is left ----------

  /** The token after an operation, field by field. */
  function Left(op: Op, was: Option<TokenData>): Option<TokenData> {
    if op.Issue? then Some(op.data)
    else if was.None? then None
    else
      var d := was.value;
      match op
      case Mint(_, _) => Some(d)
      case Unmint(_, _) => Some(d)
      case Lock(_) => Some(d.(locked := true))
      case Freeze(_, b) => Some(d.(frozen := IsFrozen(b)))
      case Unfreeze(_) => Some(d.(frozen := NotFrozen(true)))
      case SetAuthority(_, a) => Some(d.(authority := a))
      case SetUri(_, u) => Some(d.(uri := u))
  }

  /** A successful operation leaves exactly that token, moves its supply by what
      is minted or unminted, and touches no other token. */
  lemma OperationLeaves(s: State, op: Op)
    requires Normal(s.supply) && Apply(s, op).Ok?
    ensures var s' := Apply(s, op).value.0;
            && TokenOf(s', op.id) == Left(op, TokenOf(s, op.id))
            && Supply(s', op.id) == Supply(s, op.id) +
                 (if op.Mint? then op.amount else if op.Unmint? then 0 - op.amount else 0)
            && forall j :: j != op.id ==> TokenOf(s', j) == TokenOf(s, j) && Supply(s', j) == Supply(s, j)
  {
    hide Apply, TokenOf, Supply, SupplyOf;
    StepShows(s, op);
  }

  // ---------- what may follow ----------

  /** After a freeze the token can be unfrozen exactly if it was frozen so, and
      until then nothing else is done to it; once unfrozen it can be frozen
      again. */
  lemma AfterFreeze(s: State, id: Id, b: bool, amount: Amount, authority: Destination, uri: Text)
    requires Normal(s.supply) && Apply(s, Freeze(id, b)).Ok?
    ensures var s' := Apply(s, Freeze(id, b)).value.0;
            && (Apply(s', Unfreeze(id)).Ok? <==> b)
            && (!b ==> Apply(s', Unfreeze(id)) == Err(CannotUnfreezeNotUnfreezableToken(id)))
            && Apply(s', Mint(id, amount)) == Err(CannotMintFrozenToken(id))
            && Apply(s', Unmint(id, amount)).Err?
            && Apply(s', Lock(id)).Err?
            && Apply(s', Freeze(id, b)) == Err(TokenIsAlreadyFrozen(id))
            && Apply(s', SetAuthority(id, authority)) == Err(CannotChangeAuthorityForFrozenToken(id))
            && Apply(s', SetUri(id, uri)) == Err(CannotChangeMetadataUriForFrozenToken(id))
            && (b ==> var s'' := Apply(s', Unfreeze(id)).value.0;
                      && TokenOf(s'', id) == TokenOf(s, id)
                      && Apply(s'', Freeze(id, b)).Ok?)
  {
    OperationLeaves(s, Freeze(id, b));
    DataOpsIff(s, id, b, authority, uri);
    var s' := Apply(s, Freeze(id, b)).value.0;
    FrozenRefuses(s', id, b, amount, authority, uri);
    hide Apply, TokenOf, Supply;
    StepShows(s, Freeze(id, b));
    DataOpsIff(s', id, b, authority, uri);
    if b {
      OperationLeaves(s', Unfreeze(id));
      DataOpsIff(Apply(s', Unfreeze(id)).value.0, id, b, authority, uri);
    }
  }

  lemma FrozenRefuses(s: State, id: Id, b: bool, amount: Amount, authority: Destination, uri: Text)
    requires Exists(s, id) && TokenOf(s, id).value.frozen.IsFrozen?
    ensures Apply(s, Mint(id, amount)) == Err(CannotMintFrozenToken(id))
    ensures Apply(s, Unmint(id, amount)) ==
              Err(if TokenOf(s, id).value.locked then CannotUnmintFromLockedSupply(id) else CannotUnmintFrozenToken(id))
    ensures Apply(s, Lock(id)) ==
              Err(if TokenOf(s, id).value.locked then SupplyIsAlreadyLocked(id) else CannotLockFrozenToken(id))
    ensures Apply(s, Freeze(id, b)) == Err(TokenIsAlreadyFrozen(id))
    ensures !TokenOf(s, id).value.frozen.unfreezable ==>
              Apply(s, Unfreeze(id)) == Err(CannotUnfreezeNotUnfreezableToken(id))
    ensures Apply(s, SetAuthority(id, authority)) == Err(CannotChangeAuthorityForFrozenToken(id))
    ensures Apply(s, SetUri(id, uri)) == Err(CannotChangeMetadataUriForFrozenToken(id))
  {
    hide DataView, SupplyOf;
  }

  /** After a lock nothing is minted or unminted, and it is not locked twice. */
  lemma AfterLock(s: State, id: Id, amount: Amount)
    requires Normal(s.supply) && Apply(s, Lock(id)).Ok?
    ensures var s' := Apply(s, Lock(id)).value.0;
            && Apply(s', Mint(id, amount)) == Err(CannotMintFromLockedSupply(id))
            && Apply(s', Unmint(id, amount)) == Err(CannotUnmintFromLockedSupply(id))
            && Apply(s', Lock(id)) == Err(SupplyIsAlreadyLocked(id))
  {
    OperationLeaves(s, Lock(id));
    LockNeeds(s, id);
    LockedRefuses(Apply(s, Lock(id)).value.0, id, amount);
  }

  lemma LockNeeds(s: State, id: Id)
    requires Apply(s, Lock(id)).Ok?
    ensures Exists(s, id) && TokenOf(s, id).value.totalSupply.Lockable? && TokenOf(s, id).value.frozen.NotFrozen?
  {
    hide SupplyOf;
  }

  lemma LockedRefuses(s: State, id: Id, amount: Amount)
    requires Exists(s, id) && TokenOf(s, id).value.locked
    requires TokenOf(s, id).value.totalSupply.Lockable? && TokenOf(s, id).value.frozen.NotFrozen?
    ensures Apply(s, Mint(id, amount)) == Err(CannotMintFromLockedSupply(id))
    ensures Apply(s, Unmint(id, amount)) == Err(CannotUnmintFromLockedSupply(id))
    ensures Apply(s, Lock(id)) == Err(SupplyIsAlreadyLocked(id))
  {
    hide DataView, SupplyOf;
  }

  /** What a token that is neither frozen nor locked refuses, and why. */
  lemma OpenRefuses(s: State, id: Id, b: bool, amount: Amount)
    requires Exists(s, id) && TokenOf(s, id).value.frozen.NotFrozen? && !TokenOf(s, id).value.locked
    ensures Apply(s, Unfreeze(id)) == Err(CannotUnfreezeTokenThatIsNotFrozen(id))
    ensures !TokenOf(s, id).value.frozen.freezable ==>
              Apply(s, Freeze(id, b)) == Err(CannotFreezeNotFreezableToken(id))
    ensures !TokenOf(s, id).value.totalSupply.Lockable? ==>
              Apply(s, Lock(id)) == Err(CannotLockNotLockableSupply(id))
    ensures SupplyOf(s, id).Ok? && amount > SupplyOf(s, id).value ==>
              Apply(s, Unmint(id, amount)) == Err(NotEnoughCirculatingSupplyToUnmint(SupplyOf(s, id).value, amount, id))
    ensures SupplyOf(s, id).Ok? && TokenOf(s, id).value.totalSupply.Fixed? ==>
              var sum, limit := SupplyOf(s, id).value + amount, TokenOf(s, id).value.totalSupply.limit;
              && (sum > U128_MAX ==> Apply(s, Mint(id, amount)) == Err(AmountOverflow))
              && (limit < sum <= U128_MAX ==>
                    Apply(s, Mint(id, amount)) == Err(MintExceedsSupplyLimit(amount, limit, id)))
  {
    hide DataView;
  }

  /** Operations on a token that is not there. */
  lemma MissingToken(s: State, op: Op)
    requires !Exists(s, op.id) && !op.Issue?
    ensures Apply(s, op) == Err(TokenDataNotFound(op.id))
  {
  }

  // ---------- undoing ----------

  /** A change of data goes on from the change the cache holds already. */
  predicate Follows(s: State, id: Id, delta: DataDelta<TokenData>) {
    id in s.data ==> s.data[id].after == delta.before
  }

  /** An undo is accepted exactly on a token that is there and that the operation
      could have left so: not locked by a mint or unmint, locked by a lock,
      frozen by a freeze, not frozen by the rest. */
  lemma UndoIff(s: State, u: Undo)
    ensures UndoOne(s, u).Ok? <==>
              && Exists(s, u.id)
              && var d := TokenOf(s, u.id).value;
                 && (u.MintUndo? ==> !d.locked && Writable(s, u.id, 0 - u.amount))
                 && (u.UnmintUndo? ==> !d.locked && Writable(s, u.id, u.amount))
                 && (!u.MintUndo? && !u.UnmintUndo? ==> Follows(s, u.id, u.delta))
                 && (u.LockUndo? ==> d.locked)
                 && (u.FreezeUndo? ==> d.frozen.IsFrozen?)
                 && (u.UnfreezeUndo? || u.AuthorityUndo? || u.UriUndo? ==> d.frozen.NotFrozen?)
    ensures !Exists(s, u.id) ==> UndoOne(s, u) == Err(TokenDataNotFoundOnReversal(u.id))
  {
    hide DataView;
  }

  /** And leaves the token its change leads to, or the supply moved back. */
  lemma UndoLeaves(s: State, u: Undo)
    requires Normal(s.supply) && UndoOne(s, u).Ok?
    ensures var s' := UndoOne(s, u).value;
            && TokenOf(s', u.id) == (if u.MintUndo? || u.UnmintUndo? then TokenOf(s, u.id) else u.delta.after)
            && Supply(s', u.id) == Supply(s, u.id) +
                 (if u.MintUndo? then 0 - u.amount else if u.UnmintUndo? then u.amount else 0)
            && forall j :: j != u.id ==> TokenOf(s', j) == TokenOf(s, j) && Supply(s', j) == Supply(s, j)
  {
    hide UndoGuard;
  }
}
