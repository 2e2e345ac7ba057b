/** Fungible tokens: their data and its transitions, supply operations, and
    the undos (tokens-accounting/src/data.rs, tokens-accounting/src/cache.rs). */
module Tokens {
  import opened Wrappers
  import opened Deltas
  import Runs

  type Id = nat
  type Text = seq<bv8>
  type Destination(==, !new)

  datatype TotalSupply = Fixed(limit: Amount) | Lockable | Unlimited

  datatype Frozen = NotFrozen(freezable: bool) | IsFrozen(unfreezable: bool)

  datatype TokenIssuance = TokenIssuance(
    ticker: Text, decimals: bv8, uri: Text, totalSupply: TotalSupply, authority: Destination, isFreezable: bool)

  /** Token data; there is one kind of token, the fungible one. */
  datatype TokenData = TokenData(
    ticker: Text,
    decimals: bv8,
    uri: Text,
    totalSupply: TotalSupply,
    locked: bool,
    frozen: Frozen,
    authority: Destination)
  {
    function TryLock(): Option<TokenData> {
      if totalSupply.Lockable? then Some(this.(locked := true)) else None
    }

    function TryFreeze(unfreezable: bool): Option<TokenData> {
      if frozen.NotFrozen? && frozen.freezable then Some(this.(frozen := IsFrozen(unfreezable))) else None
    }

    function TryUnfreeze(): Option<TokenData> {
      if frozen.IsFrozen? && frozen.unfreezable then Some(this.(frozen := NotFrozen(true))) else None
    }

    function ChangeAuthority(newAuthority: Destination): TokenData {
      this.(authority := newAuthority)
    }

    function ChangeMetadataUri(newUri: Text): TokenData {
      this.(uri := newUri)
    }
  }

  function FromIssuance(i: TokenIssuance): (d: TokenData)
    ensures !d.locked && d.frozen.NotFrozen? && d.totalSupply == i.totalSupply
  {
    TokenData(i.ticker, i.decimals, i.uri, i.totalSupply, false, NotFrozen(i.isFreezable), i.authority)
  }

  datatype TokenError =
    | AccountingError(error: DeltaError)
    | TokenAlreadyExists(id: Id)
    | TokenDataNotFound(id: Id)
    | TokenDataNotFoundOnReversal(id: Id)
    | MintExceedsSupplyLimit(amount: Amount, limit: Amount, id: Id)
    | AmountOverflow
    | CannotMintFromLockedSupply(id: Id)
    | CannotMintFrozenToken(id: Id)
    | CannotUnmintFromLockedSupply(id: Id)
    | CannotUnmintFrozenToken(id: Id)
    | NotEnoughCirculatingSupplyToUnmint(supply: Amount, amount: Amount, id: Id)
    | SupplyIsAlreadyLocked(id: Id)
    | CannotLockNotLockableSupply(id: Id)
    | CannotLockFrozenToken(id: Id)
    | CannotUnlockNotLockedSupplyOnReversal(id: Id)
    | CannotUndoMintForLockedSupplyOnReversal(id: Id)
    | CannotUndoUnmintForLockedSupplyOnReversal(id: Id)
    | TokenIsAlreadyFrozen(id: Id)
    | CannotFreezeNotFreezableToken(id: Id)
    | CannotUnfreezeNotUnfreezableToken(id: Id)
    | CannotUnfreezeTokenThatIsNotFrozen(id: Id)
    | CannotUndoFreezeTokenThatIsNotFrozen(id: Id)
    | CannotUndoUnfreezeTokenThatIsFrozen(id: Id)
    | CannotChangeAuthorityForFrozenToken(id: Id)
    | CannotUndoChangeAuthorityForFrozenToken(id: Id)
    | CannotChangeMetadataUriForFrozenToken(id: Id)
    | CannotUndoChangeMetadataUriForFrozenToken(id: Id)

  type Outcome<T> = Result<T, TokenError>

  function AsTokenError<T>(r: Result<T, DeltaError>): Outcome<T> {
    if r.Ok? then Ok(r.value) else Err(AccountingError(r.error))
  }

  // ---------- the cache as a value ----------

  /** What the parent view holds; an absent supply is zero. */
  datatype Parent = Parent(tokens: map<Id, TokenData>, supply: map<Id, Amount>)

  datatype State = State(parent: Parent, data: DataDeltas<Id, TokenData>, supply: AmountDeltas<Id>)

  function TokenOf(s: State, id: Id): Option<TokenData> {
    DataView(s.parent.tokens, s.data, id)
  }

  function ParentSupply(s: State, id: Id): Amount {
    if id in s.parent.supply then s.parent.supply[id] else 0
  }

  function SupplyOf(s: State, id: Id): Outcome<Amount> {
    AsTokenError(Combine(ParentSupply(s, id), s.supply, id))
  }

  /** The supply itself, before the machine's limits on reading it. */
  function Supply(s: State, id: Id): int {
    ParentSupply(s, id) + DeltaOf(s.supply, id)
  }

  // ---------- operations ----------

  datatype Op =
    | Issue(id: Id, data: TokenData)
    | Mint(id: Id, amount: Amount)
    | Unmint(id: Id, amount: Amount)
    | Lock(id: Id)
    | Freeze(id: Id, unfreezable: bool)
    | Unfreeze(id: Id)
    | SetAuthority(id: Id, authority: Destination)
    | SetUri(id: Id, uri: Text)

  datatype Undo =
    | IssueUndo(id: Id, delta: DataDelta<TokenData>)
    | MintUndo(id: Id, amount: Amount)
    | UnmintUndo(id: Id, amount: Amount)
    | LockUndo(id: Id, delta: DataDelta<TokenData>)
    | FreezeUndo(id: Id, delta: DataDelta<TokenData>)
    | UnfreezeUndo(id: Id, delta: DataDelta<TokenData>)
    | AuthorityUndo(id: Id, delta: DataDelta<TokenData>)
    | UriUndo(id: Id, delta: DataDelta<TokenData>)

  /** What an operation on a token checks first, in its own order. */
  function Guard(s: State, op: Op): Outcome<()> {
    var token := TokenOf(s, op.id);
    if op.Issue? then
      if token.Some? then Err(TokenAlreadyExists(op.id))
      else
        var supply :- SupplyOf(s, op.id);
        if supply > 0 then Err(TokenAlreadyExists(op.id)) else Ok(())
    else if token.None? then Err(TokenDataNotFound(op.id))
    else GuardToken(s, op, token.value)
  }

  function GuardToken(s: State, op: Op, d: TokenData): Outcome<()>
    requires !op.Issue?
  {
    var id := op.id;
    match op
    case Mint(_, amount) =>
      if d.frozen.IsFrozen? then Err(CannotMintFrozenToken(id))
      else if d.totalSupply.Fixed? then
        var supply :- SupplyOf(s, id);
        if supply + amount > U128_MAX then Err(AmountOverflow)
        else if supply + amount > d.totalSupply.limit then Err(MintExceedsSupplyLimit(amount, d.totalSupply.limit, id))
        else Ok(())
      else if d.totalSupply.Lockable? && d.locked then Err(CannotMintFromLockedSupply(id))
      else Ok(())
    case Unmint(_, amount) =>
      if d.locked then Err(CannotUnmintFromLockedSupply(id))
      else if d.frozen.IsFrozen? then Err(CannotUnmintFrozenToken(id))
      else
        var supply :- SupplyOf(s, id);
        if supply < amount then Err(NotEnoughCirculatingSupplyToUnmint(supply, amount, id)) else Ok(())
    case Lock(_) =>
      if d.locked then Err(SupplyIsAlreadyLocked(id))
      else if d.frozen.IsFrozen? then Err(CannotLockFrozenToken(id))
      else if d.TryLock().None? then Err(CannotLockNotLockableSupply(id))
      else Ok(())
    case Freeze(_, unfreezable) =>
      if d.frozen.IsFrozen? then Err(TokenIsAlreadyFrozen(id))
      else if d.TryFreeze(unfreezable).None? then Err(CannotFreezeNotFreezableToken(id))
      else Ok(())
    case Unfreeze(_) =>
      if !d.frozen.IsFrozen? then Err(CannotUnfreezeTokenThatIsNotFrozen(id))
      else if d.TryUnfreeze().None? then Err(CannotUnfreezeNotUnfreezableToken(id))
      else Ok(())
    case SetAuthority(_, _) =>
      if d.frozen.IsFrozen? then Err(CannotChangeAuthorityForFrozenToken(id)) else Ok(())
    case SetUri(_, _) =>
      if d.frozen.IsFrozen? then Err(CannotChangeMetadataUriForFrozenToken(id)) else Ok(())
  }

  /** The data an operation that passed its checks puts in place. */
  function Changed(op: Op, d: TokenData): TokenData
    requires op.Lock? ==> d.TryLock().Some?
    requires op.Freeze? ==> d.TryFreeze(op.unfreezable).Some?
    requires op.Unfreeze? ==> d.TryUnfreeze().Some?
  {
    match op
    case Issue(_, data) => data
    case Mint(_, _) => d
    case Unmint(_, _) => d
    case Lock(_) => d.TryLock().value
    case Freeze(_, unfreezable) => d.TryFreeze(unfreezable).value
    case Unfreeze(_) => d.TryUnfreeze().value
    case SetAuthority(_, authority) => d.ChangeAuthority(authority)
    case SetUri(_, uri) => d.ChangeMetadataUri(uri)
  }

  function UndoFor(op: Op, delta: DataDelta<TokenData>): Undo {
    match op
    case Issue(id, _) => IssueUndo(id, delta)
    case Mint(id, amount) => MintUndo(id, amount)
    case Unmint(id, amount) => UnmintUndo(id, amount)
    case Lock(id) => LockUndo(id, delta)
    case Freeze(id, _) => FreezeUndo(id, delta)
    case Unfreeze(id) => UnfreezeUndo(id, delta)
    case SetAuthority(id, _) => AuthorityUndo(id, delta)
    case SetUri(id, _) => UriUndo(id, delta)
  }

  predicate MovesSupply(op: Op) {
    op.Mint? || op.Unmint?
  }

  function Apply(s: State, op: Op): Outcome<(State, Undo)> {
    var _ :- Guard(s, op);
    if op.Mint? then
      var supply' :- AsTokenError(AddUnsigned(s.supply, op.id, op.amount));
      Ok((s.(supply := supply'), MintUndo(op.id, op.amount)))
    else if op.Unmint? then
      var supply' :- AsTokenError(SubUnsigned(s.supply, op.id, op.amount));
      Ok((s.(supply := supply'), UnmintUndo(op.id, op.amount)))
    else
      var was := TokenOf(s, op.id);
      var delta := DataDelta(was, Some(if op.Issue? then op.data else Changed(op, was.value)));
      var data' :- AsTokenError(MergeData(s.data, op.id, delta));
      Ok((s.(data := data'), UndoFor(op, delta.Invert())))
  }

  /** What an undo checks of the token's current data. */
  function UndoGuard(u: Undo, d: TokenData): Outcome<()> {
    match u
    case IssueUndo(_, _) => Ok(())
    case MintUndo(id, _) => if d.locked then Err(CannotUndoMintForLockedSupplyOnReversal(id)) else Ok(())
    case UnmintUndo(id, _) => if d.locked then Err(CannotUndoUnmintForLockedSupplyOnReversal(id)) else Ok(())
    case LockUndo(id, _) => if !d.locked then Err(CannotUnlockNotLockedSupplyOnReversal(id)) else Ok(())
    case FreezeUndo(id, _) =>
      if !d.frozen.IsFrozen? then Err(CannotUndoFreezeTokenThatIsNotFrozen(id)) else Ok(())
    case UnfreezeUndo(id, _) =>
      if d.frozen.IsFrozen? then Err(CannotUndoUnfreezeTokenThatIsFrozen(id)) else Ok(())
    case AuthorityUndo(id, _) =>
      if d.frozen.IsFrozen? then Err(CannotUndoChangeAuthorityForFrozenToken(id)) else Ok(())
    case UriUndo(id, _) =>
      if d.frozen.IsFrozen? then Err(CannotUndoChangeMetadataUriForFrozenToken(id)) else Ok(())
  }

  function UndoOne(s: State, u: Undo): Outcome<State> {
    var token := TokenOf(s, u.id);
    if token.None? then Err(TokenDataNotFoundOnReversal(u.id))
    else
      var _ :- UndoGuard(u, token.value);
      if u.MintUndo? then
        var supply' :- AsTokenError(SubUnsigned(s.supply, u.id, u.amount));
        Ok(s.(supply := supply'))
      else if u.UnmintUndo? then
        var supply' :- AsTokenError(AddUnsigned(s.supply, u.id, u.amount));
        Ok(s.(supply := supply'))
      else
        var data' :- AsTokenError(MergeData(s.data, u.id, u.delta));
        Ok(s.(data := data'))
  }

  // ---------- one step ----------

  /** Only a token with lockable supply is locked. */
  predicate LockSane(d: TokenData) {
    d.locked ==> d.totalSupply.Lockable?
  }

  function SupplyChange(op: Op): int {
    if op.Mint? then op.amount else if op.Unmint? then 0 - op.amount else 0
  }

  /** Exactly what a successful step does to what the cache shows. */
  lemma StepShows(s: State, op: Op)
    requires Normal(s.supply) && Apply(s, op).Ok?
    ensures op.Issue? <==> TokenOf(s, op.id).None?
    ensures !op.Issue? ==> GuardToken(s, op, TokenOf(s, op.id).value).Ok?
    ensures var s' := Apply(s, op).value.0;
            && s'.parent == s.parent && Normal(s'.supply)
            && TokenOf(s', op.id) == Some(if op.Issue? then op.data else Changed(op, TokenOf(s, op.id).value))
            && Supply(s', op.id) == Supply(s, op.id) + SupplyChange(op)
            && (forall j :: j != op.id ==> TokenOf(s', j) == TokenOf(s, j) && Supply(s', j) == Supply(s, j))
  {
    hide MergeAmount, MergeData, DataView, Combine;
    var id := op.id;
    var s' := Apply(s, op).value.0;
    if MovesSupply(op) {
      var x: int := SupplyChange(op);
      MergeUndone(s.supply, id, x);
      KeptByMint(s, op);
    } else {
      var was := TokenOf(s, id);
      var delta := DataDelta(was, Some(if op.Issue? then op.data else Changed(op, was.value)));
      MergeDataShows(s.parent.tokens, s.data, id, delta);
    }
  }

  lemma KeptByMint(s: State, op: Op)
    requires MovesSupply(op) && TokenOf(s, op.id).Some?
    ensures Changed(op, TokenOf(s, op.id).value) == TokenOf(s, op.id).value
  {
  }

  // ---------- safety over runs ----------

  ghost predicate Inv(s: State) {
    Normal(s.supply) && forall id :: InvAt(s, id)
  }

  /** A supply is not negative and within a fixed limit, there is none without
      a token, and only lockable supplies are locked. */
  predicate InvAt(s: State, id: Id) {
    && Supply(s, id) >= 0
    && match TokenOf(s, id) {
         case None => Supply(s, id) == 0
         case Some(d) => LockSane(d) && (d.totalSupply.Fixed? ==> Supply(s, id) <= d.totalSupply.limit)
       }
  }

  ghost predicate IssuedProperly(op: Op) {
    op.Issue? ==> exists i :: op.data == FromIssuance(i)
  }

  /** What never changes of a token from one state to any later one: its kind
      of supply, its ticker and decimals; a locked supply; that it cannot be
      frozen; and everything, once it is frozen for good. */
  predicate Later(s: State, s': State, id: Id) {
    TokenOf(s, id).Some? ==>
      && TokenOf(s', id).Some?
      && var d, d' := TokenOf(s, id).value, TokenOf(s', id).value;
         && d'.totalSupply == d.totalSupply && d'.ticker == d.ticker && d'.decimals == d.decimals
         && (d.locked ==> d'.locked && Supply(s', id) == Supply(s, id))
         && (d.frozen == NotFrozen(false) ==> d'.frozen == NotFrozen(false))
         && (d.frozen == IsFrozen(false) ==> d' == d && Supply(s', id) == Supply(s, id))
  }

  lemma GuardReadsSupply(s: State, op: Op)
    requires Guard(s, op).Ok?
    ensures op.Issue? ==> Supply(s, op.id) == 0
    ensures op.Mint? && TokenOf(s, op.id).value.totalSupply.Fixed? ==>
              Supply(s, op.id) + op.amount <= TokenOf(s, op.id).value.totalSupply.limit
    ensures op.Unmint? ==> Supply(s, op.id) >= op.amount
  {
    hide DataView;
  }

  lemma StepKeepsInv(s: State, op: Op)
    requires Inv(s) && IssuedProperly(op) && Apply(s, op).Ok?
    ensures Inv(Apply(s, op).value.0)
  {
    hide Apply, TokenOf, Supply, InvAt, Normal, SupplyOf, Guard, GuardToken;
    var s' := Apply(s, op).value.0;
    StepShows(s, op);
    forall id ensures InvAt(s', id) {
      assert InvAt(s, id);
      if id == op.id { StepKeepsInvAt(s, op); } else { InvAtSame(s, s', id); }
    }
  }

  lemma InvAtSame(s: State, s': State, id: Id)
    requires TokenOf(s', id) == TokenOf(s, id) && Supply(s', id) == Supply(s, id)
    ensures InvAt(s', id) == InvAt(s, id)
  {
  }

  lemma StepKeepsInvAt(s: State, op: Op)
    requires Inv(s) && IssuedProperly(op) && Apply(s, op).Ok?
    ensures InvAt(Apply(s, op).value.0, op.id)
  {
    hide TokenOf, Supply, SupplyOf, AddUnsigned, SubUnsigned;
    StepShows(s, op);
    GuardReadsSupply(s, op);
    assert InvAt(s, op.id);
  }

  lemma StepIsLater(s: State, op: Op, id: Id)
    requires Inv(s) && Apply(s, op).Ok?
    ensures Later(s, Apply(s, op).value.0, id)
  {
    hide Apply, TokenOf, Supply, SupplyOf;
    StepShows(s, op);
    assert InvAt(s, id);
  }

  /** A run of operations that all succeed, and their undos in order. */
  function ApplyAll(s: State, ops: seq<Op>): Outcome<(State, seq<Undo>)> {
    Runs.ApplyAll(Apply, s, ops)
  }

  /** Minted minus unminted, of one token. */
  function Net(ops: seq<Op>, id: Id): int {
    if ops == [] then 0
    else (if ops[0].id == id then SupplyChange(ops[0]) else 0) + Net(ops[1..], id)
  }

  /** Every run keeps the invariant, so no fixed supply exceeds its limit;
      supply moves by what is minted less what is unminted; and locked supply,
      unfreezable tokens and permanently frozen ones stay as they are. */
  lemma {:induction false} RunIsSafe(s: State, ops: seq<Op>, id: Id)
    requires Inv(s) && (forall op :: op in ops ==> IssuedProperly(op)) && ApplyAll(s, ops).Ok?
    ensures var s' := ApplyAll(s, ops).value.0;
            && Inv(s')
            && Supply(s', id) == Supply(s, id) + Net(ops, id)
            && Later(s, s', id)
    decreases |ops|
  {
    hide Apply, TokenOf, Supply, Inv, IssuedProperly;
    if ops == [] {
    } else {
      var s1 := Apply(s, ops[0]).value.0;
      InvIsNormal(s);
      StepShows(s, ops[0]);
      StepKeepsInv(s, ops[0]);
      StepIsLater(s, ops[0], id);
      RunIsSafe(s1, ops[1..], id);
    }
  }

  lemma InvIsNormal(s: State)
    requires Inv(s)
    ensures Normal(s.supply)
  {
  }

  /** Over a run in which a token is issued: it exists at the end, it started
      with no supply, its supply is what was minted less what was unminted, a
      fixed one is within its limit, and if issued not freezable it is not
      frozen. */
  lemma {:induction false} IssuedTokenIsSafe(s: State, ops: seq<Op>, id: Id, i: TokenIssuance)
    requires Inv(s) && (forall op :: op in ops ==> IssuedProperly(op)) && ApplyAll(s, ops).Ok?
    requires Issue(id, FromIssuance(i)) in ops
    ensures var s' := ApplyAll(s, ops).value.0;
            && TokenOf(s', id).Some?
            && var d := TokenOf(s', id).value;
               && d.totalSupply == i.totalSupply && d.ticker == i.ticker && d.decimals == i.decimals
               && Supply(s', id) == Net(ops, id) >= 0
               && (i.totalSupply.Fixed? ==> Supply(s', id) <= i.totalSupply.limit)
               && (!i.isFreezable ==> d.frozen == NotFrozen(false))
    decreases |ops|
  {
    hide Apply, TokenOf, Supply, IssuedProperly, Normal;
    var s1 := Apply(s, ops[0]).value.0;
    InvIsNormal(s);
    StepShows(s, ops[0]);
    StepKeepsInv(s, ops[0]);
    assert InvAt(s, ops[0].id);
    if ops[0] == Issue(id, FromIssuance(i)) {
      RunIsSafe(s1, ops[1..], id);
      assert InvAt(ApplyAll(s1, ops[1..]).value.0, id);
    } else {
      IssuedTokenIsSafe(s1, ops[1..], id, i);
      if ops[0].id == id {
        assert TokenOf(s1, id).Some?;
        NoReissue(s1, ops[1..], id, FromIssuance(i));
        assert false;
      }
    }
  }

  /** Token data is never removed, so a token is issued once. */
  lemma {:induction false} NoReissue(s: State, ops: seq<Op>, id: Id, d: TokenData)
    requires Normal(s.supply) && TokenOf(s, id).Some? && ApplyAll(s, ops).Ok?
    ensures Issue(id, d) !in ops
    decreases |ops|
  {
    hide Apply, TokenOf, Supply, Normal;
    if ops == [] {
    } else {
      StepShows(s, ops[0]);
      NoReissue(Apply(s, ops[0]).value.0, ops[1..], id, d);
    }
  }

  /** A supply reads back as itself, and reads at all exactly when nothing is
      pending on it or it and what the parent holds fit a signed amount. */
  lemma SupplyReadsIff(s: State, id: Id)
    requires Inv(s)
    ensures SupplyOf(s, id).Ok? ==> SupplyOf(s, id).value == Supply(s, id)
    ensures SupplyOf(s, id).Ok? <==>
              id !in s.supply || (ParentSupply(s, id) <= I128_MAX && Supply(s, id) <= I128_MAX)
  {
    hide DataView;
    assert InvAt(s, id);
  }

  // ---------- undo ----------

  /** Two caches that every query answers alike. */
  ghost predicate SameView(s: State, t: State) {
    && s.parent == t.parent && s.supply == t.supply
    && forall id :: TokenOf(s, id) == TokenOf(t, id)
  }

  lemma SameAsSelf(s: State)
    ensures SameView(s, s)
  {
  }

  /** An undo succeeds unless it is of a mint of a locked token: minting checks
      the lock of a lockable supply only, and undoing a mint of every supply.
      Success restores the view. */
  lemma UndoneOnceIff(s: State, op: Op, t: State)
    requires Normal(s.supply) && Apply(s, op).Ok? && SameView(t, Apply(s, op).value.0)
    ensures var (s', u) := Apply(s, op).value;
            && (UndoOne(t, u).Ok? <==> (op.Mint? ==> LockSane(TokenOf(s, op.id).value)))
            && (UndoOne(t, u).Ok? ==> SameView(UndoOne(t, u).value, s))
  {
    StepShows(s, op);
    if MovesSupply(op) { SupplyMoveUndone(s, op, t); } else { DataChangeUndone(s, op, t); }
  }

  lemma SupplyMoveUndone(s: State, op: Op, t: State)
    requires Normal(s.supply) && Apply(s, op).Ok? && SameView(t, Apply(s, op).value.0) && MovesSupply(op)
    requires TokenOf(s, op.id).Some?
    ensures var (s', u) := Apply(s, op).value;
            && (UndoOne(t, u).Ok? <==> (op.Mint? ==> LockSane(TokenOf(s, op.id).value)))
            && (UndoOne(t, u).Ok? ==> SameView(UndoOne(t, u).value, s))
  {
    hide MergeAmount, DataView, Combine;
    var (s', u) := Apply(s, op).value;
    var x: int := SupplyChange(op);
    MergeUndone(s.supply, op.id, x);
    assert TokenOf(t, op.id) == TokenOf(s', op.id) == TokenOf(s, op.id);
    if UndoOne(t, u).Ok? {
      forall j ensures TokenOf(UndoOne(t, u).value, j) == TokenOf(s, j) {
        assert TokenOf(t, j) == TokenOf(s', j);
      }
    }
  }

  lemma DataChangeUndone(s: State, op: Op, t: State)
    requires Normal(s.supply) && Apply(s, op).Ok? && SameView(t, Apply(s, op).value.0) && !MovesSupply(op)
    ensures var (s', u) := Apply(s, op).value;
            UndoOne(t, u).Ok? && SameView(UndoOne(t, u).value, s)
  {
    hide MergeData, DataView, SupplyOf;
    var (s', u) := Apply(s, op).value;
    StepShows(s, op);
    assert TokenOf(t, op.id) == TokenOf(s', op.id);
    MergeDataShows(t.parent.tokens, t.data, op.id, u.delta);
    forall j ensures TokenOf(UndoOne(t, u).value, j) == TokenOf(s, j) {
      assert TokenOf(t, j) == TokenOf(s', j);
    }
  }

  /** The undos, last first. */
  function UndoAll(s: State, us: seq<Undo>): Outcome<State> {
    Runs.UndoAll(UndoOne, s, us)
  }

  /** The data a token has before the run or is issued with in it. */
  ghost predicate Origin(s: State, ops: seq<Op>, id: Id, d: TokenData) {
    TokenOf(s, id) == Some(d) || Issue(id, d) in ops
  }

  /** Every token the run mints starts unlocked or with lockable supply. */
  ghost predicate MintsSane(s: State, ops: seq<Op>) {
    forall op, d :: op in ops && op.Mint? && Origin(s, ops, op.id, d) ==> LockSane(d)
  }

  lemma MintsSaneStep(s: State, ops: seq<Op>)
    requires Normal(s.supply) && ops != [] && ApplyAll(s, ops).Ok?
    ensures TokenOf(s, ops[0].id).None? ==> !ops[0].Mint?
    ensures MintsSane(s, ops) <==>
              && (ops[0].Mint? ==> LockSane(TokenOf(s, ops[0].id).value))
              && MintsSane(Apply(s, ops[0]).value.0, ops[1..])
  {
    hide Apply, TokenOf, Supply, Normal, Origin, LockSane;
    var op0, rest := ops[0], ops[1..];
    var s1 := Apply(s, op0).value.0;
    StepShows(s, op0);
    assert forall op :: op in ops <==> op == op0 || op in rest;
    forall id ensures SaneFor(s, ops, id) == SaneFor(s1, rest, id) {
      SaneForStep(s, ops, id);
    }
    MintsSaneFor(s, ops);
    MintsSaneFor(s1, rest);
    if op0.Mint? { MintedOrigin(s, ops); }
  }

  ghost predicate SaneFor(s: State, ops: seq<Op>, id: Id) {
    forall d :: Origin(s, ops, id, d) ==> LockSane(d)
  }

  lemma MintsSaneFor(s: State, ops: seq<Op>)
    ensures MintsSane(s, ops) <==> forall op :: op in ops && op.Mint? ==> SaneFor(s, ops, op.id)
  {
    hide Origin, LockSane;
  }

  lemma MintedOrigin(s: State, ops: seq<Op>)
    requires Normal(s.supply) && ops != [] && ops[0].Mint? && ApplyAll(s, ops).Ok?
    ensures TokenOf(s, ops[0].id).Some?
    ensures SaneFor(s, ops, ops[0].id) <==> LockSane(TokenOf(s, ops[0].id).value)
  {
    hide Apply, TokenOf, Supply, Normal, LockSane;
    var id := ops[0].id;
    StepShows(s, ops[0]);
    assert Origin(s, ops, id, TokenOf(s, id).value);
    forall d ensures Issue(id, d) !in ops {
      NoReissue(s, ops, id, d);
    }
  }

  lemma SaneForStep(s: State, ops: seq<Op>, id: Id)
    requires Normal(s.supply) && ops != [] && Apply(s, ops[0]).Ok?
    ensures SaneFor(s, ops, id) == SaneFor(Apply(s, ops[0]).value.0, ops[1..], id)
  {
    hide Apply, TokenOf, Supply, Normal, SupplyOf;
    var op0, rest := ops[0], ops[1..];
    var s1 := Apply(s, op0).value.0;
    StepShows(s, op0);
    assert forall op :: op in ops <==> op == op0 || op in rest;
    if op0.id == id && !op0.Issue? {
      var d, d1 := TokenOf(s, id).value, TokenOf(s1, id).value;
      assert LockSane(d) == LockSane(d1);
      assert Origin(s, ops, id, d) && Origin(s1, rest, id, d1);
      forall e | e != d && e != d1 ensures Origin(s, ops, id, e) == Origin(s1, rest, id, e) { }
    } else {
      forall e ensures Origin(s, ops, id, e) == Origin(s1, rest, id, e) { }
    }
  }

  /** Undoing any successful run in last-in-first-out order succeeds, so that
      no guard rejects, exactly when no minted token started out locked with a
      supply that is not lockable; and then every query answers as before. */
  lemma {:induction false} RunUndoneIff(s: State, ops: seq<Op>, t: State)
    requires Normal(s.supply) && ApplyAll(s, ops).Ok? && SameView(t, ApplyAll(s, ops).value.0)
    ensures var (s', us) := ApplyAll(s, ops).value;
            && (UndoAll(t, us).Ok? <==> MintsSane(s, ops))
            && (UndoAll(t, us).Ok? ==> SameView(UndoAll(t, us).value, s))
    decreases |ops|
  {
    hide Apply, UndoOne, MintsSane, SameView, TokenOf, Supply, Normal, LockSane;
    if ops == [] {
      NothingMinted(s);
    } else {
      var (s1, u) := Apply(s, ops[0]).value;
      var (s', us) := ApplyAll(s1, ops[1..]).value;
      StepShows(s, ops[0]);
      MintsSaneStep(s, ops);
      RunUndoneIff(s1, ops[1..], t);
      assert ([u] + us)[1..] == us;
      if UndoAll(t, us).Ok? { UndoneOnceIff(s, ops[0], UndoAll(t, us).value); }
    }
  }

  lemma NothingMinted(s: State)
    ensures MintsSane(s, [])
  {
  }

  /** Runs over properly issued tokens can always be undone. */
  lemma RunUndone(s: State, ops: seq<Op>)
    requires Inv(s) && (forall op :: op in ops ==> IssuedProperly(op)) && ApplyAll(s, ops).Ok?
    ensures var (s', us) := ApplyAll(s, ops).value;
            UndoAll(s', us).Ok? && SameView(UndoAll(s', us).value, s)
  {
    hide Apply, UndoOne, SameView, TokenOf, Supply, Normal;
    var s' := ApplyAll(s, ops).value.0;
    SameAsSelf(s');
    RunUndoneIff(s, ops, s');
    forall op, d | op in ops && op.Mint? && Origin(s, ops, op.id, d) ensures LockSane(d) {
      assert InvAt(s, op.id);
      if Issue(op.id, d) in ops { assert IssuedProperly(Issue(op.id, d)); }
    }
  }

  /** A fixed supply that starts out locked can be minted, and the mint cannot
      be undone. */
  lemma LockedFixedExample(authority: Destination)
    ensures var d := TokenData([], 0, [], Fixed(10), true, NotFrozen(false), authority);
            var s := State(Parent(map[0 := d], map[]), map[], map[]);
            && Apply(s, Mint(0, 5)).Ok?
            && var (s', u) := Apply(s, Mint(0, 5)).value;
               UndoOne(s', u) == Err(CannotUndoMintForLockedSupplyOnReversal(0))
  {
  }

  // ---------- flushing one cache into the one below ----------

  /** Every change of a token's data starts from what the parent holds. */
  ghost predicate WellRooted(s: State) {
    Rooted(s.parent.tokens, s.data)
  }

  lemma ApplyKeepsRooted(s: State, op: Op)
    requires WellRooted(s) && Apply(s, op).Ok?
    ensures WellRooted(Apply(s, op).value.0)
  {
    hide AddUnsigned, SubUnsigned, SupplyOf, Rooted;
    if !MovesSupply(op) {
      var was := TokenOf(s, op.id);
      var delta := DataDelta(was, Some(if op.Issue? then op.data else Changed(op, was.value)));
      MergeDataKeepsRooted(s.parent.tokens, s.data, op.id, delta);
    }
  }

  /** The upper cache was built on the lower one: its parent is what that shows. */
  ghost predicate BuiltOn(upper: State, lower: State) {
    forall id ::
      && Stored(upper.parent.tokens, id) == TokenOf(lower, id)
      && SupplyOf(lower, id) == Ok(ParentSupply(upper, id))
  }

  function Flush(lower: State, upper: State): Outcome<State> {
    if !DataMergeable(lower.data, upper.data) then Err(AccountingError(DeltaDataMismatch))
    else if !AmountsMergeable(lower.supply, upper.supply) then Err(AccountingError(DeltaAdditionFailed))
    else Ok(State(lower.parent, DataMerged(lower.data, upper.data), AmountsMerged(lower.supply, upper.supply)))
  }

  /** Flushing a cache into the one it was built on never finds the data at
      odds; it fails exactly where two pending changes of a supply overflow
      together; and when it succeeds the lower cache answers every query as the
      upper one did, failures to read a supply included. */
  lemma FlushIff(lower: State, upper: State)
    requires Normal(lower.supply) && Normal(upper.supply) && BuiltOn(upper, lower) && WellRooted(upper)
    ensures Flush(lower, upper).Ok? <==> AmountsMergeable(lower.supply, upper.supply)
    ensures Flush(lower, upper).Err? ==> Flush(lower, upper).error == AccountingError(DeltaAdditionFailed)
    ensures Flush(lower, upper).Ok? ==>
              var s := Flush(lower, upper).value;
              && Normal(s.supply) && (WellRooted(lower) ==> WellRooted(s))
              && forall id :: TokenOf(s, id) == TokenOf(upper, id) && SupplyOf(s, id) == SupplyOf(upper, id)
  {
    hide DataView, DataMerged, DataMergeable, AmountsMerged, AmountsMergeable, Combine, Normal, Rooted;
    forall id ensures Stored(upper.parent.tokens, id) == DataView(lower.parent.tokens, lower.data, id) {
      assert Stored(upper.parent.tokens, id) == TokenOf(lower, id);
    }
    DataFlushed(lower.parent.tokens, lower.data, upper.parent.tokens, upper.data);
    if Flush(lower, upper).Ok? {
      var s := Flush(lower, upper).value;
      MergedIsNormal(lower.supply, upper.supply);
      forall id ensures TokenOf(s, id) == TokenOf(upper, id) && SupplyOf(s, id) == SupplyOf(upper, id) {
        assert SupplyOf(lower, id) == Ok(ParentSupply(upper, id));
        AmountFlushed(ParentSupply(lower, id), lower.supply, ParentSupply(upper, id), upper.supply, id);
      }
    }
  }

  /** So a cache whose supplies can all be read can always be flushed. */
  lemma ReadableFlushes(lower: State, upper: State)
    requires Normal(lower.supply) && Normal(upper.supply) && BuiltOn(upper, lower) && WellRooted(upper)
    requires forall id :: SupplyOf(upper, id).Ok?
    ensures Flush(lower, upper).Ok?
  {
    FlushIff(lower, upper);
    forall id | id in upper.supply && id in lower.supply ensures FitsI128(lower.supply[id] + upper.supply[id]) {
      assert SupplyOf(lower, id) == Ok(ParentSupply(upper, id)) && SupplyOf(upper, id).Ok?;
      ReadableMerges(ParentSupply(lower, id), lower.supply, ParentSupply(upper, id), upper.supply, id);
    }
  }

  /** An unlimited token minted to the signed limit in one cache: one more unit
      can be minted in a cache on top of it, which then cannot be flushed. */
  lemma OverfullFlushExample(i: TokenIssuance)
    requires i.totalSupply.Unlimited?
    ensures var d := FromIssuance(i);
            var lower := State(Parent(map[0 := d], map[]), map[], map[0 := I128_MAX]);
            var upper := State(Parent(map[0 := d], map[0 := I128_MAX]), map[], map[]);
            && BuiltOn(upper, lower) && WellRooted(upper)
            && Apply(upper, Mint(0, 1)).Ok?
            && Flush(lower, Apply(upper, Mint(0, 1)).value.0) == Err(AccountingError(DeltaAdditionFailed))
  {
    var d := FromIssuance(i);
    var lower := State(Parent(map[0 := d], map[]), map[], map[0 := I128_MAX]);
    var upper := State(Parent(map[0 := d], map[0 := I128_MAX]), map[], map[]);
    var after := Apply(upper, Mint(0, 1)).value.0;
    assert after.supply == map[0 := 1];
    assert !FitsI128(lower.supply[0] + after.supply[0]);
  }

  // ---------- a token just issued ----------

  /** Right after it is issued, a token shows what it was issued with, has no
      supply, can be frozen exactly if it was issued freezable, and locked
      exactly if its supply is lockable. */
  lemma IssuedTokenActs(s: State, id: Id, i: TokenIssuance, unfreezable: bool)
    requires Normal(s.supply) && Apply(s, Issue(id, FromIssuance(i))).Ok?
    ensures var s' := Apply(s, Issue(id, FromIssuance(i))).value.0;
            && TokenOf(s', id).Some? && Supply(s', id) == 0
            && (Apply(s', Freeze(id, unfreezable)).Ok? <==> i.isFreezable)
            && (Apply(s', Lock(id)).Ok? <==> i.totalSupply.Lockable?)
            && Apply(s', Unfreeze(id)).Err?
            && var d := TokenOf(s', id).value;
               && d.ticker == i.ticker && d.decimals == i.decimals && d.uri == i.uri
               && d.authority == i.authority && d.totalSupply == i.totalSupply
  {
    hide MergeData, DataView, Combine;
    var op := Issue(id, FromIssuance(i));
    StepShows(s, op);
    GuardReadsSupply(s, op);
    var s', d := Apply(s, op).value.0, FromIssuance(i);
    if i.isFreezable {
      MergeDataShows(s'.parent.tokens, s'.data, id, DataDelta(Some(d), d.TryFreeze(unfreezable)));
    }
    if i.totalSupply.Lockable? {
      MergeDataShows(s'.parent.tokens, s'.data, id, DataDelta(Some(d), d.TryLock()));
    }
  }
}
