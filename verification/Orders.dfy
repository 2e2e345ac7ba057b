/** Orders: creating, filling and concluding them, and the undos
    (orders-accounting/src/cache.rs, orders-accounting/src/price_calculation.rs). */
module Orders {
  import opened Wrappers
  import opened Deltas
  import Runs
  import opened OrderPrice

  type Id = nat

  datatype OutputValue = Coin(amount: Amount) | TokenV0 | TokenV1(token: Id, amount: Amount)

  datatype OrderData = OrderData(concludeKey: Id, ask: OutputValue, give: OutputValue)

  datatype OrderError =
    | OrderAlreadyExists(id: Id)
    | OrderDataNotFound(id: Id)
    | AttemptedConcludeNonexistingOrderData(id: Id)
    | OrderWithZeroValue(id: Id)
    | OrderOverflow(id: Id)
    | OrderOverbid(id: Id, ask: Amount, fill: Amount)
    | CurrencyMismatch
    | UnsupportedTokenVersion
    | ViewFail
    | AccountingError(error: DeltaError)
    | InvariantOrderDataNotFoundForUndo(id: Id)
    | InvariantOrderAskBalanceChangedForUndo(id: Id)
    | InvariantOrderGiveBalanceChangedForUndo(id: Id)
    | InvariantOrderDataExistForConcludeUndo(id: Id)
    | InvariantOrderAskBalanceExistForConcludeUndo(id: Id)
    | InvariantOrderGiveBalanceExistForConcludeUndo(id: Id)

  type Outcome<T> = Result<T, OrderError>

  function AsOrderError<T>(r: Result<T, DeltaError>): Outcome<T> {
    if r.Ok? then Ok(r.value) else Err(AccountingError(r.error))
  }

  // ---------- the cache as a value ----------

  /** What the parent view holds; an absent balance is zero. */
  datatype Parent = Parent(orders: map<Id, OrderData>, ask: map<Id, Amount>, give: map<Id, Amount>)

  datatype State = State(
    parent: Parent,
    data: DataDeltas<Id, OrderData>,
    ask: AmountDeltas<Id>,
    give: AmountDeltas<Id>)

  function Held(m: map<Id, Amount>, id: Id): Amount {
    if id in m then m[id] else 0
  }

  function OrderOf(s: State, id: Id): Option<OrderData> {
    DataView(s.parent.orders, s.data, id)
  }

  function AskOf(s: State, id: Id): Outcome<Amount> {
    AsOrderError(Combine(Held(s.parent.ask, id), s.ask, id))
  }

  function GiveOf(s: State, id: Id): Outcome<Amount> {
    AsOrderError(Combine(Held(s.parent.give, id), s.give, id))
  }

  // ---------- price of a fill ----------

  function AmountOf(v: OutputValue): Outcome<Amount> {
    if v.TokenV0? then Err(UnsupportedTokenVersion) else Ok(v.amount)
  }

  function EnsureMatch(id: Id, ask: OutputValue, fill: OutputValue): Outcome<()> {
    match (ask, fill)
    case (Coin(a), Coin(f)) =>
      if a >= f then Ok(()) else Err(OrderOverbid(id, a, f))
    case (TokenV1(i, a), TokenV1(j, f)) =>
      if a < f then Err(OrderOverbid(id, a, f)) else if i != j then Err(CurrencyMismatch) else Ok(())
    case (Coin(_), TokenV1(_, _)) => Err(CurrencyMismatch)
    case (TokenV1(_, _), Coin(_)) => Err(CurrencyMismatch)
    case (TokenV0, _) => Err(UnsupportedTokenVersion)
    case (_, TokenV0) => Err(UnsupportedTokenVersion)
  }

  /** A failure to read a balance is reported as a failed view. */
  function Viewed(r: Outcome<Amount>): Outcome<Amount> {
    if r.Err? then Err(ViewFail) else r
  }

  function CalculateFillOrder(s: State, id: Id, fill: OutputValue): Outcome<Amount> {
    if OrderOf(s, id).None? then Err(OrderDataNotFound(id))
    else
      var order := OrderOf(s, id).value;
      var ask :- Viewed(AskOf(s, id));
      var give :- Viewed(GiveOf(s, id));
      if order.ask.TokenV0? then Err(UnsupportedTokenVersion)
      else
        var left := if order.ask.Coin? then Coin(ask) else TokenV1(order.ask.token, ask);
        var _ :- EnsureMatch(id, left, fill);
        var amount :- AmountOf(fill);
        var filled := CalculateFilledAmount(ask, give, amount);
        if filled.None? then Err(OrderOverflow(id)) else Ok(filled.value)
  }

  // ---------- operations ----------

  datatype Op = Create(id: Id, order: OrderData) | Conclude(id: Id) | Fill(id: Id, value: OutputValue)

  datatype Undo =
    | CreateUndo(id: Id, data: DataDelta<OrderData>, ask: Amount, give: Amount)
    | ConcludeUndo(id: Id, data: DataDelta<OrderData>, ask: Amount, give: Amount)
    | FillUndo(id: Id, ask: Amount, give: Amount)

  function CreateOrder(s: State, id: Id, order: OrderData): Outcome<(State, Undo)> {
    if OrderOf(s, id).Some? then Err(OrderAlreadyExists(id))
    else
      var current :- AskOf(s, id);
      if current != 0 then Err(OrderAlreadyExists(id))
      else
        var ask :- AmountOf(order.ask);
        var give :- AmountOf(order.give);
        if ask == 0 || give == 0 then Err(OrderWithZeroValue(id))
        else
          var d := DataDelta(None, Some(order));
          var data' :- AsOrderError(MergeData(s.data, id, d));
          var ask' :- AsOrderError(AddUnsigned(s.ask, id, ask));
          var give' :- AsOrderError(AddUnsigned(s.give, id, give));
          Ok((State(s.parent, data', ask', give'), CreateUndo(id, d.Invert(), ask, give)))
  }

  function ConcludeOrder(s: State, id: Id): Outcome<(State, Undo)> {
    if OrderOf(s, id).None? then Err(AttemptedConcludeNonexistingOrderData(id))
    else
      var ask :- AskOf(s, id);
      var give :- GiveOf(s, id);
      var d := DataDelta(Some(OrderOf(s, id).value), None);
      var data' :- AsOrderError(MergeData(s.data, id, d));
      var ask' :- AsOrderError(SubUnsigned(s.ask, id, ask));
      var give' :- AsOrderError(SubUnsigned(s.give, id, give));
      Ok((State(s.parent, data', ask', give'), ConcludeUndo(id, d.Invert(), ask, give)))
  }

  function FillOrder(s: State, id: Id, value: OutputValue): Outcome<(State, Undo)> {
    var fill :- AmountOf(value);
    var filled :- CalculateFillOrder(s, id, value);
    var give' :- AsOrderError(SubUnsigned(s.give, id, filled));
    var ask' :- AsOrderError(SubUnsigned(s.ask, id, fill));
    Ok((State(s.parent, s.data, ask', give'), FillUndo(id, fill, filled)))
  }

  function UndoCreate(s: State, u: Undo): Outcome<State>
    requires u.CreateUndo?
  {
    var ask :- AskOf(s, u.id);
    if ask != u.ask then Err(InvariantOrderAskBalanceChangedForUndo(u.id))
    else
      var ask' :- AsOrderError(SubUnsigned(s.ask, u.id, u.ask));
      var give :- GiveOf(s, u.id);
      if give != u.give then Err(InvariantOrderGiveBalanceChangedForUndo(u.id))
      else
        var give' :- AsOrderError(SubUnsigned(s.give, u.id, u.give));
        if OrderOf(s, u.id).None? then Err(InvariantOrderDataNotFoundForUndo(u.id))
        else
          var data' :- AsOrderError(MergeData(s.data, u.id, u.data));
          Ok(State(s.parent, data', ask', give'))
  }

  function UndoConclude(s: State, u: Undo): Outcome<State>
    requires u.ConcludeUndo?
  {
    if OrderOf(s, u.id).Some? then Err(InvariantOrderDataExistForConcludeUndo(u.id))
    else
      var data' :- AsOrderError(MergeData(s.data, u.id, u.data));
      var ask :- AskOf(s, u.id);
      if ask != 0 then Err(InvariantOrderAskBalanceExistForConcludeUndo(u.id))
      else
        var ask' :- AsOrderError(AddUnsigned(s.ask, u.id, u.ask));
        var give :- GiveOf(s, u.id);
        if give != 0 then Err(InvariantOrderGiveBalanceExistForConcludeUndo(u.id))
        else
          var give' :- AsOrderError(AddUnsigned(s.give, u.id, u.give));
          Ok(State(s.parent, data', ask', give'))
  }

  function UndoFill(s: State, u: Undo): Outcome<State>
    requires u.FillUndo?
  {
    var ask' :- AsOrderError(AddUnsigned(s.ask, u.id, u.ask));
    var give' :- AsOrderError(AddUnsigned(s.give, u.id, u.give));
    Ok(State(s.parent, s.data, ask', give'))
  }

  function Apply(s: State, op: Op): Outcome<(State, Undo)> {
    match op
    case Create(id, order) => CreateOrder(s, id, order)
    case Conclude(id) => ConcludeOrder(s, id)
    case Fill(id, value) => FillOrder(s, id, value)
  }

  function UndoOne(s: State, u: Undo): Outcome<State> {
    match u
    case CreateUndo(_, _, _, _) => UndoCreate(s, u)
    case ConcludeUndo(_, _, _, _) => UndoConclude(s, u)
    case FillUndo(_, _, _) => UndoFill(s, u)
  }

  // ---------- invariants ----------

  ghost predicate Tidy(s: State) {
    Normal(s.ask) && Normal(s.give)
  }

  /** No balances without an order. */
  ghost predicate NoOrphans(s: State) {
    forall id :: OrderOf(s, id).None? ==> AskOf(s, id) == Ok(0) && GiveOf(s, id) == Ok(0)
  }

  /** Two caches that every query answers alike. */
  ghost predicate SameView(s: State, t: State) {
    && s.parent == t.parent && s.ask == t.ask && s.give == t.give
    && forall id :: OrderOf(s, id) == OrderOf(t, id)
  }

  /** A zero balance shows exactly what is added to it. */
  lemma AddShows(p: Amount, m: AmountDeltas<Id>, k: Id, a: Amount)
    requires Normal(m) && AddUnsigned(m, k, a).Ok? && a > 0
    ensures Combine(p, AddUnsigned(m, k, a).value, k) == Ok(a) <==> Combine(p, m, k) == Ok(0)
  {
    MergeUndone(m, k, a);
  }

  /** Taking out what a balance shows leaves zero. */
  lemma SubAllShows(p: Amount, m: AmountDeltas<Id>, k: Id)
    requires Normal(m) && Combine(p, m, k).Ok? && SubUnsigned(m, k, Combine(p, m, k).value).Ok?
    ensures Combine(p, SubUnsigned(m, k, Combine(p, m, k).value).value, k) == Ok(0)
  {
    var a: int := Combine(p, m, k).value;
    MergeUndone(m, k, -a);
  }

  /** Adding and taking out the same amount, in either order, changes nothing. */
  lemma AddSub(m: AmountDeltas<Id>, k: Id, a: Amount)
    requires Normal(m)
    ensures AddUnsigned(m, k, a).Ok? ==>
              && Normal(AddUnsigned(m, k, a).value)
              && SubUnsigned(AddUnsigned(m, k, a).value, k, a) == Ok(m)
    ensures SubUnsigned(m, k, a).Ok? ==>
              && Normal(SubUnsigned(m, k, a).value)
              && AddUnsigned(SubUnsigned(m, k, a).value, k, a) == Ok(m)
  {
    var x: int := a;
    if AddUnsigned(m, k, a).Ok? { MergeUndone(m, k, x); }
    if SubUnsigned(m, k, a).Ok? { MergeUndone(m, k, -x); }
  }

  lemma OthersKept(p: Amount, m: AmountDeltas<Id>, k: Id, a: Amount, j: Id)
    requires j != k
    ensures AddUnsigned(m, k, a).Ok? ==> Combine(p, AddUnsigned(m, k, a).value, j) == Combine(p, m, j)
    ensures SubUnsigned(m, k, a).Ok? ==> Combine(p, SubUnsigned(m, k, a).value, j) == Combine(p, m, j)
  {
  }

  // ---------- one operation and its undo ----------

  /** Undoing a creation succeeds exactly when the give balance read zero
      before it: creating checks the ask balance and not the give balance, and
      undoing checks both. Success restores the view. */
  lemma CreateUndoneIff(s: State, id: Id, order: OrderData, t: State)
    requires Tidy(s) && CreateOrder(s, id, order).Ok?
    requires SameView(t, CreateOrder(s, id, order).value.0)
    ensures var (s', u) := CreateOrder(s, id, order).value;
            && Tidy(s')
            && (UndoOne(t, u).Ok? <==> GiveOf(s, id) == Ok(0))
            && (UndoOne(t, u).Ok? ==> SameView(UndoOne(t, u).value, s))
  {
    hide AddUnsigned, SubUnsigned, Combine, MergeData, DataView;
    var (s', u) := CreateOrder(s, id, order).value;
    var d := DataDelta(None, Some(order));
    MergeDataShows(s.parent.orders, s.data, id, d);
    AddShows(Held(s.parent.ask, id), s.ask, id, u.ask);
    AddShows(Held(s.parent.give, id), s.give, id, u.give);
    AddSub(s.ask, id, u.ask);
    AddSub(s.give, id, u.give);
    assert OrderOf(t, id) == OrderOf(s', id) == Some(order);
    MergeDataShows(t.parent.orders, t.data, id, u.data);
    if UndoOne(t, u).Ok? {
      forall j ensures OrderOf(UndoOne(t, u).value, j) == OrderOf(s, j) {
        assert OrderOf(t, j) == OrderOf(s', j);
      }
    }
  }

  /** With a give balance left over from nowhere, a creation that succeeds
      cannot be undone. */
  lemma OrphanGiveExample()
    ensures var s := State(Parent(map[], map[], map[0 := 7]), map[], map[], map[]);
            var order := OrderData(0, Coin(1), Coin(1));
            && CreateOrder(s, 0, order).Ok?
            && var (s', u) := CreateOrder(s, 0, order).value;
               UndoOne(s', u) == Err(InvariantOrderGiveBalanceChangedForUndo(0))
  {
    var s := State(Parent(map[], map[], map[0 := 7]), map[], map[], map[]);
    var (s', u) := CreateOrder(s, 0, OrderData(0, Coin(1), Coin(1))).value;
    assert s'.ask == map[0 := 1] && s'.give == map[0 := 1];
  }

  lemma ConcludeUndone(s: State, id: Id, t: State)
    requires Tidy(s) && ConcludeOrder(s, id).Ok?
    requires SameView(t, ConcludeOrder(s, id).value.0)
    ensures var (s', u) := ConcludeOrder(s, id).value;
            && Tidy(s') && AskOf(s', id) == Ok(0) && GiveOf(s', id) == Ok(0)
            && UndoOne(t, u).Ok? && SameView(UndoOne(t, u).value, s)
  {
    hide AddUnsigned, SubUnsigned, Combine, MergeData, DataView;
    var (s', u) := ConcludeOrder(s, id).value;
    var d := DataDelta(OrderOf(s, id), None);
    MergeDataShows(s.parent.orders, s.data, id, d);
    SubAllShows(Held(s.parent.ask, id), s.ask, id);
    SubAllShows(Held(s.parent.give, id), s.give, id);
    AddSub(s.ask, id, u.ask);
    AddSub(s.give, id, u.give);
    assert OrderOf(t, id) == OrderOf(s', id) == None;
    MergeDataShows(t.parent.orders, t.data, id, u.data);
    forall j ensures OrderOf(UndoOne(t, u).value, j) == OrderOf(s, j) {
      assert OrderOf(t, j) == OrderOf(s', j);
    }
  }

  lemma FillUndone(s: State, id: Id, value: OutputValue, t: State)
    requires Tidy(s) && FillOrder(s, id, value).Ok?
    requires SameView(t, FillOrder(s, id, value).value.0)
    ensures var (s', u) := FillOrder(s, id, value).value;
            && Tidy(s')
            && UndoOne(t, u).Ok? && SameView(UndoOne(t, u).value, s)
  {
    hide AddUnsigned, SubUnsigned, CalculateFillOrder, DataView;
    var (s', u) := FillOrder(s, id, value).value;
    AddSub(s.ask, id, u.ask);
    AddSub(s.give, id, u.give);
    forall j ensures OrderOf(UndoOne(t, u).value, j) == OrderOf(s, j) {
      assert OrderOf(t, j) == OrderOf(s', j);
    }
  }

  // ---------- what the operations show ----------

  /** The same kind of value, and of the same token. */
  predicate SameCurrency(v: OutputValue, w: OutputValue) {
    || (v.Coin? && w.Coin?)
    || (v.TokenV1? && w.TokenV1? && v.token == w.token)
  }

  /** A fill has a price exactly when the order is there, its balances can be
      read, the currency is the one asked for, and some of the ask is left and
      not exceeded. So the overflow error means that nothing is left to ask. */
  lemma FillPricedIff(s: State, id: Id, fill: OutputValue)
    ensures CalculateFillOrder(s, id, fill).Ok? <==>
              && OrderOf(s, id).Some? && AskOf(s, id).Ok? && GiveOf(s, id).Ok?
              && SameCurrency(OrderOf(s, id).value.ask, fill)
              && fill.amount <= AskOf(s, id).value && AskOf(s, id).value > 0
    ensures CalculateFillOrder(s, id, fill) == Err(OrderOverflow(id)) ==> AskOf(s, id) == Ok(0)
  {
    hide Combine, DataView, CalculateFilledAmount;
    if AskOf(s, id).Ok? && GiveOf(s, id).Ok? && !fill.TokenV0? {
      var ask, give := AskOf(s, id).value, GiveOf(s, id).value;
      if ask > 0 && fill.amount <= ask { FillHasPrice(ask, give, fill.amount); }
    }
  }

  /** A fill goes through exactly when it has a price and both amounts can be
      written as signed changes; taking them off never overflows then. */
  lemma FillIff(s: State, id: Id, value: OutputValue)
    ensures FillOrder(s, id, value).Ok? <==>
              && CalculateFillOrder(s, id, value).Ok?
              && CalculateFillOrder(s, id, value).value <= I128_MAX && value.amount <= I128_MAX
  {
    hide Combine, DataView, CalculateFillOrder;
    if CalculateFillOrder(s, id, value).Ok? {
      PriceIsPrice(s, id, value);
      PriceAtMost(Book(AskLeft(s, id), GiveLeft(s, id)), value.amount);
      FillPricedIff(s, id, value);
      if CalculateFillOrder(s, id, value).value <= I128_MAX && value.amount <= I128_MAX {
        TakenOff(Held(s.parent.ask, id), s.ask, id, value.amount);
        TakenOff(Held(s.parent.give, id), s.give, id, CalculateFillOrder(s, id, value).value);
      }
    } else if !value.TokenV0? {
      FillPricedIff(s, id, value);
    }
  }

  /** What a readable balance holds can be taken off it. */
  lemma TakenOff(p: Amount, m: AmountDeltas<Id>, k: Id, a: Amount)
    requires Combine(p, m, k).Ok? && a <= p + DeltaOf(m, k) && a <= I128_MAX
    ensures SubUnsigned(m, k, a).Ok?
  {
  }

  /** Which refusal a fill of an existing, readable order meets. */
  lemma FillRefusals(s: State, id: Id, fill: OutputValue)
    requires OrderOf(s, id).Some? && AskOf(s, id).Ok? && GiveOf(s, id).Ok?
    ensures var ask, left := OrderOf(s, id).value.ask, AskOf(s, id).value;
            var r := CalculateFillOrder(s, id, fill);
            && (ask.TokenV0? || fill.TokenV0? ==> r == Err(UnsupportedTokenVersion))
            && ((ask.Coin? && fill.TokenV1?) || (ask.TokenV1? && fill.Coin?) ==> r == Err(CurrencyMismatch))
            && (ask.Coin? && fill.Coin? && fill.amount > left ==> r == Err(OrderOverbid(id, left, fill.amount)))
            && (ask.TokenV1? && fill.TokenV1? && fill.amount > left ==> r == Err(OrderOverbid(id, left, fill.amount)))
            && (ask.TokenV1? && fill.TokenV1? && fill.amount <= left && ask.token != fill.token ==>
                  r == Err(CurrencyMismatch))
  {
    hide Combine, DataView, CalculateFilledAmount;
  }

  /** Nor is there a price without the order, or with a balance that cannot be
      read. */
  lemma FillUnread(s: State, id: Id, fill: OutputValue)
    ensures OrderOf(s, id).None? ==> CalculateFillOrder(s, id, fill) == Err(OrderDataNotFound(id))
    ensures OrderOf(s, id).Some? && (AskOf(s, id).Err? || GiveOf(s, id).Err?) ==>
              CalculateFillOrder(s, id, fill) == Err(ViewFail)
  {
    hide Combine, DataView, CalculateFilledAmount;
  }

  /** An order is concluded exactly when it is there and both its balances can
      be read and written as signed changes. */
  lemma ConcludeIff(s: State, id: Id)
    ensures ConcludeOrder(s, id).Ok? <==>
              && OrderOf(s, id).Some?
              && AskOf(s, id).Ok? && AskOf(s, id).value <= I128_MAX
              && GiveOf(s, id).Ok? && GiveOf(s, id).value <= I128_MAX
    ensures OrderOf(s, id).None? ==> ConcludeOrder(s, id) == Err(AttemptedConcludeNonexistingOrderData(id))
  {
    hide Combine, DataView, MergeData;
    if OrderOf(s, id).Some? && AskOf(s, id).Ok? && GiveOf(s, id).Ok? {
      MergeDataShows(s.parent.orders, s.data, id, DataDelta(OrderOf(s, id), None));
      ReadsWhatIsLeft(s, id);
      if AskOf(s, id).value <= I128_MAX { TakenOff(Held(s.parent.ask, id), s.ask, id, AskOf(s, id).value); }
      if GiveOf(s, id).value <= I128_MAX { TakenOff(Held(s.parent.give, id), s.give, id, GiveOf(s, id).value); }
    }
  }

  /** An order is created exactly when there is none, nothing is left of its ask
      balance, both sides are amounts that are supported, positive and can be
      written as signed changes, and the give balance takes the change. */
  lemma CreateIff(s: State, id: Id, order: OrderData)
    ensures CreateOrder(s, id, order).Ok? <==>
              && OrderOf(s, id).None? && AskOf(s, id) == Ok(0)
              && !order.ask.TokenV0? && 0 < order.ask.amount <= I128_MAX
              && !order.give.TokenV0? && 0 < order.give.amount <= I128_MAX
              && (id in s.give ==> FitsI128(s.give[id] + order.give.amount))
    ensures OrderOf(s, id).Some? || (AskOf(s, id).Ok? && AskOf(s, id).value != 0) ==>
              CreateOrder(s, id, order) == Err(OrderAlreadyExists(id))
    ensures OrderOf(s, id).None? && AskOf(s, id) == Ok(0) && (order.ask.TokenV0? || order.give.TokenV0?) ==>
              CreateOrder(s, id, order) == Err(UnsupportedTokenVersion)
    ensures OrderOf(s, id).None? && AskOf(s, id) == Ok(0) && !order.ask.TokenV0? && !order.give.TokenV0?
              && (order.ask.amount == 0 || order.give.amount == 0) ==>
              CreateOrder(s, id, order) == Err(OrderWithZeroValue(id))
  {
    hide DataView, MergeData;
    if OrderOf(s, id).None? {
      MergeDataShows(s.parent.orders, s.data, id, DataDelta(None, Some(order)));
    }
  }

  /** A change of data goes on from the change the cache holds already. */
  predicate Follows(s: State, id: Id, delta: DataDelta<OrderData>) {
    id in s.data ==> s.data[id].after == delta.before
  }

  /** A creation is undone exactly while the order is there with the very
      balances it was created with. */
  lemma UndoCreateIff(s: State, u: Undo)
    requires u.CreateUndo?
    ensures UndoCreate(s, u).Ok? <==>
              && OrderOf(s, u.id).Some? && Follows(s, u.id, u.data)
              && AskOf(s, u.id) == Ok(u.ask) && GiveOf(s, u.id) == Ok(u.give)
              && u.ask <= I128_MAX && u.give <= I128_MAX
  {
    hide Combine, DataView;
    ReadsWhatIsLeft(s, u.id);
    if AskOf(s, u.id) == Ok(u.ask) && u.ask <= I128_MAX { TakenOff(Held(s.parent.ask, u.id), s.ask, u.id, u.ask); }
    if GiveOf(s, u.id) == Ok(u.give) && u.give <= I128_MAX {
      TakenOff(Held(s.parent.give, u.id), s.give, u.id, u.give);
    }
  }

  /** A conclusion is undone exactly while there is no such order and nothing is
      left of either balance. */
  lemma UndoConcludeIff(s: State, u: Undo)
    requires u.ConcludeUndo?
    ensures UndoConclude(s, u).Ok? <==>
              && OrderOf(s, u.id).None? && Follows(s, u.id, u.data)
              && AskOf(s, u.id) == Ok(0) && GiveOf(s, u.id) == Ok(0)
              && u.ask <= I128_MAX && u.give <= I128_MAX
  {
    hide DataView;
  }

  /** A fill is undone, whatever became of the order, while the sums can be
      written down. */
  lemma UndoFillIff(s: State, u: Undo)
    requires u.FillUndo?
    ensures UndoFill(s, u).Ok? <==>
              && u.ask <= I128_MAX && (u.id in s.ask ==> FitsI128(s.ask[u.id] + u.ask))
              && u.give <= I128_MAX && (u.id in s.give ==> FitsI128(s.give[u.id] + u.give))
  {
  }

  /** A new order shows its data and asks for exactly what it names, and what
      it gives is added to the give balance. */
  lemma CreateShows(s: State, id: Id, order: OrderData)
    requires Tidy(s) && CreateOrder(s, id, order).Ok?
    ensures !order.ask.TokenV0? && !order.give.TokenV0? && order.ask.amount > 0 && order.give.amount > 0
    ensures var s' := CreateOrder(s, id, order).value.0;
            && OrderOf(s', id) == Some(order)
            && AskOf(s', id) == Ok(order.ask.amount)
            && GiveLeft(s', id) == GiveLeft(s, id) + order.give.amount
  {
    hide MergeAmount, MergeData, DataView, Combine;
    var u := CreateOrder(s, id, order).value.1;
    MergeDataShows(s.parent.orders, s.data, id, DataDelta(None, Some(order)));
    AddShows(Held(s.parent.ask, id), s.ask, id, u.ask);
    MergeUndone(s.give, id, u.give);
  }

  // ---------- what every operation keeps ----------

  lemma ApplyTouchesOne(s: State, op: Op, j: Id)
    requires Apply(s, op).Ok? && j != op.id
    ensures var s' := Apply(s, op).value.0;
            OrderOf(s', j) == OrderOf(s, j) && AskOf(s', j) == AskOf(s, j) && GiveOf(s', j) == GiveOf(s, j)
  {
    hide AddUnsigned, SubUnsigned, Combine, CalculateFillOrder;
    var (s', u) := Apply(s, op).value;
    OthersKept(Held(s.parent.ask, j), s.ask, op.id, u.ask, j);
    OthersKept(Held(s.parent.give, j), s.give, op.id, u.give, j);
  }

  lemma ApplyKeepsNoOrphans(s: State, op: Op)
    requires Tidy(s) && NoOrphans(s) && Apply(s, op).Ok?
    ensures NoOrphans(Apply(s, op).value.0)
  {
    hide OrderOf, AskOf, GiveOf, Apply;
    var s' := Apply(s, op).value.0;
    AppliedTo(s, op);
    forall j | OrderOf(s', j).None? ensures AskOf(s', j) == Ok(0) && GiveOf(s', j) == Ok(0) {
      if j != op.id { ApplyTouchesOne(s, op, j); }
    }
  }

  lemma FillNeedsOrder(s: State, id: Id, value: OutputValue)
    requires CalculateFillOrder(s, id, value).Ok?
    ensures OrderOf(s, id).Some?
  {
  }

  lemma UndoneOnceIff(s: State, op: Op, t: State)
    requires Tidy(s) && Apply(s, op).Ok?
    requires SameView(t, Apply(s, op).value.0)
    ensures var (s', u) := Apply(s, op).value;
            && Tidy(s')
            && (UndoOne(t, u).Ok? <==> (op.Create? ==> GiveOf(s, op.id) == Ok(0)))
            && (UndoOne(t, u).Ok? ==> SameView(UndoOne(t, u).value, s))
  {
    hide CreateOrder, ConcludeOrder, FillOrder, UndoOne;
    match op
    case Create(id, order) => CreateUndoneIff(s, id, order, t);
    case Conclude(id) => ConcludeUndone(s, id, t);
    case Fill(id, value) => FillUndone(s, id, value, t);
  }

  // ---------- any run of operations ----------

  /** A run of operations that all succeed, and their undos in order. */
  function ApplyAll(s: State, ops: seq<Op>): Outcome<(State, seq<Undo>)> {
    Runs.ApplyAll(Apply, s, ops)
  }

  /** The undos, last first. */
  function UndoAll(s: State, us: seq<Undo>): Outcome<State> {
    Runs.UndoAll(UndoOne, s, us)
  }

  /** An identifier the run creates, of no order before it, reads a zero give
      balance before it. */
  ghost predicate CreatesFromZero(s: State, ops: seq<Op>) {
    forall op :: op in ops && op.Create? && OrderOf(s, op.id).None? ==> GiveOf(s, op.id) == Ok(0)
  }

  lemma CreatesFromZeroStep(s: State, ops: seq<Op>)
    requires Tidy(s) && ops != [] && Apply(s, ops[0]).Ok?
    ensures CreatesFromZero(s, ops) <==>
              && (ops[0].Create? ==> GiveOf(s, ops[0].id) == Ok(0))
              && CreatesFromZero(Apply(s, ops[0]).value.0, ops[1..])
  {
    hide AskOf, GiveOf, OrderOf, Apply;
    var op0, s' := ops[0], Apply(s, ops[0]).value.0;
    AppliedTo(s, op0);
    forall op | op in ops[1..] && op.Create?
      ensures OrderOf(s', op.id).None? && GiveOf(s', op.id) != Ok(0) ==>
                OrderOf(s, op.id).None? && GiveOf(s, op.id) != Ok(0)
      ensures op.id != op0.id && OrderOf(s, op.id).None? && GiveOf(s, op.id) != Ok(0) ==>
                OrderOf(s', op.id).None? && GiveOf(s', op.id) != Ok(0)
    {
      if op.id != op0.id { ApplyTouchesOne(s, op0, op.id); }
    }
    assert op0 in ops && forall op :: op in ops <==> op == op0 || op in ops[1..];
  }

  /** What an operation asks of the order it names, and leaves of it. */
  lemma AppliedTo(s: State, op: Op)
    requires Tidy(s) && Apply(s, op).Ok?
    ensures op.Create? <==> OrderOf(s, op.id).None?
    ensures var s' := Apply(s, op).value.0;
            && (op.Conclude? <==> OrderOf(s', op.id).None?)
            && (op.Conclude? ==> AskOf(s', op.id) == Ok(0) && GiveOf(s', op.id) == Ok(0))
  {
    hide AddUnsigned, SubUnsigned, Combine, CalculateFillOrder;
    if op.Conclude? { SameAsSelf(Apply(s, op).value.0); ConcludeUndone(s, op.id, Apply(s, op).value.0); }
    if op.Fill? { assert CalculateFillOrder(s, op.id, op.value).Ok?; FillNeedsOrder(s, op.id, op.value); }
  }

  /** Undoing any successful run in last-in-first-out order succeeds, so that
      no guard rejects, exactly when no created order found a give balance
      waiting for it; and then every query answers as before the run. */
  lemma {:induction false} RunUndoneIff(s: State, ops: seq<Op>, t: State)
    requires Tidy(s) && ApplyAll(s, ops).Ok?
    requires SameView(t, ApplyAll(s, ops).value.0)
    ensures var (s', us) := ApplyAll(s, ops).value;
            && Tidy(s')
            && (UndoAll(t, us).Ok? <==> CreatesFromZero(s, ops))
            && (UndoAll(t, us).Ok? ==> SameView(UndoAll(t, us).value, s))
    decreases |ops|
  {
    hide Apply, UndoOne, CreatesFromZero, SameView, Tidy, GiveOf;
    if ops == [] {
      NothingCreated(s);
    } else {
      var (s1, u) := Apply(s, ops[0]).value;
      var (s', us) := ApplyAll(s1, ops[1..]).value;
      SameAsSelf(s1);
      UndoneOnceIff(s, ops[0], s1);
      CreatesFromZeroStep(s, ops);
      RunUndoneIff(s1, ops[1..], t);
      assert ([u] + us)[1..] == us;
      if UndoAll(t, us).Ok? { UndoneOnceIff(s, ops[0], UndoAll(t, us).value); }
    }
  }

  lemma NothingCreated(s: State)
    ensures CreatesFromZero(s, [])
  {
  }

  /** Where no balance is without an order, it stays so over any run, and any
      run can be undone. */
  lemma {:induction false} RunUndone(s: State, ops: seq<Op>)
    requires Tidy(s) && NoOrphans(s) && ApplyAll(s, ops).Ok?
    ensures var (s', us) := ApplyAll(s, ops).value;
            && NoOrphans(s')
            && UndoAll(s', us).Ok? && SameView(UndoAll(s', us).value, s)
  {
    hide Apply, UndoOne, SameView, GiveOf;
    var s' := ApplyAll(s, ops).value.0;
    SameAsSelf(s');
    RunUndoneIff(s, ops, s');
    RunKeepsNoOrphans(s, ops);
  }

  lemma {:induction false} RunKeepsNoOrphans(s: State, ops: seq<Op>)
    requires Tidy(s) && NoOrphans(s) && ApplyAll(s, ops).Ok?
    ensures NoOrphans(ApplyAll(s, ops).value.0)
    decreases |ops|
  {
    hide Apply, NoOrphans, SameView, Tidy, UndoOne, GiveOf;
    if ops == [] {
    } else {
      var s1 := Apply(s, ops[0]).value.0;
      SameAsSelf(s1);
      UndoneOnceIff(s, ops[0], s1);
      ApplyKeepsNoOrphans(s, ops[0]);
      RunKeepsNoOrphans(s1, ops[1..]);
    }
  }

  lemma SameAsSelf(s: State)
    ensures SameView(s, s)
  {
  }

  // ---------- a run of fills ----------

  /** The amounts an order has left; every reading of them agrees. */
  function AskLeft(s: State, id: Id): int {
    Held(s.parent.ask, id) + DeltaOf(s.ask, id)
  }

  function GiveLeft(s: State, id: Id): int {
    Held(s.parent.give, id) + DeltaOf(s.give, id)
  }

  lemma ReadsWhatIsLeft(s: State, id: Id)
    ensures AskOf(s, id).Ok? ==> AskOf(s, id).value == AskLeft(s, id)
    ensures GiveOf(s, id).Ok? ==> GiveOf(s, id).value == GiveLeft(s, id)
  {
  }

  /** A fill moves an order's book by exactly the price of the fill. */
  lemma FillMovesBook(s: State, id: Id, value: OutputValue)
    requires Tidy(s) && FillOrder(s, id, value).Ok?
    ensures !value.TokenV0? && 0 < AskLeft(s, id) && 0 <= GiveLeft(s, id) && value.amount <= AskLeft(s, id)
    ensures var s' := FillOrder(s, id, value).value.0;
            && Tidy(s')
            && AskLeft(s', id) == AskLeft(s, id) - value.amount
            && GiveLeft(s', id) == GiveLeft(s, id) - Price(Book(AskLeft(s, id), GiveLeft(s, id)), value.amount)
  {
    hide MergeAmount, Combine, DataView;
    var (s', u) := FillOrder(s, id, value).value;
    PriceIsPrice(s, id, value);
    var ask: int, give: int := u.ask, u.give;
    MergeUndone(s.ask, id, -ask);
    MergeUndone(s.give, id, -give);
  }

  lemma PriceIsPrice(s: State, id: Id, value: OutputValue)
    requires CalculateFillOrder(s, id, value).Ok?
    ensures !value.TokenV0? && 0 < AskLeft(s, id) && 0 <= GiveLeft(s, id) && value.amount <= AskLeft(s, id)
    ensures CalculateFillOrder(s, id, value).value == Price(Book(AskLeft(s, id), GiveLeft(s, id)), value.amount)
  {
    hide Combine, DataView;
    ReadsWhatIsLeft(s, id);
  }

  /** Fills of one order, in turn. */
  function FillRun(s: State, id: Id, values: seq<OutputValue>): Outcome<State> {
    if values == [] then Ok(s)
    else
      var n := |values| - 1;
      var s' :- FillRun(s, id, values[..n]);
      var (s'', _) :- FillOrder(s', id, values[n]);
      Ok(s'')
  }

  function Payments(values: seq<OutputValue>): seq<nat> {
    if values == [] then []
    else
      var n := |values| - 1;
      Payments(values[..n]) + [if values[n].TokenV0? then 0 else values[n].amount]
  }

  lemma {:induction false} FillRunIsFills(s: State, id: Id, values: seq<OutputValue>)
    requires Tidy(s) && AskOf(s, id).Ok? && GiveOf(s, id).Ok? && FillRun(s, id, values).Ok?
    ensures AskLeft(s, id) >= 0 && GiveLeft(s, id) >= 0
    ensures var s' := FillRun(s, id, values).value;
            && Tidy(s') && AskLeft(s', id) >= 0 && GiveLeft(s', id) >= 0
            && |Payments(values)| == |values|
            && Fills(Book(AskLeft(s, id), GiveLeft(s, id)), Payments(values))
               == Some((Book(AskLeft(s', id), GiveLeft(s', id)), GiveLeft(s, id) - GiveLeft(s', id)))
    decreases |values|
  {
    hide FillOrder, AskOf, GiveOf, AskLeft, GiveLeft, Tidy, Price, Fills;
    ReadsWhatIsLeft(s, id);
    if values == [] {
      NoFills(Book(AskLeft(s, id), GiveLeft(s, id)));
    } else {
      var n := |values| - 1;
      FillRunIsFills(s, id, values[..n]);
      var s1 := FillRun(s, id, values[..n]).value;
      FillMovesBook(s1, id, values[n]);
      FillsSnoc(Book(AskLeft(s, id), GiveLeft(s, id)), Payments(values[..n]), values[n].amount);
    }
  }

  /** The bounds on what a run of fills of one order pays out, in the cache's
      own balances. */
  lemma RunOfFillsIsFair(s: State, id: Id, values: seq<OutputValue>)
    requires Tidy(s) && AskOf(s, id).Ok? && GiveOf(s, id).Ok? && FillRun(s, id, values).Ok?
    requires AskOf(s, id).value > 0
    ensures var s' := FillRun(s, id, values).value;
            var ask, give := AskOf(s, id).value, GiveOf(s, id).value;
            var F, n, paid := Sum(Payments(values)), |values|, give - GiveLeft(s', id);
            && AskLeft(s', id) == ask - F && 0 <= paid <= give
            && GiveLeft(s', id) * ask >= give * AskLeft(s', id)
            && paid * ask <= give * F <= (paid + n) * ask
            && (n > 0 ==> paid <= give * F / ask <= paid + n - 1)
            && (AskLeft(s', id) == 0 ==> paid == give)
  {
    hide FillRun, AskOf, GiveOf, AskLeft, GiveLeft, Fills, Payments, Sum, Tidy;
    ReadsWhatIsLeft(s, id);
    FillRunIsFills(s, id, values);
    var b := Book(AskLeft(s, id), GiveLeft(s, id));
    FillsAreFair(b, Payments(values));
    if values != [] { SplittingNeverPays(b, Payments(values)); }
  }

  // ---------- flushing one cache into the one below ----------

  /** Every change of an order's data starts from what the parent holds. */
  ghost predicate WellRooted(s: State) {
    Rooted(s.parent.orders, s.data)
  }

  lemma ApplyKeepsRooted(s: State, op: Op)
    requires WellRooted(s) && Apply(s, op).Ok?
    ensures WellRooted(Apply(s, op).value.0)
  {
    hide AddUnsigned, SubUnsigned, AskOf, GiveOf, CalculateFillOrder;
    if op.Create? {
      MergeDataKeepsRooted(s.parent.orders, s.data, op.id, DataDelta(None, Some(op.order)));
    } else if op.Conclude? {
      MergeDataKeepsRooted(s.parent.orders, s.data, op.id, DataDelta(OrderOf(s, op.id), None));
    }
  }

  /** The upper cache was built on the lower one: its parent is what that shows. */
  ghost predicate BuiltOn(upper: State, lower: State) {
    forall id ::
      && Stored(upper.parent.orders, id) == OrderOf(lower, id)
      && AskOf(lower, id) == Ok(Held(upper.parent.ask, id))
      && GiveOf(lower, id) == Ok(Held(upper.parent.give, id))
  }

  /** Data first, then the ask balances, then the give balances. */
  function Flush(lower: State, upper: State): Outcome<State> {
    if !DataMergeable(lower.data, upper.data) then Err(AccountingError(DeltaDataMismatch))
    else if !AmountsMergeable(lower.ask, upper.ask) || !AmountsMergeable(lower.give, upper.give) then
      Err(AccountingError(DeltaAdditionFailed))
    else
      Ok(State(lower.parent, DataMerged(lower.data, upper.data),
               AmountsMerged(lower.ask, upper.ask), AmountsMerged(lower.give, upper.give)))
  }

  /** Flushing a cache into the one it was built on never finds the data at
      odds; it fails exactly where two pending changes of a balance overflow
      together; and when it succeeds the lower cache answers every query as the
      upper one did, failures to read a balance included. */
  lemma FlushIff(lower: State, upper: State)
    requires Tidy(lower) && Tidy(upper) && BuiltOn(upper, lower) && WellRooted(upper)
    ensures Flush(lower, upper).Ok? <==>
              AmountsMergeable(lower.ask, upper.ask) && AmountsMergeable(lower.give, upper.give)
    ensures Flush(lower, upper).Err? ==> Flush(lower, upper).error == AccountingError(DeltaAdditionFailed)
    ensures Flush(lower, upper).Ok? ==>
              var s := Flush(lower, upper).value;
              && Tidy(s) && (WellRooted(lower) ==> WellRooted(s))
              && forall id ::
                   && OrderOf(s, id) == OrderOf(upper, id)
                   && AskOf(s, id) == AskOf(upper, id) && GiveOf(s, id) == GiveOf(upper, id)
  {
    hide DataView, DataMerged, DataMergeable, AmountsMerged, AmountsMergeable, Combine, Normal, Rooted;
    forall id ensures Stored(upper.parent.orders, id) == DataView(lower.parent.orders, lower.data, id) {
      assert Stored(upper.parent.orders, id) == OrderOf(lower, id);
    }
    DataFlushed(lower.parent.orders, lower.data, upper.parent.orders, upper.data);
    if Flush(lower, upper).Ok? {
      var s := Flush(lower, upper).value;
      MergedIsNormal(lower.ask, upper.ask);
      MergedIsNormal(lower.give, upper.give);
      forall id
        ensures OrderOf(s, id) == OrderOf(upper, id)
        ensures AskOf(s, id) == AskOf(upper, id) && GiveOf(s, id) == GiveOf(upper, id)
      {
        assert AskOf(lower, id) == Ok(Held(upper.parent.ask, id));
        AmountFlushed(Held(lower.parent.ask, id), lower.ask, Held(upper.parent.ask, id), upper.ask, id);
        AmountFlushed(Held(lower.parent.give, id), lower.give, Held(upper.parent.give, id), upper.give, id);
      }
    }
  }

  /** So a cache whose balances can all be read can always be flushed. */
  lemma ReadableFlushes(lower: State, upper: State)
    requires Tidy(lower) && Tidy(upper) && BuiltOn(upper, lower) && WellRooted(upper)
    requires forall id :: AskOf(upper, id).Ok? && GiveOf(upper, id).Ok?
    ensures Flush(lower, upper).Ok?
  {
    FlushIff(lower, upper);
    forall id | id in upper.ask && id in lower.ask ensures FitsI128(lower.ask[id] + upper.ask[id]) {
      assert AskOf(lower, id) == Ok(Held(upper.parent.ask, id)) && AskOf(upper, id).Ok?;
      ReadableMerges(Held(lower.parent.ask, id), lower.ask, Held(upper.parent.ask, id), upper.ask, id);
    }
    forall id | id in upper.give && id in lower.give ensures FitsI128(lower.give[id] + upper.give[id]) {
      assert GiveOf(lower, id) == Ok(Held(upper.parent.give, id)) && GiveOf(upper, id).Ok?;
      ReadableMerges(Held(lower.parent.give, id), lower.give, Held(upper.parent.give, id), upper.give, id);
    }
  }
}
