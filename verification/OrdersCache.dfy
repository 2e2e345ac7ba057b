/** The orders cache, updated in place (orders-accounting/src/cache.rs). */
module OrdersCache {
  import opened Wrappers
  import opened Deltas
  import Runs
  import opened Orders

  class OrdersAccountingCache {
    const parent: Parent
    var orderData: DataDeltas<Id, OrderData>
    var askBalances: AmountDeltas<Id>
    var giveBalances: AmountDeltas<Id>

    constructor (parent: Parent)
      ensures AsState() == State(parent, map[], map[], map[])
      ensures Tidy(AsState())
    {
      this.parent := parent;
      orderData, askBalances, giveBalances := map[], map[], map[];
    }

    function AsState(): State
      reads this
    {
      State(parent, orderData, askBalances, giveBalances)
    }

    function GetOrderData(id: Id): (r: Option<OrderData>)
      reads this
      ensures r == OrderOf(AsState(), id)
    {
      if id !in orderData then (if id in parent.orders then Some(parent.orders[id]) else None)
      else orderData[id].after
    }

    function GetAskBalance(id: Id): (r: Outcome<Amount>)
      reads this
      ensures r == AskOf(AsState(), id)
      ensures r.Ok? ==> r.value == AskLeft(AsState(), id)
    {
      AsOrderError(Combine(Held(parent.ask, id), askBalances, id))
    }

    function GetGiveBalance(id: Id): (r: Outcome<Amount>)
      reads this
      ensures r == GiveOf(AsState(), id)
      ensures r.Ok? ==> r.value == GiveLeft(AsState(), id)
    {
      AsOrderError(Combine(Held(parent.give, id), giveBalances, id))
    }

    method AddAsk(id: Id, amount: Amount) returns (r: Outcome<()>)
      modifies `askBalances
      ensures r == Unit(AsOrderError(AddUnsigned(old(askBalances), id, amount)))
      ensures r.Ok? ==> askBalances == AddUnsigned(old(askBalances), id, amount).value
    {
      var m :- AsOrderError(AddUnsigned(askBalances, id, amount));
      askBalances := m;
      return Ok(());
    }

    method SubAsk(id: Id, amount: Amount) returns (r: Outcome<()>)
      modifies `askBalances
      ensures r == Unit(AsOrderError(SubUnsigned(old(askBalances), id, amount)))
      ensures r.Ok? ==> askBalances == SubUnsigned(old(askBalances), id, amount).value
    {
      var m :- AsOrderError(SubUnsigned(askBalances, id, amount));
      askBalances := m;
      return Ok(());
    }

    method AddGive(id: Id, amount: Amount) returns (r: Outcome<()>)
      modifies `giveBalances
      ensures r == Unit(AsOrderError(AddUnsigned(old(giveBalances), id, amount)))
      ensures r.Ok? ==> giveBalances == AddUnsigned(old(giveBalances), id, amount).value
    {
      var m :- AsOrderError(AddUnsigned(giveBalances, id, amount));
      giveBalances := m;
      return Ok(());
    }

    method SubGive(id: Id, amount: Amount) returns (r: Outcome<()>)
      modifies `giveBalances
      ensures r == Unit(AsOrderError(SubUnsigned(old(giveBalances), id, amount)))
      ensures r.Ok? ==> giveBalances == SubUnsigned(old(giveBalances), id, amount).value
    {
      var m :- AsOrderError(SubUnsigned(giveBalances, id, amount));
      giveBalances := m;
      return Ok(());
    }

    /** Merges a change of an order's data; the result undoes it. */
    method MergeOrder(id: Id, d: DataDelta<OrderData>) returns (r: Outcome<DataDelta<OrderData>>)
      modifies `orderData
      ensures r.Ok? <==> MergeData(old(orderData), id, d).Ok?
      ensures r.Ok? ==> r.value == d.Invert() && orderData == MergeData(old(orderData), id, d).value
      ensures r.Err? ==> r.error == AccountingError(MergeData(old(orderData), id, d).error)
    {
      var m :- AsOrderError(MergeData(orderData, id, d));
      orderData := m;
      return Ok(d.Invert());
    }

    method CreateOrder(id: Id, data: OrderData) returns (r: Outcome<Undo>)
      modifies this
      ensures r.Ok? <==> Orders.CreateOrder(old(AsState()), id, data).Ok?
      ensures r.Ok? ==> (AsState(), r.value) == Orders.CreateOrder(old(AsState()), id, data).value
      ensures r.Err? ==> r.error == Orders.CreateOrder(old(AsState()), id, data).error
    {
      hide AddUnsigned, SubUnsigned, Combine, MergeData, DataView;
      if GetOrderData(id).Some? { return Err(OrderAlreadyExists(id)); }
      var current :- GetAskBalance(id);
      if current != 0 { return Err(OrderAlreadyExists(id)); }
      var askAmount :- AmountOf(data.ask);
      var giveAmount :- AmountOf(data.give);
      if !(askAmount > 0 && giveAmount > 0) { return Err(OrderWithZeroValue(id)); }
      var undoData :- MergeOrder(id, DataDelta(None, Some(data)));
      var _ :- AddAsk(id, askAmount);
      var _ :- AddGive(id, giveAmount);
      return Ok(CreateUndo(id, undoData, askAmount, giveAmount));
    }

    method ConcludeOrder(id: Id) returns (r: Outcome<Undo>)
      modifies this
      ensures r.Ok? <==> Orders.ConcludeOrder(old(AsState()), id).Ok?
      ensures r.Ok? ==> (AsState(), r.value) == Orders.ConcludeOrder(old(AsState()), id).value
      ensures r.Err? ==> r.error == Orders.ConcludeOrder(old(AsState()), id).error
    {
      hide AddUnsigned, SubUnsigned, Combine, MergeData, DataView;
      var order := GetOrderData(id);
      if order.None? { return Err(AttemptedConcludeNonexistingOrderData(id)); }
      var ask :- GetAskBalance(id);
      var give :- GetGiveBalance(id);
      var undoData :- MergeOrder(id, DataDelta(order, None));
      var _ :- SubAsk(id, ask);
      var _ :- SubGive(id, give);
      return Ok(ConcludeUndo(id, undoData, ask, give));
    }

    method FillOrder(id: Id, value: OutputValue) returns (r: Outcome<Undo>)
      modifies this
      ensures r.Ok? <==> Orders.FillOrder(old(AsState()), id, value).Ok?
      ensures r.Ok? ==> (AsState(), r.value) == Orders.FillOrder(old(AsState()), id, value).value
      ensures r.Err? ==> r.error == Orders.FillOrder(old(AsState()), id, value).error
    {
      hide AddUnsigned, SubUnsigned, CalculateFillOrder;
      var fillAmount :- AmountOf(value);
      var filledAmount :- CalculateFillOrder(AsState(), id, value);
      var _ :- SubGive(id, filledAmount);
      var _ :- SubAsk(id, fillAmount);
      return Ok(FillUndo(id, fillAmount, filledAmount));
    }

    method UndoCreateOrder(u: Undo) returns (r: Outcome<()>)
      requires u.CreateUndo?
      modifies this
      ensures r == Unit(UndoCreate(old(AsState()), u))
      ensures r.Ok? ==> AsState() == UndoCreate(old(AsState()), u).value
    {
      hide AddUnsigned, SubUnsigned, Combine, MergeData, DataView;
      var ask :- GetAskBalance(u.id);
      if ask != u.ask { return Err(InvariantOrderAskBalanceChangedForUndo(u.id)); }
      var _ :- SubAsk(u.id, u.ask);
      var give :- GetGiveBalance(u.id);
      if give != u.give { return Err(InvariantOrderGiveBalanceChangedForUndo(u.id)); }
      var _ :- SubGive(u.id, u.give);
      if GetOrderData(u.id).None? { return Err(InvariantOrderDataNotFoundForUndo(u.id)); }
      var _ :- MergeOrder(u.id, u.data);
      return Ok(());
    }

    method UndoConcludeOrder(u: Undo) returns (r: Outcome<()>)
      requires u.ConcludeUndo?
      modifies this
      ensures r == Unit(UndoConclude(old(AsState()), u))
      ensures r.Ok? ==> AsState() == UndoConclude(old(AsState()), u).value
    {
      hide AddUnsigned, SubUnsigned, Combine, MergeData, DataView;
      if GetOrderData(u.id).Some? { return Err(InvariantOrderDataExistForConcludeUndo(u.id)); }
      var _ :- MergeOrder(u.id, u.data);
      var ask :- GetAskBalance(u.id);
      if ask != 0 { return Err(InvariantOrderAskBalanceExistForConcludeUndo(u.id)); }
      var _ :- AddAsk(u.id, u.ask);
      var give :- GetGiveBalance(u.id);
      if give != 0 { return Err(InvariantOrderGiveBalanceExistForConcludeUndo(u.id)); }
      var _ :- AddGive(u.id, u.give);
      return Ok(());
    }

    method UndoFillOrder(u: Undo) returns (r: Outcome<()>)
      requires u.FillUndo?
      modifies this
      ensures r == Unit(UndoFill(old(AsState()), u))
      ensures r.Ok? ==> AsState() == UndoFill(old(AsState()), u).value
    {
      hide AddUnsigned;
      var _ :- AddAsk(u.id, u.ask);
      var _ :- AddGive(u.id, u.give);
      return Ok(());
    }

    method Undo(u: Undo) returns (r: Outcome<()>)
      modifies this
      ensures r == Unit(UndoOne(old(AsState()), u))
      ensures r.Ok? ==> AsState() == UndoOne(old(AsState()), u).value
    {
      match u
      case CreateUndo(_, _, _, _) => r := UndoCreateOrder(u);
      case ConcludeUndo(_, _, _, _) => r := UndoConcludeOrder(u);
      case FillUndo(_, _, _) => r := UndoFillOrder(u);
    }

    method Perform(op: Op) returns (r: Outcome<Undo>)
      modifies this
      ensures r.Ok? <==> Apply(old(AsState()), op).Ok?
      ensures r.Ok? ==> (AsState(), r.value) == Apply(old(AsState()), op).value
      ensures r.Err? ==> r.error == Apply(old(AsState()), op).error
    {
      match op
      case Create(id, order) => r := CreateOrder(id, order);
      case Conclude(id) => r := ConcludeOrder(id);
      case Fill(id, value) => r := FillOrder(id, value);
    }

    /** Performs operations in turn and keeps their undos in order. */
    method PerformAll(ops: seq<Op>) returns (r: Outcome<seq<Undo>>)
      modifies this
      ensures r.Ok? <==> ApplyAll(old(AsState()), ops).Ok?
      ensures r.Ok? ==> (AsState(), r.value) == ApplyAll(old(AsState()), ops).value
      ensures r.Err? ==> r.error == ApplyAll(old(AsState()), ops).error
    {
      hide Apply;
      ghost var start := ApplyAll(AsState(), ops);
      var undos: seq<Undo> := [];
      if start.Ok? { assert [] + start.value.1 == start.value.1; }
      for i := 0 to |ops|
        invariant start == Runs.Prepend(undos, ApplyAll(AsState(), ops[i..]))
      {
        Runs.PrependStep(Apply, AsState(), undos, ops[i..]);
        assert ops[i..][0] == ops[i] && ops[i..][1..] == ops[i + 1..];
        var u :- Perform(ops[i]);
        undos := undos + [u];
      }
      assert undos + [] == undos;
      return Ok(undos);
    }

    /** Undoes, last first, what a run from `before` did. No guard rejects, and
        every getter then answers as before the run, exactly when the run's
        starting point allows it. */
    method UndoEverything(undos: seq<Undo>, ghost before: State, ghost ops: seq<Op>) returns (r: Outcome<()>)
      requires Tidy(before)
      requires ApplyAll(before, ops).Ok? && undos == ApplyAll(before, ops).value.1
      requires SameView(AsState(), ApplyAll(before, ops).value.0)
      modifies this
      ensures r == Unit(UndoAll(old(AsState()), undos))
      ensures r.Ok? <==> CreatesFromZero(before, ops)
      ensures r.Ok? ==> SameView(AsState(), before)
      ensures r.Ok? ==> forall id ::
                        && GetOrderData(id) == OrderOf(before, id)
                        && GetAskBalance(id) == AskOf(before, id)
                        && GetGiveBalance(id) == GiveOf(before, id)
    {
      hide ApplyAll, CreatesFromZero;
      ghost var s0 := AsState();
      RunUndoneIff(before, ops, s0);
      var i := |undos|;
      while i > 0
        invariant 0 <= i <= |undos|
        invariant UndoAll(s0, undos[i..]) == Ok(AsState())
      {
        i := i - 1;
        assert undos[i..][0] == undos[i] && undos[i..][1..] == undos[i + 1..];
        var done := Undo(undos[i]);
        if done.Err? {
          Runs.UndoStops(UndoOne, s0, undos, i);
          return done;
        }
      }
      assert undos[0..] == undos;
      return Ok(());
    }

    /** Takes over the changes of a cache built on this one: the loops over its
        data, its ask balances and its give balances, in any order of keys. */
    method BatchWrite(
      data: DataDeltas<Id, OrderData>, ask: AmountDeltas<Id>, give: AmountDeltas<Id>) returns (r: Outcome<()>)
      requires Tidy(AsState()) && Normal(ask) && Normal(give)
      modifies this
      ensures forall p :: r == Unit(Flush(old(AsState()), State(p, data, ask, give)))
      ensures r.Ok? ==> forall p :: AsState() == Flush(old(AsState()), State(p, data, ask, give)).value
    {
      var mergedData := MergeDeltaData(orderData, data);
      if mergedData.Err? {
        return Err(AccountingError(mergedData.error));
      }
      orderData := mergedData.value;
      var mergedAsk := MergeDeltaAmounts(askBalances, ask);
      if mergedAsk.Err? {
        return Err(AccountingError(mergedAsk.error));
      }
      askBalances := mergedAsk.value;
      var mergedGive := MergeDeltaAmounts(giveBalances, give);
      if mergedGive.Err? {
        return Err(AccountingError(mergedGive.error));
      }
      giveBalances := mergedGive.value;
      return Ok(());
    }
  }

  /** Flushing a cache into the one it was built on fails exactly where two
      pending changes of a balance overflow together, and otherwise leaves the
      lower one with the upper one's answers. */
  method FlushToBase(upper: OrdersAccountingCache, lower: OrdersAccountingCache) returns (r: Outcome<()>)
    requires upper != lower && Tidy(lower.AsState()) && Tidy(upper.AsState())
    requires BuiltOn(upper.AsState(), lower.AsState()) && WellRooted(upper.AsState())
    modifies lower
    ensures r.Ok? <==> && AmountsMergeable(old(lower.askBalances), upper.askBalances)
                       && AmountsMergeable(old(lower.giveBalances), upper.giveBalances)
    ensures r.Err? ==> r.error == AccountingError(DeltaAdditionFailed)
    ensures r.Ok? ==> Tidy(lower.AsState())
    ensures r.Ok? ==> forall id ::
                        && lower.GetOrderData(id) == upper.GetOrderData(id)
                        && lower.GetAskBalance(id) == upper.GetAskBalance(id)
                        && lower.GetGiveBalance(id) == upper.GetGiveBalance(id)
  {
    ghost var l, u := lower.AsState(), upper.AsState();
    FlushIff(l, u);
    hide Flush, AmountsMergeable, OrderOf, AskOf, GiveOf;
    r := lower.BatchWrite(upper.orderData, upper.askBalances, upper.giveBalances);
    assert State(u.parent, upper.orderData, upper.askBalances, upper.giveBalances) == u;
  }
}
