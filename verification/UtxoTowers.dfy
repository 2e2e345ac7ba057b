/** Caches stacked on caches over the database: flushing a whole stack, arbitrary
    runs of calls, and nested connect/disconnect histories. */
module UtxoTowers {
  import opened Wrappers
  import opened UtxoLayers
  import opened UtxoPrograms

  datatype Tower = Db(coins: Coins) | Over(below: Tower, entries: Entries) {

    function View(): Coins {
      match this
      case Db(c) => c
      case Over(b, es) => Layer(b.View(), es).View()
    }

    ghost predicate Inv() {
      match this
      case Db(_) => true
      case Over(b, es) => b.Inv() && Layer(b.View(), es).Inv()
    }

    function Top(): Layer
      requires Over?
    {
      Layer(below.View(), entries)
    }

    function Height(): nat {
      match this
      case Db(_) => 0
      case Over(b, _) => b.Height() + 1
    }

    /** flush_to_base: the top cache is consumed into what it was built on. */
    function Flush(): (r: Result<Tower, Error>)
      requires Over?
      ensures r.Ok? ==> r.value.Height() == Height() - 1
    {
      match below
      case Db(c) => Ok(Db(WriteDb(c, entries)))
      case Over(b, es) =>
        if Mergeable(es, entries) then Ok(Over(b, Merge(es, entries))) else Err(FreshUtxoAlreadyExists)
    }

    /** Flushing top down until only the database is left. */
    function FlushAll(): Result<Coins, Error>
      decreases Height()
    {
      match this
      case Db(c) => Ok(c)
      case Over(_, _) =>
        var t := Flush();
        if t.Err? then Err(t.error) else t.value.FlushAll()
    }
  }

  lemma FlushKeepsView(t: Tower)
    requires t.Over? && t.Inv()
    ensures t.Flush().Ok?
    ensures t.Flush().value.Inv()
    ensures t.Flush().value.View() == t.View()
  {
    match t.below
    case Db(c) => WriteDbRefines(t.Top());
    case Over(b, es) => FlushRefines(t.below.Top(), t.Top());
  }

  /** However many caches are stacked, flushing them all leaves the database
      with exactly the coins the topmost cache showed. */
  lemma {:induction false} FlushAllGivesTopView(t: Tower)
    requires t.Inv()
    ensures t.FlushAll() == Ok(t.View())
    decreases t.Height()
  {
    if t.Db? {
    } else {
      FlushKeepsView(t);
      FlushAllGivesTopView(t.Flush().value);
    }
  }

  // ---------- arbitrary runs ----------

  /** Something a block brings: a transaction or a block reward. */
  datatype Event =
    | TxEvent(tx: Tx, origin: UtxoSource)
    | RewardEvent(reward: Reward, block: Id, height: nat)

  function ConnectProgram(e: Event): seq<Prim> {
    match e
    case TxEvent(tx, origin) => ConnectTx(tx, origin)
    case RewardEvent(reward, block, height) => ConnectReward(reward, block, height)
  }

  /** A disconnection, with whatever undo the caller hands in. */
  datatype Reversal =
    | TxReversal(tx: Tx, txUndo: seq<Option<Utxo>>)
    | RewardReversal(reward: Reward, block: Id, rewardUndo: Option<seq<Utxo>>)
  {
    /** The source asserts that a transaction's undo has a slot for every input. */
    predicate Fits() {
      TxReversal? ==> |txUndo| == |tx.inputs|
    }

    function Program(): seq<Prim>
      requires Fits()
    {
      match this
      case TxReversal(tx, undo) => DisconnectTx(tx, undo)
      case RewardReversal(reward, block, undo) => DisconnectReward(reward, block, undo)
    }
  }

  datatype Cmd =
    | Query(o: OutPoint)
    | Add(o: OutPoint, u: Utxo, overwrite: bool)
    | Spend(o: OutPoint)
    | Fetch(o: OutPoint)
    | Uncache(o: OutPoint)
    | Connect(event: Event)
    | Disconnect(reversal: Reversal)
    | Open   // put a new, empty cache on top
    | Close  // flush the top cache; over the bare database a new empty one is opened
  {
    predicate Fits() {
      Disconnect? ==> reversal.Fits()
    }
  }

  /** What a caller learns from a call. Whether an eviction found a clean entry
      is not a fact about coins and is not told. */
  datatype Obs = Done | Saw(coin: Option<Utxo>) | Took(coins: seq<Utxo>) | Refused

  /** A program on the top cache; a refused one leaves what it did before. */
  function RunOnTop(t: Tower, prog: seq<Prim>): (r: (Tower, Obs))
    requires t.Over?
    ensures r.0.Over?
  {
    var ran := RunLayer(t.Top(), prog);
    (t.(entries := LayerAfter(t.Top(), prog).entries), if ran.Err? then Refused else Took(ran.value.1))
  }

  function Step(t: Tower, cmd: Cmd): (r: (Tower, Obs))
    requires t.Over? && cmd.Fits()
    ensures r.0.Over?
  {
    match cmd
    case Query(o) => (t, Saw(t.Top().Query(o)))
    case Add(o, u, overwrite) =>
      var l := t.Top().Add(o, u, overwrite);
      if l.Err? then (t, Refused) else (t.(entries := l.value.entries), Done)
    case Spend(o) =>
      var (l, r) := t.Top().Spend(o);
      (t.(entries := l.entries), if r.Err? then Refused else Took([r.value]))
    case Fetch(o) =>
      var (l, found) := t.Top().Fetch(o);
      (t.(entries := l.entries), Saw(if found.Some? then found.value.utxo else None))
    case Uncache(o) =>
      var l := t.Top().Uncache(o);
      if l.Err? then (t, Done) else (t.(entries := l.value.entries), Done)
    case Connect(e) => RunOnTop(t, ConnectProgram(e))
    case Disconnect(r) => RunOnTop(t, r.Program())
    case Open =>
      (Over(t, map[]), Done)
    case Close =>
      var f := t.Flush();
      if f.Err? then (t, Refused)
      else if f.value.Db? then (Over(f.value, map[]), Done)
      else (f.value, Done)
  }

  function RunOnCoins(m: Coins, prog: seq<Prim>): (Coins, Obs) {
    var ran := RunCoins(m, prog);
    (CoinsAfter(m, prog), if ran.None? then Refused else Took(ran.value.1))
  }

  /** The same calls on a plain outpoint-to-utxo map. */
  function StepCoins(m: Coins, cmd: Cmd): (Coins, Obs)
    requires cmd.Fits()
  {
    match cmd
    case Query(o) => (m, Saw(Find(m, o)))
    case Add(o, u, overwrite) => if !overwrite && o in m then (m, Refused) else (m[o := u], Done)
    case Spend(o) => if o in m then (m - {o}, Took([m[o]])) else (m, Refused)
    case Fetch(o) => (m, Saw(Find(m, o)))
    case Uncache(_) => (m, Done)
    case Connect(e) => RunOnCoins(m, ConnectProgram(e))
    case Disconnect(r) => RunOnCoins(m, r.Program())
    case Open => (m, Done)
    case Close => (m, Done)
  }

  /** Every non-overwriting add of the call is of an outpoint the parent does
      not alone hold unspent when the call comes to it. */
  predicate CmdSafe(t: Tower, cmd: Cmd)
    requires t.Over? && cmd.Fits()
  {
    match cmd
    case Add(o, _, overwrite) => overwrite || t.Top().AddSafe(o)
    case Connect(e) => AddsSafe(t.Top(), ConnectProgram(e))
    case Disconnect(r) => AddsSafe(t.Top(), r.Program())
    case _ => true
  }

  lemma EmptyLayerView(m: Coins)
    ensures Layer(m, map[]).Inv() && Layer(m, map[]).View() == m
  {
    SameCoins(Layer(m, map[]).View(), m);
  }

  lemma ProgramOnTop(t: Tower, prog: seq<Prim>)
    requires t.Over? && t.Inv() && AddsSafe(t.Top(), prog)
    ensures RunOnTop(t, prog).0.Inv()
    ensures (RunOnTop(t, prog).0.View(), RunOnTop(t, prog).1) == RunOnCoins(t.View(), prog)
  {
    ProgramRefines(t.Top(), prog);
    assert RunOnTop(t, prog).0.Top() == LayerAfter(t.Top(), prog);
  }

  lemma StepRefines(t: Tower, cmd: Cmd)
    requires t.Over? && t.Inv() && cmd.Fits() && CmdSafe(t, cmd)
    ensures Step(t, cmd).0.Inv()
    ensures (Step(t, cmd).0.View(), Step(t, cmd).1) == StepCoins(t.View(), cmd)
  {
    hide RunOnTop, RunOnCoins;
    var l := t.Top();
    match cmd
    case Query(o) => assert Find(l.View(), o) == l.Query(o);
    case Add(o, u, overwrite) => AddRefines(l, o, u, overwrite);
    case Spend(o) =>
      SpendRefines(l, o);
      if o !in l.View() { assert l.View() - {o} == l.View(); }
    case Fetch(o) =>
      FetchRefines(l, o);
      assert Find(l.View(), o) == l.Query(o);
    case Uncache(o) => UncacheRefines(l, o);
    case Connect(e) => ProgramOnTop(t, ConnectProgram(e));
    case Disconnect(r) => ProgramOnTop(t, r.Program());
    case Open => EmptyLayerView(t.View());
    case Close =>
      FlushKeepsView(t);
      EmptyLayerView(t.Flush().value.View());
  }

  predicate AllFit(cmds: seq<Cmd>) {
    forall i :: 0 <= i < |cmds| ==> cmds[i].Fits()
  }

  function Run(t: Tower, cmds: seq<Cmd>): (r: (Tower, seq<Obs>))
    requires t.Over? && AllFit(cmds)
    ensures r.0.Over?
    decreases |cmds|
  {
    if cmds == [] then (t, [])
    else
      var (t', obs) := Step(t, cmds[0]);
      var (end, rest) := Run(t', cmds[1..]);
      (end, [obs] + rest)
  }

  function RunPlain(m: Coins, cmds: seq<Cmd>): (Coins, seq<Obs>)
    requires AllFit(cmds)
    decreases |cmds|
  {
    if cmds == [] then (m, [])
    else
      var (m', obs) := StepCoins(m, cmds[0]);
      var (end, rest) := RunPlain(m', cmds[1..]);
      (end, [obs] + rest)
  }

  predicate RunSafe(t: Tower, cmds: seq<Cmd>)
    requires t.Over? && AllFit(cmds)
    decreases |cmds|
  {
    cmds != [] ==> CmdSafe(t, cmds[0]) && RunSafe(Step(t, cmds[0]).0, cmds[1..])
  }

  /** Every run, refused calls included, looks to its callers like the same
      calls on a plain map. */
  lemma {:induction false} RunRefinesMap(t: Tower, cmds: seq<Cmd>)
    requires t.Over? && t.Inv() && AllFit(cmds) && RunSafe(t, cmds)
    ensures Run(t, cmds).0.Inv()
    ensures (Run(t, cmds).0.View(), Run(t, cmds).1) == RunPlain(t.View(), cmds)
    decreases |cmds|
  {
    hide Step, StepCoins, CmdSafe;
    if cmds == [] {
    } else {
      StepRefines(t, cmds[0]);
      RunRefinesMap(Step(t, cmds[0]).0, cmds[1..]);
    }
  }

  // ---------- exact flags in every run ----------

  ghost predicate TowerExact(t: Tower) {
    t.Over? ==> t.Top().Exact() && t.Top().Traceless() && TowerExact(t.below)
  }

  /** Coins are only overwritten where the top cache or its parent has them. */
  predicate OverwriteSafe(t: Tower, cmd: Cmd)
    requires t.Over?
  {
    cmd.Add? && cmd.overwrite ==> cmd.o in t.below.View() || cmd.o in t.entries
  }

  lemma {:induction false} ProgramKeepsExact(l: Layer, prog: seq<Prim>)
    requires l.Inv() && AddsSafe(l, prog) && l.Exact() && l.Traceless()
    ensures LayerAfter(l, prog).Exact() && LayerAfter(l, prog).Traceless()
    decreases |prog|
  {
    hide Layer.Exact, Layer.Traceless, Layer.Inv;
    if prog == [] {
    } else {
      match prog[0]
      case PSpend(o) =>
        SpendRefines(l, o);
        CallsKeepExact(l, o);
        CallsLeaveNoTrace(l, o, Utxo(TxOutput(Burn, 0), Mempool), false);
        if l.Spend(o).1.Ok? { ProgramKeepsExact(l.Spend(o).0, prog[1..]); }
      case PAdd(o, u) =>
        AddRefines(l, o, u, false);
        AddKeepsExactIff(l, o, u, false);
        CallsLeaveNoTrace(l, o, u, false);
        if l.Add(o, u, false).Ok? { ProgramKeepsExact(l.Add(o, u, false).value, prog[1..]); }
      case PFail(_) =>
    }
  }

  lemma StepKeepsExact(t: Tower, cmd: Cmd)
    requires t.Over? && t.Inv() && TowerExact(t) && cmd.Fits() && CmdSafe(t, cmd) && OverwriteSafe(t, cmd)
    ensures TowerExact(Step(t, cmd).0)
  {
    hide Layer.Exact, Layer.Traceless;
    var l := t.Top();
    var any := Utxo(TxOutput(Burn, 0), Mempool);
    match cmd
    case Query(_) =>
    case Add(o, u, overwrite) =>
      AddRefines(l, o, u, overwrite);
      AddKeepsExactIff(l, o, u, overwrite);
      CallsLeaveNoTrace(l, o, u, overwrite);
    case Spend(o) =>
      SpendRefines(l, o);
      CallsKeepExact(l, o);
      CallsLeaveNoTrace(l, o, any, false);
    case Fetch(o) =>
      FetchRefines(l, o);
      CallsKeepExact(l, o);
      CallsLeaveNoTrace(l, o, any, false);
    case Uncache(o) =>
      UncacheRefines(l, o);
      CallsKeepExact(l, o);
      CallsLeaveNoTrace(l, o, any, false);
    case Connect(e) =>
      ProgramRefines(l, ConnectProgram(e));
      ProgramKeepsExact(l, ConnectProgram(e));
    case Disconnect(r) =>
      ProgramRefines(l, r.Program());
      ProgramKeepsExact(l, r.Program());
    case Open => EmptyIsExact(t.View());
    case Close =>
      if t.below.Over? {
        FlushRefines(t.below.Top(), t.Top());
        FlushKeepsExact(t.below.Top(), t.Top());
      } else {
        EmptyIsExact(t.Flush().value.View());
      }
  }

  lemma EmptyIsExact(m: Coins)
    ensures Layer(m, map[]).Exact() && Layer(m, map[]).Traceless()
  {
  }

  predicate OverwritesSafe(t: Tower, cmds: seq<Cmd>)
    requires t.Over? && AllFit(cmds)
    decreases |cmds|
  {
    cmds != [] ==> OverwriteSafe(t, cmds[0]) && OverwritesSafe(Step(t, cmds[0]).0, cmds[1..])
  }

  /** So in every run, in every cache of the stack, FRESH is exactly the entries
      of coins the cache below does not show, and no cache keeps an entry for a
      coin that neither it nor the one below shows. */
  lemma {:induction false} RunKeepsExact(t: Tower, cmds: seq<Cmd>)
    requires t.Over? && t.Inv() && TowerExact(t) && AllFit(cmds) && RunSafe(t, cmds) && OverwritesSafe(t, cmds)
    ensures TowerExact(Run(t, cmds).0)
    decreases |cmds|
  {
    hide Step, CmdSafe, TowerExact, OverwriteSafe;
    if cmds == [] {
    } else {
      StepRefines(t, cmds[0]);
      StepKeepsExact(t, cmds[0]);
      RunKeepsExact(Step(t, cmds[0]).0, cmds[1..]);
    }
  }

  /** Opening and closing are the only calls that change the height of the
      stack; the last cache over the database is never closed. */
  lemma StepHeight(t: Tower, cmd: Cmd)
    requires t.Over? && t.Inv() && cmd.Fits()
    ensures Step(t, cmd).0.Height() ==
              if cmd.Open? then t.Height() + 1
              else if cmd.Close? && t.Height() > 1 then t.Height() - 1
              else t.Height()
  {
    hide RunLayer, LayerAfter;
    if cmd.Close? { FlushKeepsView(t); }
  }

  // ---------- the flags in every run ----------

  predicate TowerFlags(t: Tower) {
    t.Over? ==> GoodFlags(t.entries) && TowerFlags(t.below)
  }

  lemma {:induction false} ProgramKeepsFlags(l: Layer, prog: seq<Prim>)
    requires GoodFlags(l.entries)
    ensures GoodFlags(LayerAfter(l, prog).entries)
    decreases |prog|
  {
    hide GoodFlags;
    if prog == [] {
    } else {
      match prog[0]
      case PSpend(o) =>
        CallsKeepFlags(l, o, Utxo(TxOutput(Burn, 0), Mempool), false);
        ProgramKeepsFlags(l.Spend(o).0, prog[1..]);
      case PAdd(o, u) =>
        CallsKeepFlags(l, o, u, false);
        if l.Add(o, u, false).Ok? { ProgramKeepsFlags(l.Add(o, u, false).value, prog[1..]); }
      case PFail(_) =>
    }
  }

  lemma StepKeepsFlags(t: Tower, cmd: Cmd)
    requires t.Over? && TowerFlags(t) && cmd.Fits()
    ensures TowerFlags(Step(t, cmd).0)
  {
    var any := Utxo(TxOutput(Burn, 0), Mempool);
    match cmd
    case Query(_) =>
    case Add(o, u, overwrite) => CallsKeepFlags(t.Top(), o, u, overwrite);
    case Spend(o) => CallsKeepFlags(t.Top(), o, any, false);
    case Fetch(o) => CallsKeepFlags(t.Top(), o, any, false);
    case Uncache(o) => CallsKeepFlags(t.Top(), o, any, false);
    case Connect(e) => ProgramKeepsFlags(t.Top(), ConnectProgram(e));
    case Disconnect(r) => ProgramKeepsFlags(t.Top(), r.Program());
    case Open =>
    case Close =>
      if t.below.Over? && Mergeable(t.below.entries, t.entries) {
        MergeKeepsFlags(t.below.entries, t.entries);
      }
  }

  /** No run, safe or not, ever makes an entry whose flags the constructor
      asserts against, in any cache of the stack. */
  lemma {:induction false} RunKeepsFlags(t: Tower, cmds: seq<Cmd>)
    requires t.Over? && TowerFlags(t) && AllFit(cmds)
    ensures TowerFlags(Run(t, cmds).0)
    decreases |cmds|
  {
    hide Step, TowerFlags;
    if cmds == [] {
    } else {
      StepKeepsFlags(t, cmds[0]);
      RunKeepsFlags(Step(t, cmds[0]).0, cmds[1..]);
    }
  }

  // ---------- connect/disconnect histories ----------

  function DisconnectProgram(e: Event, spent: seq<Utxo>): seq<Prim>
    requires e.TxEvent? ==> |spent| == |Outpoints(e.tx.inputs)|
  {
    match e
    case TxEvent(tx, _) => DisconnectTx(tx, TxUndo(tx.inputs, spent))
    case RewardEvent(reward, block, _) => DisconnectReward(reward, block, RewardUndo(spent))
  }

  /** Calls that leave the coins as they are. */
  predicate Quiet(cmd: Cmd) {
    cmd.Query? || cmd.Fetch? || cmd.Uncache? || cmd.Open? || cmd.Close?
  }

  /** A well-nested history: an event is connected, anything well nested
      happens, the event is disconnected with the undo it returned, and so on;
      fetches, evictions, new caches and flushes may come in between. */
  datatype History =
    | End
    | Idle(cmd: Cmd, rest: History)
    | Round(event: Event, inner: History, rest: History)

  datatype Outcome = Finished(tower: Tower) | ConnectRefused | Broken

  function Play(t: Tower, h: History): (r: Outcome)
    requires t.Over?
    ensures r.Finished? ==> r.tower.Over?
    decreases h
  {
    match h
    case End => Finished(t)
    case Idle(cmd, rest) =>
      if !Quiet(cmd) then Broken
      else
        var (t', obs) := Step(t, cmd);
        if obs.Refused? then Broken else Play(t', rest)
    case Round(e, inner, rest) =>
      var there := RunLayer(t.Top(), ConnectProgram(e));
      if there.Err? then ConnectRefused
      else
        var (l, spent) := there.value;
        var mid := Play(t.(entries := l.entries), inner);
        if !mid.Finished? then mid
        else if e.TxEvent? && |spent| != |Outpoints(e.tx.inputs)| then Broken
        else
          var back := RunLayer(mid.tower.Top(), DisconnectProgram(e, spent));
          if back.Err? then Broken
          else Play(mid.tower.(entries := back.value.0.entries), rest)
  }

  /** What is asked of a history, in terms of the coins alone: an event creates
      no coin that is already there, and reward inputs are aligned. */
  ghost predicate HistoryOk(m: Coins, h: History)
    decreases h
  {
    match h
    case End => true
    case Idle(cmd, rest) => Quiet(cmd) && HistoryOk(m, rest)
    case Round(e, inner, rest) =>
      && (forall i :: 0 <= i < |ConnectProgram(e)| && ConnectProgram(e)[i].PAdd? ==> ConnectProgram(e)[i].o !in m)
      && (e.RewardEvent? ==> RewardInputsAligned(e.reward.inputs))
      && (RunCoins(m, ConnectProgram(e)).Some? ==> HistoryOk(RunCoins(m, ConnectProgram(e)).value.0, inner))
      && HistoryOk(m, rest)
  }

  /** Every connection of the history goes through on a plain map. */
  predicate Connects(m: Coins, h: History)
    decreases h
  {
    match h
    case End => true
    case Idle(_, rest) => Connects(m, rest)
    case Round(e, inner, rest) =>
      && RunCoins(m, ConnectProgram(e)).Some?
      && Connects(RunCoins(m, ConnectProgram(e)).value.0, inner)
      && Connects(m, rest)
  }

  lemma EventRestored(m: Coins, e: Event)
    requires RunCoins(m, ConnectProgram(e)).Some?
    requires e.RewardEvent? ==> RewardInputsAligned(e.reward.inputs)
    ensures var (m', spent) := RunCoins(m, ConnectProgram(e)).value;
            && (e.TxEvent? ==> |spent| == |Outpoints(e.tx.inputs)|)
            && RunCoins(m', DisconnectProgram(e, spent)).Some?
            && RunCoins(m', DisconnectProgram(e, spent)).value.0 == m
  {
    match e
    case TxEvent(tx, origin) => TxRestored(m, tx, origin);
    case RewardEvent(reward, block, height) => RewardRestoredIff(m, reward, block, height);
  }

  /** Connecting on a cache agrees with connecting on the plain map. */
  lemma ConnectAgrees(l: Layer, prog: seq<Prim>)
    requires l.Inv()
    requires forall i :: 0 <= i < |prog| && prog[i].PAdd? ==> prog[i].o !in l.View()
    ensures RunLayer(l, prog).Ok? <==> RunCoins(l.View(), prog).Some?
  {
    forall i | 0 <= i < |prog| && prog[i].PAdd? ensures l.AddSafe(prog[i].o) {
      assert Find(l.View(), prog[i].o) == l.Query(prog[i].o);
    }
    SafeFromTheStart(l, prog);
    ProgramRefines(l, prog);
  }

  /** No disconnect or flush of a well-nested history ever fails, the history
      runs to its end exactly when every connection is possible on the coins
      alone, and at the end the view is the one it started from. */
  lemma {:induction false} HistoryRestoresView(t: Tower, h: History)
    requires t.Over? && t.Inv() && HistoryOk(t.View(), h)
    ensures Play(t, h) != Broken
    ensures Play(t, h).Finished? <==> Connects(t.View(), h)
    ensures Play(t, h).Finished? ==> Play(t, h).tower.Inv() && Play(t, h).tower.View() == t.View()
    decreases h
  {
    match h
    case End =>
    case Idle(cmd, rest) =>
      StepRefines(t, cmd);
      HistoryRestoresView(Step(t, cmd).0, rest);
    case Round(e, inner, rest) =>
      var m, prog := t.View(), ConnectProgram(e);
      ConnectAgrees(t.Top(), prog);
      if RunCoins(m, prog).Some? {
        CoinsThenLayer(t.Top(), prog);
        var (l, spent) := RunLayer(t.Top(), prog).value;
        var t1 := t.(entries := l.entries);
        assert t1.Top() == l;
        HistoryRestoresView(t1, inner);
        var mid := Play(t1, inner);
        if mid.Finished? {
          EventRestored(m, e);
          CoinsThenLayer(mid.tower.Top(), DisconnectProgram(e, spent));
          var back := RunLayer(mid.tower.Top(), DisconnectProgram(e, spent));
          var t2 := mid.tower.(entries := back.value.0.entries);
          assert t2.Top() == back.value.0;
          HistoryRestoresView(t2, rest);
        }
      }
  }
}
