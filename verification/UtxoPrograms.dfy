/** Connecting and disconnecting transactions and block rewards, written as the
    list of single-coin steps each call performs, in order. */
module UtxoPrograms {
  import opened Wrappers
  import opened UtxoLayers

  datatype TxInput = FromUtxo(outpoint: OutPoint) | FromAccount(nonce: nat) | FromAccountCommand(nonce: nat)

  datatype Tx = Tx(id: Id, inputs: seq<TxInput>, outputs: seq<TxOutput>)

  datatype Reward = Reward(inputs: Option<seq<TxInput>>, outputs: Option<seq<TxOutput>>)

  /** A step of a call: spend a coin, add one without overwriting, or give up. */
  datatype Prim = PSpend(o: OutPoint) | PAdd(o: OutPoint, u: Utxo) | PFail(e: Error)

  type Coin = (OutPoint, Utxo)

  predicate IncludedInUtxoSet(output: TxOutput) {
    output.kind in {Transfer, LockThenTransfer, CreateStakePool, ProduceBlockFromStake, IssueNft, Htlc}
  }

  /** Output indices are 32-bit in an outpoint. */
  function OutPointOf(source: SourceId, index: nat): OutPoint {
    OutPoint(source, index % 0x1_0000_0000)
  }

  function Outpoints(inputs: seq<TxInput>): seq<OutPoint> {
    if inputs == [] then []
    else (if inputs[0].FromUtxo? then [inputs[0].outpoint] else []) + Outpoints(inputs[1..])
  }

  function Spends(os: seq<OutPoint>): seq<Prim> {
    if os == [] then [] else [PSpend(os[0])] + Spends(os[1..])
  }

  function Adds(cs: seq<Coin>): seq<Prim> {
    if cs == [] then [] else [PAdd(cs[0].0, cs[0].1)] + Adds(cs[1..])
  }

  function Firsts(cs: seq<Coin>): seq<OutPoint> {
    if cs == [] then [] else [cs[0].0] + Firsts(cs[1..])
  }

  function Pairs(os: seq<OutPoint>, us: seq<Utxo>): seq<Coin>
    requires |os| == |us|
  {
    if os == [] then [] else [(os[0], us[0])] + Pairs(os[1..], us[1..])
  }

  // ---------- the calls as programs ----------

  /** The coins a transaction creates: only some output kinds enter the set. */
  function OutputCoins(source: SourceId, outputs: seq<TxOutput>, index: nat, origin: UtxoSource): seq<Coin> {
    if outputs == [] then []
    else
      (if IncludedInUtxoSet(outputs[0]) then [(OutPointOf(source, index), Utxo(outputs[0], origin))] else [])
      + OutputCoins(source, outputs[1..], index + 1, origin)
  }

  function ConnectTx(tx: Tx, origin: UtxoSource): seq<Prim> {
    Spends(Outpoints(tx.inputs)) + Adds(OutputCoins(TransactionId(tx.id), tx.outputs, 0, origin))
  }

  /** The undo record: one slot an input, empty for account inputs. */
  function TxUndo(inputs: seq<TxInput>, spent: seq<Utxo>): (undo: seq<Option<Utxo>>)
    requires |spent| == |Outpoints(inputs)|
    ensures |undo| == |inputs|
  {
    if inputs == [] then []
    else if inputs[0].FromUtxo? then
      [Some(spent[0])] + TxUndo(inputs[1..], spent[1..])
    else
      [None] + TxUndo(inputs[1..], spent)
  }

  /** Restoring the spent inputs; a slot that names an account input is refused. */
  function Readds(tx: Id, inputs: seq<TxInput>, undo: seq<Option<Utxo>>): seq<Prim>
    requires |undo| == |inputs|
  {
    if inputs == [] then []
    else
      (if undo[0].None? then []
       else if inputs[0].FromUtxo? then [PAdd(inputs[0].outpoint, undo[0].value)]
       else [PFail(TxInputAndUndoMismatch(tx))])
      + Readds(tx, inputs[1..], undo[1..])
  }

  function OutputOutpoints(source: SourceId, outputs: seq<TxOutput>, index: nat): seq<OutPoint> {
    if outputs == [] then []
    else
      (if IncludedInUtxoSet(outputs[0]) then [OutPointOf(source, index)] else [])
      + OutputOutpoints(source, outputs[1..], index + 1)
  }

  function DisconnectTx(tx: Tx, undo: seq<Option<Utxo>>): seq<Prim>
    requires |undo| == |tx.inputs|
  {
    Spends(OutputOutpoints(TransactionId(tx.id), tx.outputs, 0)) + Readds(tx.id, tx.inputs, undo)
  }

  /** Reward outputs of a kind outside the utxo set are refused. */
  function RewardAdds(block: Id, outputs: seq<TxOutput>, index: nat, height: nat): seq<Prim> {
    if outputs == [] then []
    else
      [if IncludedInUtxoSet(outputs[0])
       then PAdd(OutPointOf(BlockRewardId(block), index), Utxo(outputs[0], Blockchain(height)))
       else PFail(InvalidBlockRewardOutputType(block))]
      + RewardAdds(block, outputs[1..], index + 1, height)
  }

  function RewardOutpoints(block: Id, outputs: seq<TxOutput>, index: nat): seq<OutPoint> {
    if outputs == [] then []
    else [OutPointOf(BlockRewardId(block), index)] + RewardOutpoints(block, outputs[1..], index + 1)
  }

  function RewardInputs(reward: Reward): seq<TxInput> {
    if reward.inputs.Some? then reward.inputs.value else []
  }

  function RewardOutputs(reward: Reward): seq<TxOutput> {
    if reward.outputs.Some? then reward.outputs.value else []
  }

  function ConnectReward(reward: Reward, block: Id, height: nat): seq<Prim> {
    Spends(Outpoints(RewardInputs(reward))) + RewardAdds(block, RewardOutputs(reward), 0, height)
  }

  function RewardUndo(spent: seq<Utxo>): Option<seq<Utxo>> {
    if spent == [] then None else Some(spent)
  }

  /** Inputs are zipped with the spent coins before account inputs are dropped. */
  function ZipAdds(inputs: seq<TxInput>, us: seq<Utxo>): seq<Prim> {
    if inputs == [] || us == [] then []
    else
      (if inputs[0].FromUtxo? then [PAdd(inputs[0].outpoint, us[0])] else [])
      + ZipAdds(inputs[1..], us[1..])
  }

  function RewardReadds(reward: Reward, block: Id, undo: Option<seq<Utxo>>): seq<Prim> {
    if reward.inputs.None? then []
    else if undo.None? then [PFail(MissingBlockRewardUndo(block))]
    else ZipAdds(reward.inputs.value, undo.value)
  }

  function DisconnectReward(reward: Reward, block: Id, undo: Option<seq<Utxo>>): seq<Prim> {
    Spends(RewardOutpoints(block, RewardOutputs(reward), 0)) + RewardReadds(reward, block, undo)
  }

  // ---------- running a program on a plain map and on a cache ----------

  function RunCoins(m: Coins, prog: seq<Prim>): Option<(Coins, seq<Utxo>)>
    decreases |prog|
  {
    if prog == [] then Some((m, []))
    else match prog[0]
      case PSpend(o) =>
        if o !in m then None
        else
          var rest := RunCoins(m - {o}, prog[1..]);
          if rest.None? then None else Some((rest.value.0, [m[o]] + rest.value.1))
      case PAdd(o, u) => if o in m then None else RunCoins(m[o := u], prog[1..])
      case PFail(_) => None
  }

  function RunLayer(l: Layer, prog: seq<Prim>): Result<(Layer, seq<Utxo>), Error>
    decreases |prog|
  {
    if prog == [] then Ok((l, []))
    else match prog[0]
      case PSpend(o) =>
        var (l', r) := l.Spend(o);
        if r.Err? then Err(r.error)
        else
          var rest := RunLayer(l', prog[1..]);
          if rest.Err? then rest else Ok((rest.value.0, [r.value] + rest.value.1))
      case PAdd(o, u) =>
        var l' := l.Add(o, u, false);
        if l'.Err? then Err(l'.error) else RunLayer(l'.value, prog[1..])
      case PFail(e) => Err(e)
  }

  /** The cache a program leaves, whether it ends or stops at a refused step. */
  function LayerAfter(l: Layer, prog: seq<Prim>): Layer
    decreases |prog|
  {
    if prog == [] then l
    else match prog[0]
      case PSpend(o) =>
        var (l', r) := l.Spend(o);
        if r.Err? then l' else LayerAfter(l', prog[1..])
      case PAdd(o, u) =>
        var l' := l.Add(o, u, false);
        if l'.Err? then l else LayerAfter(l'.value, prog[1..])
      case PFail(_) => l
  }

  /** The coins a program leaves, whether it ends or stops at a refused step. */
  function CoinsAfter(m: Coins, prog: seq<Prim>): Coins
    decreases |prog|
  {
    if prog == [] then m
    else match prog[0]
      case PSpend(o) => if o !in m then m else CoinsAfter(m - {o}, prog[1..])
      case PAdd(o, u) => if o in m then m else CoinsAfter(m[o := u], prog[1..])
      case PFail(_) => m
  }

  lemma {:induction false} AfterIsResult(l: Layer, m: Coins, prog: seq<Prim>)
    ensures RunLayer(l, prog).Ok? ==> LayerAfter(l, prog) == RunLayer(l, prog).value.0
    ensures RunCoins(m, prog).Some? ==> CoinsAfter(m, prog) == RunCoins(m, prog).value.0
    decreases |prog|
  {
    if prog == [] {
    } else {
      match prog[0]
      case PSpend(o) => AfterIsResult(l.Spend(o).0, m - {o}, prog[1..]);
      case PAdd(o, u) =>
        var l' := l.Add(o, u, false);
        AfterIsResult(if l'.Ok? then l'.value else l, m[o := u], prog[1..]);
      case PFail(_) =>
    }
  }

  /** Every add the program comes to meets the caller's obligation there. */
  predicate AddsSafe(l: Layer, prog: seq<Prim>)
    decreases |prog|
  {
    prog != [] ==>
      match prog[0]
      case PSpend(o) => l.Spend(o).1.Ok? ==> AddsSafe(l.Spend(o).0, prog[1..])
      case PAdd(o, u) =>
        l.AddSafe(o) && (l.Add(o, u, false).Ok? ==> AddsSafe(l.Add(o, u, false).value, prog[1..]))
      case PFail(_) => true
  }

  lemma AddSafeKept(l: Layer, step: Prim, p: OutPoint)
    requires l.Inv() && l.AddSafe(p)
    ensures step.PSpend? ==> l.Spend(step.o).0.AddSafe(p)
    ensures step.PAdd? && l.Add(step.o, step.u, false).Ok? ==> l.Add(step.o, step.u, false).value.AddSafe(p)
  {
    if step.PSpend? && step.o in l.entries {
      assert l.EntryInv(step.o);
    }
  }

  /** Adds that are safe before the program are safe when it comes to them. */
  lemma {:induction false} SafeFromTheStart(l: Layer, prog: seq<Prim>)
    requires l.Inv() && forall i :: 0 <= i < |prog| && prog[i].PAdd? ==> l.AddSafe(prog[i].o)
    ensures AddsSafe(l, prog)
    decreases |prog|
  {
    if prog == [] {
    } else {
      var rest := prog[1..];
      forall i | 0 <= i < |rest| && rest[i].PAdd?
        ensures prog[0].PSpend? ==> l.Spend(prog[0].o).0.AddSafe(rest[i].o)
        ensures prog[0].PAdd? && l.Add(prog[0].o, prog[0].u, false).Ok? ==>
                  l.Add(prog[0].o, prog[0].u, false).value.AddSafe(rest[i].o)
      {
        assert prog[i + 1] == rest[i];
        AddSafeKept(l, prog[0], rest[i].o);
      }
      match prog[0]
      case PSpend(o) =>
        SpendRefines(l, o);
        SafeFromTheStart(l.Spend(o).0, rest);
      case PAdd(o, u) =>
        AddRefines(l, o, u, false);
        if l.Add(o, u, false).Ok? { SafeFromTheStart(l.Add(o, u, false).value, rest); }
      case PFail(_) =>
    }
  }

  /** What the plain map accepts, the cache accepts with the same outcome. */
  lemma {:induction false} CoinsThenLayer(l: Layer, prog: seq<Prim>)
    requires l.Inv()
    requires RunCoins(l.View(), prog).Some?
    ensures RunLayer(l, prog).Ok?
    ensures RunLayer(l, prog).value.1 == RunCoins(l.View(), prog).value.1
    ensures RunLayer(l, prog).value.0.Inv()
    ensures RunLayer(l, prog).value.0.base == l.base
    ensures RunLayer(l, prog).value.0.View() == RunCoins(l.View(), prog).value.0
    decreases |prog|
  {
    if prog == [] {
    } else {
      match prog[0]
      case PSpend(o) =>
        SpendRefines(l, o);
        CoinsThenLayer(l.Spend(o).0, prog[1..]);
      case PAdd(o, u) =>
        assert Find(l.View(), o) == l.Query(o);
        AddRefines(l, o, u, false);
        CoinsThenLayer(l.Add(o, u, false).value, prog[1..]);
      case PFail(_) =>
    }
  }

  /** While the caller keeps its obligation, the cache accepts exactly what the
      plain map accepts, and the coins it shows afterwards are the map's even
      where a step was refused. */
  lemma {:induction false} ProgramRefines(l: Layer, prog: seq<Prim>)
    requires l.Inv() && AddsSafe(l, prog)
    ensures RunLayer(l, prog).Ok? <==> RunCoins(l.View(), prog).Some?
    ensures RunLayer(l, prog).Ok? ==> RunLayer(l, prog).value.1 == RunCoins(l.View(), prog).value.1
    ensures LayerAfter(l, prog).Inv() && LayerAfter(l, prog).base == l.base
    ensures LayerAfter(l, prog).View() == CoinsAfter(l.View(), prog)
    decreases |prog|
  {
    if prog == [] {
    } else {
      match prog[0]
      case PSpend(o) =>
        SpendRefines(l, o);
        if o in l.View() { ProgramRefines(l.Spend(o).0, prog[1..]); } else { assert l.View() - {o} == l.View(); }
      case PAdd(o, u) =>
        AddRefines(l, o, u, false);
        if o !in l.View() { ProgramRefines(l.Add(o, u, false).value, prog[1..]); }
      case PFail(_) =>
    }
  }

  // ---------- what a program leaves behind ----------

  lemma {:induction false} RunCoinsAppend(m: Coins, p: seq<Prim>, q: seq<Prim>)
    ensures RunCoins(m, p).None? ==> RunCoins(m, p + q).None?
    ensures RunCoins(m, p).Some? ==>
              var (m1, us) := RunCoins(m, p).value;
              var rest := RunCoins(m1, q);
              RunCoins(m, p + q) == if rest.None? then None else Some((rest.value.0, us + rest.value.1))
    decreases |p|
  {
    if p == [] {
      assert p + q == q;
      if RunCoins(m, q).Some? {
        assert [] + RunCoins(m, q).value.1 == RunCoins(m, q).value.1;
      }
    } else {
      assert (p + q)[0] == p[0] && (p + q)[1..] == p[1..] + q;
      match p[0]
      case PSpend(o) =>
        if o in m {
          RunCoinsAppend(m - {o}, p[1..], q);
          if RunCoins(m, p + q).Some? {
            var us := RunCoins(m - {o}, p[1..]).value.1;
            var vs := RunCoins(RunCoins(m, p).value.0, q).value.1;
            assert [m[o]] + (us + vs) == ([m[o]] + us) + vs;
          }
        }
      case PAdd(o, u) =>
        if o !in m { RunCoinsAppend(m[o := u], p[1..], q); }
      case PFail(_) =>
    }
  }

  lemma SpendsCons(os: seq<OutPoint>)
    requires os != []
    ensures Spends(os) != [] && Spends(os)[0] == PSpend(os[0]) && Spends(os)[1..] == Spends(os[1..])
  {
  }

  lemma AddsCons(cs: seq<Coin>)
    requires cs != []
    ensures Adds(cs)[0] == PAdd(cs[0].0, cs[0].1) && Adds(cs)[1..] == Adds(cs[1..])
  {
  }

  /** Spending removes exactly the named outpoints, each once. */
  lemma {:induction false} SpendsRemove(m: Coins, os: seq<OutPoint>)
    requires RunCoins(m, Spends(os)).Some?
    ensures var (m1, us) := RunCoins(m, Spends(os)).value;
            && |us| == |os|
            && m1 == m - (set o | o in os)
            && (forall i :: 0 <= i < |os| ==> os[i] in m && us[i] == m[os[i]])
            && (forall i, j :: 0 <= i < j < |os| ==> os[i] != os[j])
    decreases |os|
  {
    if os == [] {
      assert m - (set o | o in os) == m;
    } else {
      SpendsCons(os);
      SpendsRemove(m - {os[0]}, os[1..]);
      var (m1, us) := RunCoins(m - {os[0]}, Spends(os[1..])).value;
      assert os == [os[0]] + os[1..];
      assert (set o | o in os) == {os[0]} + set o | o in os[1..];
      forall i | 0 <= i < |os| ensures os[i] in m && ([m[os[0]]] + us)[i] == m[os[i]] {
        if i > 0 { assert os[i] == os[1..][i - 1]; }
      }
      forall i, j | 0 <= i < j < |os| ensures os[i] != os[j] {
        assert os[j] == os[1..][j - 1];
        if i > 0 { assert os[i] == os[1..][i - 1]; }
      }
    }
  }

  lemma {:induction false} AddsFrame(m: Coins, cs: seq<Coin>, o: OutPoint, u: Utxo)
    requires RunCoins(m, Adds(cs)).Some?
    requires o !in RunCoins(m, Adds(cs)).value.0
    ensures o !in m
    ensures RunCoins(m[o := u], Adds(cs)) == Some((RunCoins(m, Adds(cs)).value.0[o := u], []))
    ensures RunCoins(m, Adds(cs)).value.1 == []
    decreases |cs|
  {
    if cs == [] {
    } else {
      AddsCons(cs);
      var m1 := m[cs[0].0 := cs[0].1];
      AddsFrame(m1, cs[1..], o, u);
      assert m1[o := u] == m[o := u][cs[0].0 := cs[0].1];
    }
  }

  lemma {:induction false} SpendsFrame(m: Coins, os: seq<OutPoint>, o: OutPoint)
    requires RunCoins(m, Spends(os)).Some?
    requires o in RunCoins(m, Spends(os)).value.0
    ensures o in m
    ensures RunCoins(m - {o}, Spends(os)) ==
            Some((RunCoins(m, Spends(os)).value.0 - {o}, RunCoins(m, Spends(os)).value.1))
    decreases |os|
  {
    if os == [] {
    } else {
      SpendsCons(os);
      SpendsFrame(m - {os[0]}, os[1..], o);
      assert m - {os[0]} - {o} == m - {o} - {os[0]};
    }
  }

  /** Putting the spent coins back undoes the spends. */
  lemma {:induction false} AddsUndoSpends(m: Coins, os: seq<OutPoint>)
    requires RunCoins(m, Spends(os)).Some?
    ensures var (m1, us) := RunCoins(m, Spends(os)).value;
            && |us| == |os|
            && RunCoins(m1, Adds(Pairs(os, us))) == Some((m, []))
    decreases |os|
  {
    if os == [] {
    } else {
      SpendsCons(os);
      var o := os[0];
      AddsUndoSpends(m - {o}, os[1..]);
      var (m1, us) := RunCoins(m - {o}, Spends(os[1..])).value;
      var cs := Pairs(os[1..], us);
      AddsFrame(m1, cs, o, m[o]);
      assert (m - {o})[o := m[o]] == m;
      var all := Pairs(os, [m[o]] + us);
      AddsCons(all);
      assert all[1..] == cs;
    }
  }

  /** Spending the coins just added undoes the adds. */
  lemma {:induction false} SpendsUndoAdds(m: Coins, cs: seq<Coin>)
    requires RunCoins(m, Adds(cs)).Some?
    ensures RunCoins(RunCoins(m, Adds(cs)).value.0, Spends(Firsts(cs))).Some?
    ensures RunCoins(RunCoins(m, Adds(cs)).value.0, Spends(Firsts(cs))).value.0 == m
    decreases |cs|
  {
    if cs == [] {
    } else {
      AddsCons(cs);
      var (o, u) := cs[0];
      SpendsUndoAdds(m[o := u], cs[1..]);
      var m2 := RunCoins(m, Adds(cs)).value.0;
      SpendsFrame(m2, Firsts(cs[1..]), o);
      assert m[o := u] - {o} == m;
      SpendsCons(Firsts(cs));
      assert Firsts(cs)[1..] == Firsts(cs[1..]);
    }
  }

  // ---------- the undo programs in closed form ----------

  lemma {:induction false} ReaddsAreAdds(tx: Id, inputs: seq<TxInput>, spent: seq<Utxo>)
    requires |spent| == |Outpoints(inputs)|
    ensures Readds(tx, inputs, TxUndo(inputs, spent)) == Adds(Pairs(Outpoints(inputs), spent))
    decreases |inputs|
  {
    if inputs == [] {
    } else if inputs[0].FromUtxo? {
      var os := Outpoints(inputs);
      assert os[1..] == Outpoints(inputs[1..]);
      ReaddsAreAdds(tx, inputs[1..], spent[1..]);
      var undo := TxUndo(inputs, spent);
      assert undo[0] == Some(spent[0]) && undo[1..] == TxUndo(inputs[1..], spent[1..]);
      AddsCons(Pairs(os, spent));
      assert Pairs(os, spent)[1..] == Pairs(os[1..], spent[1..]);
      assert Adds(Pairs(os, spent)) == [Adds(Pairs(os, spent))[0]] + Adds(Pairs(os, spent))[1..];
    } else {
      assert Outpoints(inputs) == Outpoints(inputs[1..]);
      ReaddsAreAdds(tx, inputs[1..], spent);
      var undo := TxUndo(inputs, spent);
      assert undo[0] == None && undo[1..] == TxUndo(inputs[1..], spent);
      assert Readds(tx, inputs, undo) == Readds(tx, inputs[1..], undo[1..]);
    }
  }

  lemma {:induction false} OutputOutpointsAreFirsts(
    source: SourceId, outputs: seq<TxOutput>, index: nat, origin: UtxoSource)
    ensures OutputOutpoints(source, outputs, index) == Firsts(OutputCoins(source, outputs, index, origin))
    decreases |outputs|
  {
    if outputs == [] {
    } else {
      OutputOutpointsAreFirsts(source, outputs[1..], index + 1, origin);
      var cs := OutputCoins(source, outputs, index, origin);
      if IncludedInUtxoSet(outputs[0]) {
        assert Firsts(cs) == [cs[0].0] + Firsts(cs[1..]);
        assert cs[1..] == OutputCoins(source, outputs[1..], index + 1, origin);
      } else {
        assert cs == OutputCoins(source, outputs[1..], index + 1, origin);
      }
    }
  }

  function RewardCoins(block: Id, outputs: seq<TxOutput>, index: nat, height: nat): seq<Coin> {
    if outputs == [] then []
    else [(OutPointOf(BlockRewardId(block), index), Utxo(outputs[0], Blockchain(height)))]
         + RewardCoins(block, outputs[1..], index + 1, height)
  }

  lemma {:induction false} RewardAddsAreAdds(m: Coins, block: Id, outputs: seq<TxOutput>, index: nat, height: nat)
    requires RunCoins(m, RewardAdds(block, outputs, index, height)).Some?
    ensures RewardAdds(block, outputs, index, height) == Adds(RewardCoins(block, outputs, index, height))
    ensures RewardOutpoints(block, outputs, index) == Firsts(RewardCoins(block, outputs, index, height))
    decreases |outputs|
  {
    if outputs == [] {
    } else {
      var cs := RewardCoins(block, outputs, index, height);
      var prog := RewardAdds(block, outputs, index, height);
      assert prog[1..] == RewardAdds(block, outputs[1..], index + 1, height);
      RewardAddsAreAdds(m[prog[0].o := prog[0].u], block, outputs[1..], index + 1, height);
      assert cs[1..] == RewardCoins(block, outputs[1..], index + 1, height);
      AddsCons(cs);
      assert Adds(cs) == [Adds(cs)[0]] + Adds(cs)[1..];
      assert Firsts(cs) == [cs[0].0] + Firsts(cs[1..]);
    }
  }

  // ---------- disconnecting restores the coins ----------

  /** Disconnecting a transaction with the undo of its connection succeeds and
      brings back exactly the coins there were. */
  lemma TxRestored(m: Coins, tx: Tx, origin: UtxoSource)
    requires RunCoins(m, ConnectTx(tx, origin)).Some?
    ensures var (m', spent) := RunCoins(m, ConnectTx(tx, origin)).value;
            && |spent| == |Outpoints(tx.inputs)|
            && var back := RunCoins(m', DisconnectTx(tx, TxUndo(tx.inputs, spent)));
            && back.Some?
            && back.value.0 == m
  {
    var os := Outpoints(tx.inputs);
    var cs := OutputCoins(TransactionId(tx.id), tx.outputs, 0, origin);
    RunCoinsAppend(m, Spends(os), Adds(cs));
    AddsUndoSpends(m, os);
    var (m1, us) := RunCoins(m, Spends(os)).value;
    AddsSpendNothing(m1, cs);
    assert us + [] == us;
    var m' := RunCoins(m1, Adds(cs)).value.0;
    SpendsUndoAdds(m1, cs);
    OutputOutpointsAreFirsts(TransactionId(tx.id), tx.outputs, 0, origin);
    ReaddsAreAdds(tx.id, tx.inputs, us);
    RunCoinsAppend(m', Spends(Firsts(cs)), Adds(Pairs(os, us)));
  }

  lemma {:induction false} AddsSpendNothing(m: Coins, cs: seq<Coin>)
    requires RunCoins(m, Adds(cs)).Some?
    ensures RunCoins(m, Adds(cs)).value.1 == []
    decreases |cs|
  {
    if cs == [] {
    } else {
      AddsCons(cs);
      AddsSpendNothing(m[cs[0].0 := cs[0].1], cs[1..]);
    }
  }

  /** Reward inputs whose restoration works: none at all, or as many coin
      inputs as there are at the front of the list, and at least one. */
  predicate RewardInputsAligned(inputs: Option<seq<TxInput>>) {
    inputs.Some? ==>
      var k := |Outpoints(inputs.value)|;
      && 0 < k <= |inputs.value|
      && forall i :: 0 <= i < k ==> inputs.value[i].FromUtxo?
  }

  lemma {:induction false} ZipAddsAligned(inputs: seq<TxInput>, us: seq<Utxo>)
    requires |us| == |Outpoints(inputs)| <= |inputs|
    requires forall i :: 0 <= i < |us| ==> inputs[i].FromUtxo?
    ensures ZipAdds(inputs, us) == Adds(Pairs(Outpoints(inputs), us))
    decreases |inputs|
  {
    if us == [] {
    } else {
      var os := Outpoints(inputs);
      assert os[1..] == Outpoints(inputs[1..]);
      ZipAddsAligned(inputs[1..], us[1..]);
      AddsCons(Pairs(os, us));
      assert Pairs(os, us)[1..] == Pairs(os[1..], us[1..]);
      assert Adds(Pairs(os, us)) == [Adds(Pairs(os, us))[0]] + Adds(Pairs(os, us))[1..];
    }
  }

  lemma {:induction false} OutpointsAppend(a: seq<TxInput>, b: seq<TxInput>)
    ensures Outpoints(a + b) == Outpoints(a) + Outpoints(b)
    decreases |a|
  {
    if a == [] {
      assert a + b == b;
    } else {
      assert (a + b)[0] == a[0] && (a + b)[1..] == a[1..] + b;
      OutpointsAppend(a[1..], b);
    }
  }

  lemma {:induction false} OutpointsAtMost(inputs: seq<TxInput>)
    ensures |Outpoints(inputs)| <= |inputs|
    ensures |Outpoints(inputs)| == |inputs| ==> forall i :: 0 <= i < |inputs| ==> inputs[i].FromUtxo?
    decreases |inputs|
  {
    if inputs == [] {
    } else {
      OutpointsAtMost(inputs[1..]);
      forall i | 1 <= i < |inputs| && |Outpoints(inputs)| == |inputs| ensures inputs[i].FromUtxo? {
        assert inputs[i] == inputs[1..][i - 1];
      }
    }
  }

  /** A zip restores nothing past its own length. */
  lemma {:induction false} ZipAddsReach(m: Coins, inputs: seq<TxInput>, us: seq<Utxo>, o: OutPoint)
    requires |us| <= |inputs|
    requires RunCoins(m, ZipAdds(inputs, us)).Some?
    requires o !in m && o !in Outpoints(inputs[..|us|])
    ensures o !in RunCoins(m, ZipAdds(inputs, us)).value.0
    decreases |inputs|
  {
    if inputs == [] || us == [] {
    } else {
      assert inputs[..|us|][0] == inputs[0];
      assert inputs[..|us|][1..] == inputs[1..][..|us[1..]|];
      var prog := ZipAdds(inputs, us);
      if inputs[0].FromUtxo? {
        assert prog[1..] == ZipAdds(inputs[1..], us[1..]);
        ZipAddsReach(m[prog[0].o := prog[0].u], inputs[1..], us[1..], o);
      } else {
        assert prog == ZipAdds(inputs[1..], us[1..]);
        ZipAddsReach(m, inputs[1..], us[1..], o);
      }
    }
  }

  /** After a connected reward, the disconnect brings the coins back exactly
      when the inputs are aligned: interleaved account inputs shift the zip,
      and inputs without a single coin leave no undo to work with. */
  lemma RewardRestoredIff(m: Coins, reward: Reward, block: Id, height: nat)
    requires RunCoins(m, ConnectReward(reward, block, height)).Some?
    ensures var (m', spent) := RunCoins(m, ConnectReward(reward, block, height)).value;
            var back := RunCoins(m', DisconnectReward(reward, block, RewardUndo(spent)));
            (back.Some? && back.value.0 == m) <==> RewardInputsAligned(reward.inputs)
  {
    var inputs, outputs := RewardInputs(reward), RewardOutputs(reward);
    var os := Outpoints(inputs);
    var adds := RewardAdds(block, outputs, 0, height);
    RunCoinsAppend(m, Spends(os), adds);
    AddsUndoSpends(m, os);
    SpendsRemove(m, os);
    var (m1, us) := RunCoins(m, Spends(os)).value;
    RewardAddsAreAdds(m1, block, outputs, 0, height);
    var cs := RewardCoins(block, outputs, 0, height);
    AddsSpendNothing(m1, cs);
    assert us + [] == us;
    var m' := RunCoins(m1, adds).value.0;
    SpendsUndoAdds(m1, cs);
    var tail := RewardReadds(reward, block, RewardUndo(us));
    RunCoinsAppend(m', Spends(Firsts(cs)), tail);
    if reward.inputs.None? {
      assert tail == [];
    } else if us == [] {
      assert tail == [PFail(MissingBlockRewardUndo(block))];
    } else {
      assert tail == ZipAdds(inputs, us);
      OutpointsAtMost(inputs);
      if RewardInputsAligned(reward.inputs) {
        ZipAddsAligned(inputs, us);
      } else {
        UnalignedLosesACoin(m, m1, inputs, us);
      }
    }
  }

  /** The same on a cache, where the program's adds are safe: the reward's own
      inputs, once spent, are safe to add again. */
  lemma CachedRewardRestoredIff(l: Layer, reward: Reward, block: Id, height: nat)
    requires l.Inv() && AddsSafe(l, ConnectReward(reward, block, height))
    requires RunLayer(l, ConnectReward(reward, block, height)).Ok?
    ensures var (l', spent) := RunLayer(l, ConnectReward(reward, block, height)).value;
            var back := RunLayer(l', DisconnectReward(reward, block, RewardUndo(spent)));
            && l'.Inv()
            && ((back.Ok? && back.value.0.View() == l.View()) <==> RewardInputsAligned(reward.inputs))
  {
    hide RunLayer, RunCoins, AddsSafe, RewardReadds, DisconnectReward, ConnectReward;
    var there := ConnectReward(reward, block, height);
    ProgramRefines(l, there);
    AfterIsResult(l, l.View(), there);
    var (l', spent) := RunLayer(l, there).value;
    var back := DisconnectReward(reward, block, RewardUndo(spent));
    ReaddsSafe(l, reward, block, height);
    SafeFromTheStart(l', back);
    ProgramRefines(l', back);
    AfterIsResult(l', l'.View(), back);
    RewardRestoredIff(l.View(), reward, block, height);
  }

  /** Once spent, an outpoint is safe to add, whatever the program does next. */
  lemma {:induction false} SpentIsSafe(l: Layer, prog: seq<Prim>, p: OutPoint)
    requires l.Inv() && AddsSafe(l, prog) && RunLayer(l, prog).Ok?
    requires l.AddSafe(p) || PSpend(p) in prog
    ensures RunLayer(l, prog).value.0.AddSafe(p)
    decreases |prog|
  {
    if prog == [] {
    } else {
      assert prog == [prog[0]] + prog[1..];
      match prog[0]
      case PSpend(o) =>
        SpendRefines(l, o);
        if l.AddSafe(p) { AddSafeKept(l, prog[0], p); }
        if p == o && o in l.entries { assert l.EntryInv(o); }
        SpentIsSafe(l.Spend(o).0, prog[1..], p);
      case PAdd(o, u) =>
        AddRefines(l, o, u, false);
        if l.AddSafe(p) { AddSafeKept(l, prog[0], p); }
        SpentIsSafe(l.Add(o, u, false).value, prog[1..], p);
      case PFail(_) =>
    }
  }

  lemma ReaddsSafe(l: Layer, reward: Reward, block: Id, height: nat)
    requires l.Inv() && AddsSafe(l, ConnectReward(reward, block, height))
    requires RunLayer(l, ConnectReward(reward, block, height)).Ok?
    ensures var (l', spent) := RunLayer(l, ConnectReward(reward, block, height)).value;
            var back := DisconnectReward(reward, block, RewardUndo(spent));
            forall i :: 0 <= i < |back| && back[i].PAdd? ==> l'.AddSafe(back[i].o)
  {
    hide RunLayer, AddsSafe, RewardAdds;
    var there := ConnectReward(reward, block, height);
    var (l', spent) := RunLayer(l, there).value;
    var back := DisconnectReward(reward, block, RewardUndo(spent));
    var os := RewardOutpoints(block, RewardOutputs(reward), 0);
    OnlySpends(os);
    forall i | 0 <= i < |back| && back[i].PAdd? ensures l'.AddSafe(back[i].o) {
      var k := i - |Spends(os)|;
      var readds := RewardReadds(reward, block, RewardUndo(spent));
      assert k >= 0 && back[i] == readds[k];
      ZipAddsInputs(RewardInputs(reward), spent, readds[k]);
      SpendsHave(Outpoints(RewardInputs(reward)), back[i].o);
      SpentIsSafe(l, there, back[i].o);
    }
  }

  lemma {:induction false} OnlySpends(os: seq<OutPoint>)
    ensures |Spends(os)| == |os| && forall i :: 0 <= i < |os| ==> Spends(os)[i] == PSpend(os[i])
    decreases |os|
  {
    if os == [] {
    } else {
      OnlySpends(os[1..]);
    }
  }

  lemma SpendsHave(os: seq<OutPoint>, o: OutPoint)
    requires o in os
    ensures PSpend(o) in Spends(os)
  {
    OnlySpends(os);
    var i :| 0 <= i < |os| && os[i] == o;
    assert Spends(os)[i] == PSpend(o);
  }

  /** A reward's re-adds are of its own inputs. */
  lemma {:induction false} ZipAddsInputs(inputs: seq<TxInput>, us: seq<Utxo>, step: Prim)
    requires step in ZipAdds(inputs, us)
    ensures step.PAdd? && step.o in Outpoints(inputs)
    decreases |inputs|
  {
    var rest := ZipAdds(inputs[1..], us[1..]);
    if step in rest { ZipAddsInputs(inputs[1..], us[1..], step); }
  }

  lemma UnalignedLosesACoin(m: Coins, m1: Coins, inputs: seq<TxInput>, us: seq<Utxo>)
    requires RunCoins(m, Spends(Outpoints(inputs))) == Some((m1, us))
    requires us != [] && !RewardInputsAligned(Some(inputs))
    ensures RunCoins(m1, ZipAdds(inputs, us)).Some? ==> RunCoins(m1, ZipAdds(inputs, us)).value.0 != m
  {
    var os := Outpoints(inputs);
    SpendsRemove(m, os);
    var k := |us|;
    OutpointsAtMost(inputs);
    assert inputs == inputs[..k] + inputs[k..];
    OutpointsAppend(inputs[..k], inputs[k..]);
    OutpointsAtMost(inputs[..k]);
    var front, back := Outpoints(inputs[..k]), Outpoints(inputs[k..]);
    assert |front| < k;
    assert back != [];
    var o := back[0];
    assert o == os[|front|];
    forall i | 0 <= i < |front| ensures front[i] != o {
      assert front[i] == os[i];
    }
    if RunCoins(m1, ZipAdds(inputs, us)).Some? {
      ZipAddsReach(m1, inputs, us, o);
    }
  }

  /** An account input in front of a coin input: the reward connects, and the
      coin it spends does not come back. */
  lemma UnalignedExample(o: OutPoint, u: Utxo, block: Id)
    ensures var reward := Reward(Some([FromAccount(0), FromUtxo(o)]), None);
            var there := RunCoins(map[o := u], ConnectReward(reward, block, 1));
            && there.Some?
            && var back := RunCoins(there.value.0, DisconnectReward(reward, block, RewardUndo(there.value.1)));
            !(back.Some? && back.value.0 == map[o := u])
  {
    var inputs := [FromAccount(0), FromUtxo(o)];
    var reward := Reward(Some(inputs), None);
    assert Outpoints(inputs) == [o] by {
      assert inputs[1..] == [FromUtxo(o)];
      assert Outpoints([FromUtxo(o)]) == [o];
    }
    assert ConnectReward(reward, block, 1) == [PSpend(o)] by {
      assert Spends([o]) == [PSpend(o)];
    }
    assert !RewardInputsAligned(reward.inputs) by {
      assert !inputs[0].FromUtxo?;
    }
    RewardRestoredIff(map[o := u], reward, block, 1);
  }
}
