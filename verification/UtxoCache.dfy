/** The mutable cache of utxo/src/cache.rs and the flush of utxo/src/view.rs.
    Every method is tied to the pure transition of the same call. */
module UtxoCache {
  import opened Wrappers
  import opened UtxoLayers
  import opened UtxoPrograms

  /** A result with earlier spends put in front of its own. */
  function Attach(before: seq<Utxo>, r: Result<(Layer, seq<Utxo>), Error>): Result<(Layer, seq<Utxo>), Error> {
    if r.Err? then r else Ok((r.value.0, before + r.value.1))
  }

  lemma AttachSpend(l: Layer, before: seq<Utxo>, prog: seq<Prim>, rest: seq<Prim>)
    requires prog != [] && prog[0].PSpend? && rest == prog[1..]
    ensures var (l', r) := l.Spend(prog[0].o);
            && LayerAfter(l, prog) == (if r.Err? then l' else LayerAfter(l', rest))
            && Attach(before, RunLayer(l, prog)) ==
               if r.Err? then Err(r.error) else Attach(before + [r.value], RunLayer(l', rest))
  {
    var (l', r) := l.Spend(prog[0].o);
    if r.Ok? && RunLayer(l', rest).Ok? {
      var us := RunLayer(l', rest).value.1;
      assert before + ([r.value] + us) == before + [r.value] + us;
    }
  }

  lemma TxUndoCons(inputs: seq<TxInput>, spent: seq<Utxo>)
    requires inputs != [] && |spent| == |Outpoints(inputs)|
    ensures inputs[0].FromUtxo? ==>
              && spent != [] && |spent[1..]| == |Outpoints(inputs[1..])|
              && TxUndo(inputs, spent) == [Some(spent[0])] + TxUndo(inputs[1..], spent[1..])
    ensures !inputs[0].FromUtxo? ==>
              && |spent| == |Outpoints(inputs[1..])|
              && TxUndo(inputs, spent) == [None] + TxUndo(inputs[1..], spent)
  {
  }

  lemma OutpointsCons(inputs: seq<TxInput>)
    requires inputs != []
    ensures Outpoints(inputs) ==
            (if inputs[0].FromUtxo? then [inputs[0].outpoint] else []) + Outpoints(inputs[1..])
  {
  }

  lemma NoInputs(l: Layer)
    ensures Outpoints([]) == [] && TxUndo([], []) == [] && RunLayer(l, Spends([])) == Ok((l, []))
    ensures LayerAfter(l, Spends([])) == l
  {
  }

  lemma {:induction false} TxUndoSnoc(inputs: seq<TxInput>, spent: seq<Utxo>, input: TxInput, u: Utxo)
    requires |spent| == |Outpoints(inputs)|
    ensures var more := if input.FromUtxo? then [u] else [];
            && |Outpoints(inputs + [input])| == |spent + more|
            && TxUndo(inputs + [input], spent + more) ==
               TxUndo(inputs, spent) + [if input.FromUtxo? then Some(u) else None]
    decreases |inputs|
  {
    hide Outpoints, TxUndo;
    var all := inputs + [input];
    var more := if input.FromUtxo? then [u] else [];
    OutpointsCons(all);
    if inputs == [] {
      assert all == [input] && all[1..] == [];
      NoInputs(Layer(map[], map[]));
      assert spent == [] && spent + more == more && (more != [] ==> more[1..] == []);
      TxUndoCons(all, more);
    } else {
      OutpointsCons(inputs);
      TxUndoCons(inputs, spent);
      assert all[0] == inputs[0] && all[1..] == inputs[1..] + [input];
      if inputs[0].FromUtxo? {
        TxUndoSnoc(inputs[1..], spent[1..], input, u);
        assert (spent + more)[1..] == spent[1..] + more;
      } else {
        TxUndoSnoc(inputs[1..], spent, input, u);
      }
      TxUndoCons(all, spent + more);
    }
  }

  lemma RewardStep(l: Layer, block: Id, outputs: seq<TxOutput>, index: nat, height: nat)
    requires outputs != []
    ensures var prog := RewardAdds(block, outputs, index, height);
            var rest := RewardAdds(block, outputs[1..], index + 1, height);
            if !IncludedInUtxoSet(outputs[0]) then
              RunLayer(l, prog) == Err(InvalidBlockRewardOutputType(block)) && LayerAfter(l, prog) == l
            else
              var l' := l.Add(OutPointOf(BlockRewardId(block), index), Utxo(outputs[0], Blockchain(height)), false);
              if l'.Err? then RunLayer(l, prog) == Err(l'.error) && LayerAfter(l, prog) == l
              else RunLayer(l, prog) == RunLayer(l'.value, rest) && LayerAfter(l, prog) == LayerAfter(l'.value, rest)
  {
    assert RewardAdds(block, outputs, index, height)[1..] == RewardAdds(block, outputs[1..], index + 1, height);
  }

  lemma RewardEnd(l: Layer, block: Id, index: nat, height: nat)
    ensures RunLayer(l, RewardAdds(block, [], index, height)) == Ok((l, []))
    ensures LayerAfter(l, RewardAdds(block, [], index, height)) == l
  {
  }

  lemma ZipStep(l: Layer, inputs: seq<TxInput>, us: seq<Utxo>)
    requires inputs != [] && us != []
    ensures var rest := ZipAdds(inputs[1..], us[1..]);
            LayerAfter(l, ZipAdds(inputs, us)) ==
            if !inputs[0].FromUtxo? then LayerAfter(l, rest)
            else
              var l' := l.Add(inputs[0].outpoint, us[0], false);
              if l'.Err? then l else LayerAfter(l'.value, rest)
    ensures var rest := ZipAdds(inputs[1..], us[1..]);
            RunLayer(l, ZipAdds(inputs, us)) ==
            if !inputs[0].FromUtxo? then RunLayer(l, rest)
            else
              var l' := l.Add(inputs[0].outpoint, us[0], false);
              if l'.Err? then Err(l'.error) else RunLayer(l'.value, rest)
  {
    var prog, rest := ZipAdds(inputs, us), ZipAdds(inputs[1..], us[1..]);
    assert if inputs[0].FromUtxo? then prog[1..] == rest else prog == rest;
  }

  lemma ZipEnd(l: Layer, inputs: seq<TxInput>, us: seq<Utxo>)
    requires inputs == [] || us == []
    ensures RunLayer(l, ZipAdds(inputs, us)) == Ok((l, [])) && LayerAfter(l, ZipAdds(inputs, us)) == l
  {
  }

  class UtxosCache {
    const parent: Coins
    var currentBlock: Id
    var utxos: Entries

    function AsLayer(): Layer
      reads this
    {
      Layer(parent, utxos)
    }

    constructor (parent: Coins, best: Id)
      ensures AsLayer() == Layer(parent, map[]) && currentBlock == best
    {
      this.parent := parent;
      currentBlock := best;
      utxos := map[];
    }

    method SetBestBlock(block: Id)
      modifies this`currentBlock
      ensures currentBlock == block
    {
      currentBlock := block;
    }

    method GetUtxo(o: OutPoint) returns (r: Option<Utxo>)
      ensures r == Find(AsLayer().View(), o)
    {
      if o in utxos {
        r := utxos[o].utxo;
      } else {
        r := Find(parent, o);
      }
    }

    method HasUtxo(o: OutPoint) returns (r: bool)
      ensures r <==> o in AsLayer().View()
    {
      var u := GetUtxo(o);
      r := u.Some?;
    }

    method FetchUtxoEntry(o: OutPoint) returns (r: Option<Entry>)
      modifies this`utxos
      ensures (AsLayer(), r) == old(AsLayer()).Fetch(o)
    {
      if o in utxos {
        return Some(utxos[o]);
      }
      r := None;
      if o in parent {
        var e := NewEntry(Some(parent[o]), false, false);
        utxos := utxos[o := e];
        r := Some(e);
      }
    }

    method AddUtxo(o: OutPoint, u: Utxo, possibleOverwrite: bool) returns (r: Result<(), Error>)
      modifies this`utxos
      ensures var l := old(AsLayer()).Add(o, u, possibleOverwrite);
              if l.Err? then r == Err(l.error) && AsLayer() == old(AsLayer())
              else r == Ok(()) && AsLayer() == l.value
    {
      var isFresh := !possibleOverwrite;
      if o in utxos {
        var current := utxos[o];
        if !possibleOverwrite {
          if !current.Spent() {
            return Err(OverwritingUtxo);
          }
          isFresh := !current.isDirty || current.isFresh;
        } else {
          isFresh := current.isFresh;
        }
      }
      utxos := utxos[o := NewEntry(Some(u), isFresh, true)];
      r := Ok(());
    }

    method SpendUtxo(o: OutPoint) returns (r: Result<Utxo, Error>)
      modifies this`utxos
      ensures (AsLayer(), r) == old(AsLayer()).Spend(o)
    {
      var found := FetchUtxoEntry(o);
      if found.None? {
        return Err(NoUtxoFound);
      }
      var e := found.value;
      if e.isFresh {
        utxos := utxos - {o};
      } else {
        utxos := utxos[o := NewEntry(None, false, true)];
      }
      r := if e.utxo.Some? then Ok(e.utxo.value) else Err(UtxoAlreadySpent(o.source));
    }

    method Uncache(o: OutPoint) returns (r: Result<(), Error>)
      modifies this`utxos
      ensures var l := old(AsLayer()).Uncache(o);
              if l.Err? then r == Err(l.error) && AsLayer() == old(AsLayer())
              else r == Ok(()) && AsLayer() == l.value
    {
      if o in utxos {
        var e := utxos[o];
        if !e.isFresh && !e.isDirty {
          utxos := utxos - {o};
          return Ok(());
        }
      }
      r := Err(NoUtxoFound);
    }

    method AddUtxosFromTx(tx: Tx, origin: UtxoSource) returns (r: Result<(), Error>)
      modifies this`utxos
      ensures var l := RunLayer(old(AsLayer()), Adds(OutputCoins(TransactionId(tx.id), tx.outputs, 0, origin)));
              if l.Err? then r == Err(l.error) else r == Ok(()) && (AsLayer(), []) == l.value
      ensures AsLayer() == LayerAfter(old(AsLayer()), Adds(OutputCoins(TransactionId(tx.id), tx.outputs, 0, origin)))
    {
      ghost var l0 := AsLayer();
      var id := TransactionId(tx.id);
      ghost var all := Adds(OutputCoins(id, tx.outputs, 0, origin));
      var i := 0;
      while i < |tx.outputs|
        invariant 0 <= i <= |tx.outputs|
        invariant RunLayer(l0, all) == RunLayer(AsLayer(), Adds(OutputCoins(id, tx.outputs[i..], i, origin)))
        invariant LayerAfter(l0, all) == LayerAfter(AsLayer(), Adds(OutputCoins(id, tx.outputs[i..], i, origin)))
      {
        assert tx.outputs[i..][0] == tx.outputs[i] && tx.outputs[i..][1..] == tx.outputs[i + 1..];
        if IncludedInUtxoSet(tx.outputs[i]) {
          ghost var cs := OutputCoins(id, tx.outputs[i..], i, origin);
          AddsCons(cs);
          assert cs[1..] == OutputCoins(id, tx.outputs[i + 1..], i + 1, origin);
          var added := AddUtxo(OutPointOf(id, i), Utxo(tx.outputs[i], origin), false);
          if added.Err? {
            return added;
          }
        } else {
          assert OutputCoins(id, tx.outputs[i..], i, origin) == OutputCoins(id, tx.outputs[i + 1..], i + 1, origin);
        }
        i := i + 1;
      }
      r := Ok(());
    }

    /** Spends the coin inputs in order; `undo` gets one slot an input. */
    method SpendInputs(inputs: seq<TxInput>) returns (r: Result<seq<Option<Utxo>>, Error>, ghost spent: seq<Utxo>)
      modifies this`utxos
      ensures var l := RunLayer(old(AsLayer()), Spends(Outpoints(inputs)));
              if l.Err? then r == Err(l.error)
              else && l.value == (AsLayer(), spent)
                   && |spent| == |Outpoints(inputs)|
                   && r == Ok(TxUndo(inputs, spent))
      ensures AsLayer() == LayerAfter(old(AsLayer()), Spends(Outpoints(inputs)))
    {
      hide RunLayer, LayerAfter, TxUndo, Outpoints, Spends;
      ghost var l0 := AsLayer();
      var undo: seq<Option<Utxo>> := [];
      spent := [];
      var i := 0;
      assert inputs[..0] == [] && inputs[0..] == inputs;
      ghost var start := RunLayer(l0, Spends(Outpoints(inputs)));
      if start.Ok? { assert [] + start.value.1 == start.value.1; }
      NoInputs(l0);
      while i < |inputs|
        invariant 0 <= i <= |inputs|
        invariant |spent| == |Outpoints(inputs[..i])|
        invariant undo == TxUndo(inputs[..i], spent)
        invariant start == Attach(spent, RunLayer(AsLayer(), Spends(Outpoints(inputs[i..]))))
        invariant LayerAfter(l0, Spends(Outpoints(inputs))) == LayerAfter(AsLayer(), Spends(Outpoints(inputs[i..])))
      {
        assert inputs[i..][0] == inputs[i] && inputs[i..][1..] == inputs[i + 1..];
        assert inputs[..i + 1] == inputs[..i] + [inputs[i]];
        ghost var os := Outpoints(inputs[i..]);
        OutpointsCons(inputs[i..]);
        match inputs[i] {
          case FromUtxo(o) =>
            assert os[0] == o && os[1..] == Outpoints(inputs[i + 1..]);
            SpendsCons(os);
            AttachSpend(AsLayer(), spent, Spends(os), Spends(os[1..]));
            var u := SpendUtxo(o);
            if u.Err? {
              return Err(u.error), spent;
            }
            TxUndoSnoc(inputs[..i], spent, inputs[i], u.value);
            undo := undo + [Some(u.value)];
            spent := spent + [u.value];
          case FromAccount(_) =>
            TxUndoSnoc(inputs[..i], spent, inputs[i], Utxo(TxOutput(Burn, 0), Mempool));
            assert spent + [] == spent && os == Outpoints(inputs[i + 1..]);
            undo := undo + [None];
          case FromAccountCommand(_) =>
            TxUndoSnoc(inputs[..i], spent, inputs[i], Utxo(TxOutput(Burn, 0), Mempool));
            assert spent + [] == spent && os == Outpoints(inputs[i + 1..]);
            undo := undo + [None];
        }
        i := i + 1;
      }
      assert inputs[..i] == inputs && inputs[i..] == [];
      NoInputs(AsLayer());
      assert spent + [] == spent;
      r := Ok(undo);
    }

    method ConnectTransaction(tx: Tx, origin: UtxoSource) returns (r: Result<seq<Option<Utxo>>, Error>)
      modifies this`utxos
      ensures var l := RunLayer(old(AsLayer()), ConnectTx(tx, origin));
              if l.Err? then r == Err(l.error)
              else && AsLayer() == l.value.0
                   && |l.value.1| == |Outpoints(tx.inputs)|
                   && r == Ok(TxUndo(tx.inputs, l.value.1))
      ensures AsLayer() == LayerAfter(old(AsLayer()), ConnectTx(tx, origin))
    {
      ghost var adds := Adds(OutputCoins(TransactionId(tx.id), tx.outputs, 0, origin));
      RunLayerAppend(AsLayer(), Spends(Outpoints(tx.inputs)), adds);
      var undo, spent := SpendInputs(tx.inputs);
      if undo.Err? {
        return undo;
      }
      assert spent + [] == spent;
      var added := AddUtxosFromTx(tx, origin);
      if added.Err? {
        return Err(added.error);
      }
      r := undo;
    }

    method SpendAll(os: seq<OutPoint>) returns (r: Result<(), Error>, ghost spent: seq<Utxo>)
      modifies this`utxos
      ensures var l := RunLayer(old(AsLayer()), Spends(os));
              if l.Err? then r == Err(l.error) else r == Ok(()) && l.value == (AsLayer(), spent)
      ensures AsLayer() == LayerAfter(old(AsLayer()), Spends(os))
    {
      ghost var start := RunLayer(AsLayer(), Spends(os));
      spent := [];
      if start.Ok? { assert [] + start.value.1 == start.value.1; }
      for i := 0 to |os|
        invariant start == Attach(spent, RunLayer(AsLayer(), Spends(os[i..])))
        invariant LayerAfter(old(AsLayer()), Spends(os)) == LayerAfter(AsLayer(), Spends(os[i..]))
      {
        assert os[i..][0] == os[i] && os[i..][1..] == os[i + 1..];
        SpendsCons(os[i..]);
        AttachSpend(AsLayer(), spent, Spends(os[i..]), Spends(os[i + 1..]));
        var u := SpendUtxo(os[i]);
        if u.Err? {
          return Err(u.error), spent;
        }
        spent := spent + [u.value];
      }
      assert spent + [] == spent;
      r := Ok(());
    }

    /** The source asserts that the undo has a slot for every input. */
    method DisconnectTransaction(tx: Tx, undo: seq<Option<Utxo>>) returns (r: Result<(), Error>)
      requires |undo| == |tx.inputs|
      modifies this`utxos
      ensures var l := RunLayer(old(AsLayer()), DisconnectTx(tx, undo));
              if l.Err? then r == Err(l.error) else r == Ok(()) && AsLayer() == l.value.0
      ensures AsLayer() == LayerAfter(old(AsLayer()), DisconnectTx(tx, undo))
    {
      var os := OutputOutpoints(TransactionId(tx.id), tx.outputs, 0);
      RunLayerAppend(AsLayer(), Spends(os), Readds(tx.id, tx.inputs, undo));
      ghost var spent;
      r, spent := SpendAll(os);
      if r.Err? {
        return;
      }
      ghost var l1 := AsLayer();
      var i := 0;
      while i < |tx.inputs|
        invariant 0 <= i <= |tx.inputs|
        invariant RunLayer(l1, Readds(tx.id, tx.inputs, undo)) ==
                  RunLayer(AsLayer(), Readds(tx.id, tx.inputs[i..], undo[i..]))
        invariant LayerAfter(l1, Readds(tx.id, tx.inputs, undo)) ==
                  LayerAfter(AsLayer(), Readds(tx.id, tx.inputs[i..], undo[i..]))
      {
        ghost var prog := Readds(tx.id, tx.inputs[i..], undo[i..]);
        ghost var rest := Readds(tx.id, tx.inputs[i + 1..], undo[i + 1..]);
        assert tx.inputs[i..][1..] == tx.inputs[i + 1..] && undo[i..][1..] == undo[i + 1..];
        if undo[i].Some? {
          assert prog[1..] == rest;
          if !tx.inputs[i].FromUtxo? {
            return Err(TxInputAndUndoMismatch(tx.id));
          }
          r := AddUtxo(tx.inputs[i].outpoint, undo[i].value, false);
          if r.Err? {
            return;
          }
        } else {
          assert prog == rest;
        }
        i := i + 1;
      }
      r := Ok(());
    }

    method ConnectBlockTransactable(reward: Reward, block: Id, height: nat)
      returns (r: Result<Option<seq<Utxo>>, Error>)
      modifies this`utxos
      ensures var l := RunLayer(old(AsLayer()), ConnectReward(reward, block, height));
              if l.Err? then r == Err(l.error)
              else AsLayer() == l.value.0 && r == Ok(RewardUndo(l.value.1))
      ensures AsLayer() == LayerAfter(old(AsLayer()), ConnectReward(reward, block, height))
    {
      hide RunLayer, LayerAfter, RewardAdds, Spends, TxUndo, SomeOf;
      var inputs, outputs := RewardInputs(reward), RewardOutputs(reward);
      RunLayerAppend(AsLayer(), Spends(Outpoints(inputs)), RewardAdds(block, outputs, 0, height));
      var undo, spent := SpendInputs(inputs);
      if undo.Err? {
        return Err(undo.error);
      }
      var utxos := SomeOf(undo.value);
      SomeOfTxUndo(inputs, spent);
      ghost var l1 := AsLayer();
      var i := 0;
      assert outputs[0..] == outputs;
      while i < |outputs|
        invariant 0 <= i <= |outputs|
        invariant RunLayer(l1, RewardAdds(block, outputs, 0, height)) ==
                  RunLayer(AsLayer(), RewardAdds(block, outputs[i..], i, height))
        invariant LayerAfter(l1, RewardAdds(block, outputs, 0, height)) ==
                  LayerAfter(AsLayer(), RewardAdds(block, outputs[i..], i, height))
      {
        assert outputs[i..][0] == outputs[i] && outputs[i..][1..] == outputs[i + 1..];
        RewardStep(AsLayer(), block, outputs[i..], i, height);
        if !IncludedInUtxoSet(outputs[i]) {
          return Err(InvalidBlockRewardOutputType(block));
        }
        var added := AddUtxo(OutPointOf(BlockRewardId(block), i), Utxo(outputs[i], Blockchain(height)), false);
        if added.Err? {
          return Err(added.error);
        }
        i := i + 1;
      }
      assert outputs[i..] == [];
      RewardEnd(AsLayer(), block, i, height);
      assert spent + [] == spent;
      r := Ok(RewardUndo(utxos));
    }

    method DisconnectBlockTransactable(reward: Reward, block: Id, undo: Option<seq<Utxo>>)
      returns (r: Result<(), Error>)
      modifies this`utxos
      ensures var l := RunLayer(old(AsLayer()), DisconnectReward(reward, block, undo));
              if l.Err? then r == Err(l.error) else r == Ok(()) && AsLayer() == l.value.0
      ensures AsLayer() == LayerAfter(old(AsLayer()), DisconnectReward(reward, block, undo))
    {
      hide ZipAdds, Spends;
      var os := RewardOutpoints(block, RewardOutputs(reward), 0);
      RunLayerAppend(AsLayer(), Spends(os), RewardReadds(reward, block, undo));
      ghost var spent;
      r, spent := SpendAll(os);
      if r.Err? || reward.inputs.None? {
        return;
      }
      if undo.None? {
        return Err(MissingBlockRewardUndo(block));
      }
      var inputs, us := reward.inputs.value, undo.value;
      ghost var l1 := AsLayer();
      var i := 0;
      assert inputs[0..] == inputs && us[0..] == us;
      while i < |inputs| && i < |us|
        invariant 0 <= i <= |inputs| && i <= |us|
        invariant RunLayer(l1, ZipAdds(inputs, us)) == RunLayer(AsLayer(), ZipAdds(inputs[i..], us[i..]))
        invariant LayerAfter(l1, ZipAdds(inputs, us)) == LayerAfter(AsLayer(), ZipAdds(inputs[i..], us[i..]))
      {
        assert inputs[i..][1..] == inputs[i + 1..] && us[i..][1..] == us[i + 1..];
        ZipStep(AsLayer(), inputs[i..], us[i..]);
        if inputs[i].FromUtxo? {
          r := AddUtxo(inputs[i].outpoint, us[i], false);
          if r.Err? {
            return;
          }
        }
        i := i + 1;
      }
      ZipEnd(AsLayer(), inputs[i..], us[i..]);
      r := Ok(());
    }

    /** Takes over the DIRTY entries of a cache built on this one. The keys may
        come in any order; a fresh entry over an unspent one stops the write. */
    method BatchWrite(container: Entries, best: Id) returns (r: Result<(), Error>)
      modifies this
      ensures r.Ok? <==> Mergeable(old(utxos), container)
      ensures r.Ok? ==> utxos == Merge(old(utxos), container) && currentBlock == best
      ensures r.Err? ==> r.error == FreshUtxoAlreadyExists && currentBlock == old(currentBlock)
    {
      ghost var before := utxos;
      var todo := container.Keys;
      while todo != {}
        invariant todo <= container.Keys
        invariant currentBlock == old(currentBlock)
        invariant forall k :: k in container && k !in todo ==>
                    MergeAt(before, container, k).Ok? && EntryAt(utxos, k) == MergeAt(before, container, k).value
        invariant forall k :: k !in container || k in todo ==> EntryAt(utxos, k) == EntryAt(before, k)
        decreases todo
      {
        var k :| k in todo;
        var e := container[k];
        assert EntryAt(utxos, k) == EntryAt(before, k);
        if e.isDirty {
          if k !in utxos {
            if !(e.isFresh && e.Spent()) {
              utxos := utxos[k := NewEntry(e.utxo, e.isFresh, true)];
            }
          } else {
            var below := utxos[k];
            if e.isFresh && !below.Spent() {
              assert MergeAt(before, container, k).Err?;
              return Err(FreshUtxoAlreadyExists);
            }
            if below.isFresh && e.Spent() {
              utxos := utxos - {k};
            } else {
              utxos := utxos[k := NewEntry(e.utxo, below.isFresh, true)];
            }
          }
        }
        todo := todo - {k};
      }
      SameEntries(utxos, Merge(before, container));
      currentBlock := best;
      r := Ok(());
    }
  }

  lemma SameEntries(es: Entries, fs: Entries)
    requires forall o :: EntryAt(es, o) == EntryAt(fs, o)
    ensures es == fs
  {
    forall o: OutPoint ensures (o in es <==> o in fs) && (o in es ==> es[o] == fs[o]) {
      assert EntryAt(es, o) == EntryAt(fs, o);
    }
    assert es.Keys == fs.Keys;
  }

  function SomeOf(undo: seq<Option<Utxo>>): seq<Utxo> {
    if undo == [] then [] else (if undo[0].Some? then [undo[0].value] else []) + SomeOf(undo[1..])
  }

  lemma {:induction false} SomeOfTxUndo(inputs: seq<TxInput>, spent: seq<Utxo>)
    requires |spent| == |Outpoints(inputs)|
    ensures SomeOf(TxUndo(inputs, spent)) == spent
    decreases |inputs|
  {
    if inputs == [] {
    } else {
      if inputs[0].FromUtxo? {
        SomeOfTxUndo(inputs[1..], spent[1..]);
        assert TxUndo(inputs, spent)[1..] == TxUndo(inputs[1..], spent[1..]);
      } else {
        SomeOfTxUndo(inputs[1..], spent);
        assert TxUndo(inputs, spent)[1..] == TxUndo(inputs[1..], spent);
      }
    }
  }

  lemma {:induction false} RunLayerAppend(l: Layer, p: seq<Prim>, q: seq<Prim>)
    ensures RunLayer(l, p).Err? ==> RunLayer(l, p + q) == RunLayer(l, p)
    ensures RunLayer(l, p).Ok? ==>
              RunLayer(l, p + q) == Attach(RunLayer(l, p).value.1, RunLayer(RunLayer(l, p).value.0, q))
    ensures LayerAfter(l, p + q) ==
            if RunLayer(l, p).Err? then LayerAfter(l, p) else LayerAfter(RunLayer(l, p).value.0, q)
    decreases |p|
  {
    if p == [] {
      assert p + q == q;
      if RunLayer(l, q).Ok? { assert [] + RunLayer(l, q).value.1 == RunLayer(l, q).value.1; }
    } else {
      assert (p + q)[0] == p[0] && (p + q)[1..] == p[1..] + q;
      match p[0]
      case PSpend(o) =>
        var (l', r) := l.Spend(o);
        RunLayerAppend(l', p[1..], q);
        if r.Ok? && RunLayer(l, p + q).Ok? {
          var us := RunLayer(l', p[1..]).value.1;
          var vs := RunLayer(RunLayer(l, p).value.0, q).value.1;
          assert [r.value] + (us + vs) == ([r.value] + us) + vs;
        }
      case PAdd(o, u) =>
        if l.Add(o, u, false).Ok? { RunLayerAppend(l.Add(o, u, false).value, p[1..], q); }
      case PFail(_) =>
    }
  }

  /** flush_to_base on a cache: the child's whole content is handed to the base
      it was built on. The write cannot fail, and the base then shows what the
      child showed, against an unchanged parent of its own. */
  method FlushToBase(child: UtxosCache, base: UtxosCache) returns (r: Result<(), Error>)
    requires child != base
    requires child.AsLayer().Inv() && base.AsLayer().Inv()
    requires child.parent == base.AsLayer().View()
    modifies base
    ensures r.Ok?
    ensures base.AsLayer().Inv()
    ensures base.AsLayer().View() == child.AsLayer().View()
    ensures base.currentBlock == child.currentBlock
  {
    FlushRefines(base.AsLayer(), child.AsLayer());
    r := base.BatchWrite(child.utxos, child.currentBlock);
  }

  class UtxosDb {
    var coins: Coins
    var best: Id

    method BatchWrite(container: Entries, block: Id)
      modifies this
      ensures coins == WriteDb(old(coins), container) && best == block
    {
      ghost var before := coins;
      var todo := container.Keys;
      while todo != {}
        invariant todo <= container.Keys
        invariant forall k :: Find(coins, k) ==
                    if k in container && k !in todo && container[k].isDirty then container[k].utxo else Find(before, k)
        decreases todo
      {
        var k :| k in todo;
        var e := container[k];
        if e.isDirty {
          if e.utxo.Some? {
            coins := coins[k := e.utxo.value];
          } else {
            coins := coins - {k};
          }
        }
        todo := todo - {k};
      }
      SameCoins(coins, WriteDb(before, container));
      best := block;
    }
  }
}
