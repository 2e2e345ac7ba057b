/** Which coins connecting a transaction or a block reward takes away and
    leaves, by the inputs and outputs it has (utxo/src/cache.rs). */
module UtxoEffects {
  import opened Wrappers
  import opened UtxoLayers
  import opened UtxoPrograms

  const OUTPUTS_MAX: nat := 0x1_0000_0000

  /** The kinds of output that become coins. */
  predicate BecomesCoin(output: TxOutput) {
    match output.kind
    case Transfer => true
    case LockThenTransfer => true
    case CreateStakePool => true
    case ProduceBlockFromStake => true
    case IssueNft => true
    case Htlc => true
    case CreateDelegationId => false
    case DelegateStaking => false
    case Burn => false
    case IssueFungibleToken => false
    case DataDeposit => false
    case AnyoneCanTake => false
  }

  predicate IsInput(inputs: seq<TxInput>, o: OutPoint) {
    exists i :: 0 <= i < |inputs| && inputs[i] == FromUtxo(o)
  }

  /** The coin inputs are there, and none is named twice. */
  predicate Spendable(m: Coins, inputs: seq<TxInput>) {
    && (forall i :: 0 <= i < |inputs| && inputs[i].FromUtxo? ==> inputs[i].outpoint in m)
    && (forall i, j :: 0 <= i < j < |inputs| && inputs[i].FromUtxo? && inputs[j].FromUtxo? ==>
          inputs[i].outpoint != inputs[j].outpoint)
  }

  /** The output that stands for an outpoint, if the outpoint is of this source
      and its output becomes a coin. */
  function CreatedAt(source: SourceId, outputs: seq<TxOutput>, o: OutPoint): Option<TxOutput> {
    if o.source == source && o.index < |outputs| && BecomesCoin(outputs[o.index]) then Some(outputs[o.index]) else None
  }

  /** What is at an outpoint after the inputs are taken and the outputs put. */
  function CoinAfter(
    m: Coins, inputs: seq<TxInput>, source: SourceId, outputs: seq<TxOutput>, origin: UtxoSource,
    o: OutPoint): Option<Utxo>
  {
    var created := CreatedAt(source, outputs, o);
    if created.Some? then Some(Utxo(created.value, origin))
    else if IsInput(inputs, o) then None
    else Find(m, o)
  }

  /** Nothing that is created is there once the inputs are taken. */
  ghost predicate Creatable(m: Coins, inputs: seq<TxInput>, source: SourceId, outputs: seq<TxOutput>) {
    forall o :: CreatedAt(source, outputs, o).Some? && o in m ==> IsInput(inputs, o)
  }

  // ---------- inputs ----------

  lemma {:induction false} OutpointsAre(inputs: seq<TxInput>, o: OutPoint)
    ensures o in Outpoints(inputs) <==> IsInput(inputs, o)
    decreases |inputs|
  {
    if inputs == [] {
    } else {
      OutpointsAre(inputs[1..], o);
      if IsInput(inputs, o) && inputs[0] != FromUtxo(o) {
        var i :| 0 <= i < |inputs| && inputs[i] == FromUtxo(o);
        assert inputs[1..][i - 1] == FromUtxo(o);
      }
      if IsInput(inputs[1..], o) {
        var i :| 0 <= i < |inputs[1..]| && inputs[1..][i] == FromUtxo(o);
        assert inputs[i + 1] == FromUtxo(o);
      }
    }
  }

  lemma SpendableCons(m: Coins, inputs: seq<TxInput>)
    requires inputs != []
    ensures inputs[0].FromUtxo? ==>
              (Spendable(m, inputs) <==> inputs[0].outpoint in m && Spendable(m - {inputs[0].outpoint}, inputs[1..]))
    ensures !inputs[0].FromUtxo? ==> (Spendable(m, inputs) <==> Spendable(m, inputs[1..]))
  {
    var rest := inputs[1..];
    assert forall i :: 0 <= i < |rest| ==> rest[i] == inputs[i + 1];
    assert forall i :: 0 < i < |inputs| ==> inputs[i] == rest[i - 1];
  }

  /** The spends succeed exactly on spendable inputs. */
  lemma {:induction false} SpendsIff(m: Coins, inputs: seq<TxInput>)
    ensures RunCoins(m, Spends(Outpoints(inputs))).Some? <==> Spendable(m, inputs)
    decreases |inputs|
  {
    if inputs == [] {
    } else {
      SpendableCons(m, inputs);
      var os := Outpoints(inputs);
      if inputs[0].FromUtxo? {
        assert os[0] == inputs[0].outpoint && os[1..] == Outpoints(inputs[1..]);
        SpendsCons(os);
        if inputs[0].outpoint in m { SpendsIff(m - {inputs[0].outpoint}, inputs[1..]); }
      } else {
        assert os == Outpoints(inputs[1..]);
        SpendsIff(m, inputs[1..]);
      }
    }
  }

  // ---------- outputs ----------

  lemma CoinsMatch(output: TxOutput)
    ensures IncludedInUtxoSet(output) <==> BecomesCoin(output)
  {
  }

  /** Adding the outputs from an index on succeeds exactly where none of their
      outpoints is taken, and puts each output at its own index. */
  lemma {:induction false} OutputsIff(m: Coins, source: SourceId, outputs: seq<TxOutput>, k: nat, origin: UtxoSource)
    requires k <= |outputs| <= OUTPUTS_MAX
    ensures var prog := Adds(OutputCoins(source, outputs[k..], k, origin));
            && (RunCoins(m, prog).Some? <==>
                  forall o :: CreatedAt(source, outputs, o).Some? && o.index >= k ==> o !in m)
            && (RunCoins(m, prog).Some? ==>
                  && RunCoins(m, prog).value.1 == []
                  && forall o :: Find(RunCoins(m, prog).value.0, o) ==
                       if CreatedAt(source, outputs, o).Some? && o.index >= k
                       then Some(Utxo(CreatedAt(source, outputs, o).value, origin)) else Find(m, o))
    decreases |outputs| - k
  {
    hide IncludedInUtxoSet, BecomesCoin;
    if k == |outputs| {
    } else {
      var here, cs := OutPoint(source, k), OutputCoins(source, outputs[k..], k, origin);
      assert outputs[k..][0] == outputs[k] && outputs[k..][1..] == outputs[k + 1..];
      CoinsMatch(outputs[k]);
      assert CreatedAt(source, outputs, here).Some? <==> BecomesCoin(outputs[k]);
      forall o | CreatedAt(source, outputs, o).Some? && o.index == k ensures o == here {
      }
      if BecomesCoin(outputs[k]) {
        assert cs == [(here, Utxo(outputs[k], origin))] + OutputCoins(source, outputs[k + 1..], k + 1, origin);
        AddsCons(cs);
        if here !in m {
          OutputsIff(m[here := Utxo(outputs[k], origin)], source, outputs, k + 1, origin);
        }
      } else {
        assert cs == OutputCoins(source, outputs[k + 1..], k + 1, origin);
        OutputsIff(m, source, outputs, k + 1, origin);
      }
    }
  }

  // ---------- connecting a transaction ----------

  /** A transaction connects exactly when its coin inputs are there, none twice,
      and nothing it creates is there once they are taken. It takes those inputs
      and puts each output that becomes a coin at its own index, and every other
      coin stays as it is. */
  lemma ConnectTxIff(m: Coins, tx: Tx, origin: UtxoSource)
    requires |tx.outputs| <= OUTPUTS_MAX
    ensures RunCoins(m, ConnectTx(tx, origin)).Some? <==>
              Spendable(m, tx.inputs) && Creatable(m, tx.inputs, TransactionId(tx.id), tx.outputs)
    ensures RunCoins(m, ConnectTx(tx, origin)).Some? ==>
              forall o :: Find(RunCoins(m, ConnectTx(tx, origin)).value.0, o) ==
                          CoinAfter(m, tx.inputs, TransactionId(tx.id), tx.outputs, origin, o)
  {
    hide Spendable, IsInput, CreatedAt, OutputCoins;
    var source, os := TransactionId(tx.id), Outpoints(tx.inputs);
    var adds := Adds(OutputCoins(source, tx.outputs, 0, origin));
    RunCoinsAppend(m, Spends(os), adds);
    SpendsIff(m, tx.inputs);
    if Spendable(m, tx.inputs) {
      Taken(m, tx.inputs);
      var m1 := RunCoins(m, Spends(os)).value.0;
      assert tx.outputs[0..] == tx.outputs;
      OutputsIff(m1, source, tx.outputs, 0, origin);
      forall o ensures o in m1 <==> o in m && !IsInput(tx.inputs, o) {
        assert Find(m1, o) == if IsInput(tx.inputs, o) then None else Find(m, o);
      }
    }
  }

  /** Once the inputs are spent, exactly they are gone. */
  lemma Taken(m: Coins, inputs: seq<TxInput>)
    requires Spendable(m, inputs) && RunCoins(m, Spends(Outpoints(inputs))).Some?
    ensures forall o :: Find(RunCoins(m, Spends(Outpoints(inputs))).value.0, o) ==
                        if IsInput(inputs, o) then None else Find(m, o)
  {
    hide Spendable, IsInput;
    SpendsRemove(m, Outpoints(inputs));
    forall o ensures o in Outpoints(inputs) <==> IsInput(inputs, o) {
      OutpointsAre(inputs, o);
    }
  }

  // ---------- connecting a block reward ----------

  predicate AllCoins(outputs: seq<TxOutput>) {
    forall i :: 0 <= i < |outputs| ==> BecomesCoin(outputs[i])
  }

  /** A reward's outputs have all to become coins, and then they are added as a
      transaction's are. */
  lemma {:induction false} RewardAddsIff(m: Coins, block: Id, outputs: seq<TxOutput>, k: nat, height: nat)
    requires k <= |outputs|
    ensures RunCoins(m, RewardAdds(block, outputs[k..], k, height)).Some? ==> AllCoins(outputs[k..])
    ensures AllCoins(outputs[k..]) ==>
              RewardAdds(block, outputs[k..], k, height) ==
              Adds(OutputCoins(BlockRewardId(block), outputs[k..], k, Blockchain(height)))
    decreases |outputs| - k
  {
    hide IncludedInUtxoSet, BecomesCoin;
    if k == |outputs| {
    } else {
      var rest := outputs[k + 1..];
      assert outputs[k..][0] == outputs[k] && outputs[k..][1..] == rest;
      CoinsMatch(outputs[k]);
      assert AllCoins(outputs[k..]) <==> BecomesCoin(outputs[k]) && AllCoins(rest) by {
        assert forall i :: 0 <= i < |rest| ==> rest[i] == outputs[k..][i + 1];
        assert forall i :: 0 < i < |outputs[k..]| ==> outputs[k..][i] == rest[i - 1];
      }
      var prog := RewardAdds(block, outputs[k..], k, height);
      assert prog[1..] == RewardAdds(block, rest, k + 1, height);
      if BecomesCoin(outputs[k]) {
        var here := OutPointOf(BlockRewardId(block), k);
        RewardAddsIff(m[here := Utxo(outputs[k], Blockchain(height))], block, outputs, k + 1, height);
        AddsCons(OutputCoins(BlockRewardId(block), outputs[k..], k, Blockchain(height)));
      }
    }
  }

  /** A reward connects exactly when, besides, every output becomes a coin. */
  lemma ConnectRewardIff(m: Coins, reward: Reward, block: Id, height: nat)
    requires |RewardOutputs(reward)| <= OUTPUTS_MAX
    ensures var inputs := if reward.inputs.Some? then reward.inputs.value else [];
            var outputs := if reward.outputs.Some? then reward.outputs.value else [];
            var prog := ConnectReward(reward, block, height);
            && (RunCoins(m, prog).Some? <==>
                  && Spendable(m, inputs) && AllCoins(outputs)
                  && Creatable(m, inputs, BlockRewardId(block), outputs))
            && (RunCoins(m, prog).Some? ==>
                  forall o :: Find(RunCoins(m, prog).value.0, o) ==
                              CoinAfter(m, inputs, BlockRewardId(block), outputs, Blockchain(height), o))
  {
    hide Spendable, IsInput, CreatedAt, OutputCoins, AllCoins, RewardAdds;
    var inputs, outputs := RewardInputs(reward), RewardOutputs(reward);
    var source, os, origin := BlockRewardId(block), Outpoints(inputs), Blockchain(height);
    var adds := RewardAdds(block, outputs, 0, height);
    RunCoinsAppend(m, Spends(os), adds);
    SpendsIff(m, inputs);
    if Spendable(m, inputs) {
      Taken(m, inputs);
      var m1 := RunCoins(m, Spends(os)).value.0;
      assert outputs[0..] == outputs;
      RewardAddsIff(m1, block, outputs, 0, height);
      OutputsIff(m1, source, outputs, 0, origin);
      forall o ensures o in m1 <==> o in m && !IsInput(inputs, o) {
        assert Find(m1, o) == if IsInput(inputs, o) then None else Find(m, o);
      }
    }
  }

  // ---------- the undo ----------

  /** The undo of a connected transaction has, for each coin input, the coin
      that was there, and nothing for the others. */
  lemma {:induction false} UndoSlots(m: Coins, inputs: seq<TxInput>)
    requires RunCoins(m, Spends(Outpoints(inputs))).Some?
    ensures var spent := RunCoins(m, Spends(Outpoints(inputs))).value.1;
            && |spent| == |Outpoints(inputs)|
            && forall i :: 0 <= i < |inputs| ==>
                 TxUndo(inputs, spent)[i] == if inputs[i].FromUtxo? then Find(m, inputs[i].outpoint) else None
    decreases |inputs|
  {
    var os := Outpoints(inputs);
    SpendsRemove(m, os);
    if inputs == [] {
    } else if inputs[0].FromUtxo? {
      var o := inputs[0].outpoint;
      assert os[0] == o && os[1..] == Outpoints(inputs[1..]);
      SpendsCons(os);
      UndoSlots(m - {o}, inputs[1..]);
      SpendsIff(m, inputs);
      var spent := RunCoins(m, Spends(os)).value.1;
      var rest := RunCoins(m - {o}, Spends(os[1..])).value.1;
      assert spent[0] == m[o] && spent[1..] == rest;
      forall i | 0 < i < |inputs|
        ensures TxUndo(inputs, spent)[i] == if inputs[i].FromUtxo? then Find(m, inputs[i].outpoint) else None
      {
        assert TxUndo(inputs, spent)[i] == TxUndo(inputs[1..], rest)[i - 1] && inputs[1..][i - 1] == inputs[i];
      }
    } else {
      assert os == Outpoints(inputs[1..]);
      UndoSlots(m, inputs[1..]);
      var spent := RunCoins(m, Spends(os)).value.1;
      forall i | 0 < i < |inputs|
        ensures TxUndo(inputs, spent)[i] == if inputs[i].FromUtxo? then Find(m, inputs[i].outpoint) else None
      {
        assert TxUndo(inputs, spent)[i] == TxUndo(inputs[1..], spent)[i - 1] && inputs[1..][i - 1] == inputs[i];
      }
    }
  }

  // ---------- disconnecting, with any undo ----------

  /** Slot `i` of an undo puts a coin back at `o`. */
  predicate PutsBack(inputs: seq<TxInput>, undo: seq<Option<Utxo>>, i: int, o: OutPoint)
    requires |undo| == |inputs|
  {
    0 <= i < |inputs| && undo[i].Some? && inputs[i] == FromUtxo(o)
  }

  /** A filled slot is of a coin input, whose coin is not there, and no two are
      of the same coin. */
  ghost predicate Restorable(m: Coins, inputs: seq<TxInput>, undo: seq<Option<Utxo>>)
    requires |undo| == |inputs|
  {
    && (forall i :: 0 <= i < |inputs| && undo[i].Some? ==> inputs[i].FromUtxo? && inputs[i].outpoint !in m)
    && (forall i, j :: 0 <= i < j < |inputs| && undo[i].Some? && undo[j].Some? ==> inputs[i] != inputs[j])
  }

  /** The filled slots are put back and nothing else changes. */
  ghost predicate Restored(m: Coins, m': Coins, inputs: seq<TxInput>, undo: seq<Option<Utxo>>)
    requires |undo| == |inputs|
  {
    && (forall i, o :: PutsBack(inputs, undo, i, o) ==> Find(m', o) == undo[i])
    && (forall o :: (forall i :: !PutsBack(inputs, undo, i, o)) ==> Find(m', o) == Find(m, o))
  }

  lemma RestorableCons(m: Coins, inputs: seq<TxInput>, undo: seq<Option<Utxo>>)
    requires |undo| == |inputs| > 0
    ensures undo[0].None? ==> (Restorable(m, inputs, undo) <==> Restorable(m, inputs[1..], undo[1..]))
    ensures undo[0].Some? && inputs[0].FromUtxo? ==>
              var o := inputs[0].outpoint;
              (Restorable(m, inputs, undo) <==> o !in m && Restorable(m[o := undo[0].value], inputs[1..], undo[1..]))
  {
    var ins, us := inputs[1..], undo[1..];
    assert forall i :: 0 <= i < |ins| ==> ins[i] == inputs[i + 1] && us[i] == undo[i + 1];
    assert forall i :: 0 < i < |inputs| ==> inputs[i] == ins[i - 1] && undo[i] == us[i - 1];
    if undo[0].Some? && inputs[0].FromUtxo? {
      var o := inputs[0].outpoint;
      var m1 := m[o := undo[0].value];
      if o !in m && Restorable(m1, ins, us) {
        forall i | 0 <= i < |inputs| && undo[i].Some? ensures inputs[i].FromUtxo? && inputs[i].outpoint !in m {
          if i > 0 { assert ins[i - 1].FromUtxo? && ins[i - 1].outpoint !in m1; }
        }
        forall i, j | 0 <= i < j < |inputs| && undo[i].Some? && undo[j].Some? ensures inputs[i] != inputs[j] {
          if i == 0 { assert ins[j - 1].outpoint !in m1; }
        }
      }
      if Restorable(m, inputs, undo) {
        forall i | 0 <= i < |ins| && us[i].Some? ensures ins[i].FromUtxo? && ins[i].outpoint !in m1 {
          assert inputs[0] != inputs[i + 1];
        }
      }
    }
  }

  lemma RestoredCons(m: Coins, m1: Coins, m': Coins, inputs: seq<TxInput>, undo: seq<Option<Utxo>>)
    requires |undo| == |inputs| > 0
    requires Restorable(m1, inputs[1..], undo[1..]) && Restored(m1, m', inputs[1..], undo[1..])
    requires if undo[0].None? then m1 == m else inputs[0].FromUtxo? && m1 == m[inputs[0].outpoint := undo[0].value]
    ensures Restored(m, m', inputs, undo)
  {
    var ins, us := inputs[1..], undo[1..];
    forall i, o | PutsBack(inputs, undo, i, o) ensures Find(m', o) == undo[i] {
      if i > 0 {
        assert PutsBack(ins, us, i - 1, o);
      } else {
        assert o in m1;
        forall j ensures !PutsBack(ins, us, j, o) {
        }
        assert Find(m', o) == Find(m1, o);
      }
    }
    forall o | forall i :: !PutsBack(inputs, undo, i, o) ensures Find(m', o) == Find(m, o) {
      assert !PutsBack(inputs, undo, 0, o);
      forall j ensures !PutsBack(ins, us, j, o) {
        assert !PutsBack(inputs, undo, j + 1, o);
      }
      assert Find(m', o) == Find(m1, o);
    }
  }

  /** The inputs are put back exactly where the undo allows it. */
  lemma {:induction false} ReaddsIff(m: Coins, tx: Id, inputs: seq<TxInput>, undo: seq<Option<Utxo>>)
    requires |undo| == |inputs|
    ensures RunCoins(m, Readds(tx, inputs, undo)).Some? <==> Restorable(m, inputs, undo)
    ensures RunCoins(m, Readds(tx, inputs, undo)).Some? ==>
              Restored(m, RunCoins(m, Readds(tx, inputs, undo)).value.0, inputs, undo)
    decreases |inputs|
  {
    hide Restorable, Restored;
    var prog := Readds(tx, inputs, undo);
    if inputs == [] {
      NothingRestored(m, inputs, undo);
    } else {
      var rest := Readds(tx, inputs[1..], undo[1..]);
      if undo[0].Some? && !inputs[0].FromUtxo? {
        assert prog[0] == PFail(TxInputAndUndoMismatch(tx));
        NotRestorable(m, inputs, undo);
      } else {
        RestorableCons(m, inputs, undo);
        assert prog == (if undo[0].None? then [] else [PAdd(inputs[0].outpoint, undo[0].value)]) + rest;
        var m1 := if undo[0].None? then m else m[inputs[0].outpoint := undo[0].value];
        if undo[0].None? { assert prog == rest; } else { assert prog[1..] == rest; }
        ReaddsIff(m1, tx, inputs[1..], undo[1..]);
        if RunCoins(m, prog).Some? {
          RestoredCons(m, m1, RunCoins(m, prog).value.0, inputs, undo);
        }
      }
    }
  }

  lemma NothingRestored(m: Coins, inputs: seq<TxInput>, undo: seq<Option<Utxo>>)
    requires inputs == [] && undo == []
    ensures Restorable(m, inputs, undo) && Restored(m, m, inputs, undo)
  {
  }

  lemma NotRestorable(m: Coins, inputs: seq<TxInput>, undo: seq<Option<Utxo>>)
    requires |undo| == |inputs| > 0 && undo[0].Some? && !inputs[0].FromUtxo?
    ensures !Restorable(m, inputs, undo)
  {
  }

  /** The coins left once the outputs of a source are spent, from an index on. */
  function Without(m: Coins, source: SourceId, outputs: seq<TxOutput>): Coins {
    map o | o in m && CreatedAt(source, outputs, o).None? :: m[o]
  }

  lemma {:induction false} OutputSpendsIff(m: Coins, source: SourceId, outputs: seq<TxOutput>, k: nat)
    requires k <= |outputs| <= OUTPUTS_MAX
    ensures var prog := Spends(OutputOutpoints(source, outputs[k..], k));
            && (RunCoins(m, prog).Some? <==>
                  forall o :: CreatedAt(source, outputs, o).Some? && o.index >= k ==> o in m)
            && (RunCoins(m, prog).Some? ==>
                  forall o :: Find(RunCoins(m, prog).value.0, o) ==
                    if CreatedAt(source, outputs, o).Some? && o.index >= k then None else Find(m, o))
    decreases |outputs| - k
  {
    hide IncludedInUtxoSet, BecomesCoin;
    if k == |outputs| {
    } else {
      var here, os := OutPoint(source, k), OutputOutpoints(source, outputs[k..], k);
      assert outputs[k..][0] == outputs[k] && outputs[k..][1..] == outputs[k + 1..];
      CoinsMatch(outputs[k]);
      assert CreatedAt(source, outputs, here).Some? <==> BecomesCoin(outputs[k]);
      forall o | CreatedAt(source, outputs, o).Some? && o.index == k ensures o == here {
      }
      if BecomesCoin(outputs[k]) {
        assert os == [here] + OutputOutpoints(source, outputs[k + 1..], k + 1);
        SpendsCons(os);
        if here in m { OutputSpendsIff(m - {here}, source, outputs, k + 1); }
      } else {
        assert os == OutputOutpoints(source, outputs[k + 1..], k + 1);
        OutputSpendsIff(m, source, outputs, k + 1);
      }
    }
  }

  /** Disconnecting a transaction, with any undo, succeeds exactly when all the
      coins it created are there and the undo can be put back once they are
      gone; and it does just that. */
  lemma DisconnectTxIff(m: Coins, tx: Tx, undo: seq<Option<Utxo>>)
    requires |undo| == |tx.inputs| && |tx.outputs| <= OUTPUTS_MAX
    ensures var source := TransactionId(tx.id);
            var left := Without(m, source, tx.outputs);
            var prog := DisconnectTx(tx, undo);
            && (RunCoins(m, prog).Some? <==>
                  && (forall o :: CreatedAt(source, tx.outputs, o).Some? ==> o in m)
                  && Restorable(left, tx.inputs, undo))
            && (RunCoins(m, prog).Some? ==> Restored(left, RunCoins(m, prog).value.0, tx.inputs, undo))
  {
    hide CreatedAt, Restorable, Restored, OutputOutpoints, Readds;
    var source := TransactionId(tx.id);
    var os := OutputOutpoints(source, tx.outputs, 0);
    assert tx.outputs[0..] == tx.outputs;
    OutputSpendsIff(m, source, tx.outputs, 0);
    RunCoinsAppend(m, Spends(os), Readds(tx.id, tx.inputs, undo));
    if RunCoins(m, Spends(os)).Some? {
      var m1 := RunCoins(m, Spends(os)).value.0;
      var left := Without(m, source, tx.outputs);
      forall o ensures Find(m1, o) == Find(left, o) {
      }
      SameCoins(m1, left);
      ReaddsIff(m1, tx.id, tx.inputs, undo);
    }
  }

  /** A reward's undo has no slots: its coins go to the inputs in turn, and one
      that falls to an input of another kind is dropped. */
  function Slots(inputs: seq<TxInput>, us: seq<Utxo>): (undo: seq<Option<Utxo>>)
    ensures |undo| == |inputs|
    ensures forall i :: 0 <= i < |inputs| ==>
              undo[i] == if i < |us| && inputs[i].FromUtxo? then Some(us[i]) else None
  {
    if inputs == [] then []
    else if us == [] then [None] + Slots(inputs[1..], [])
    else [if inputs[0].FromUtxo? then Some(us[0]) else None] + Slots(inputs[1..], us[1..])
  }

  lemma {:induction false} ZipIsReadds(inputs: seq<TxInput>, us: seq<Utxo>, any: Id)
    ensures ZipAdds(inputs, us) == Readds(any, inputs, Slots(inputs, us))
    decreases |inputs|
  {
    if inputs == [] {
    } else {
      var rest := if us == [] then [] else us[1..];
      ZipIsReadds(inputs[1..], rest, any);
      assert Slots(inputs, us)[1..] == Slots(inputs[1..], rest);
      if us == [] { assert ZipAdds(inputs[1..], []) == []; }
    }
  }

  lemma {:induction false} RewardSpendsIff(m: Coins, block: Id, outputs: seq<TxOutput>, k: nat)
    requires k <= |outputs| <= OUTPUTS_MAX
    ensures var prog := Spends(RewardOutpoints(block, outputs[k..], k));
            && (RunCoins(m, prog).Some? <==> forall i :: k <= i < |outputs| ==> OutPoint(BlockRewardId(block), i) in m)
            && (RunCoins(m, prog).Some? ==>
                  forall o :: Find(RunCoins(m, prog).value.0, o) ==
                    if o.source == BlockRewardId(block) && k <= o.index < |outputs| then None else Find(m, o))
    decreases |outputs| - k
  {
    if k == |outputs| {
    } else {
      var here, os := OutPoint(BlockRewardId(block), k), RewardOutpoints(block, outputs[k..], k);
      assert outputs[k..][1..] == outputs[k + 1..];
      assert os == [here] + RewardOutpoints(block, outputs[k + 1..], k + 1);
      SpendsCons(os);
      forall o: OutPoint | o.source == BlockRewardId(block) && o.index == k ensures o == here {
      }
      if here in m { RewardSpendsIff(m - {here}, block, outputs, k + 1); }
    }
  }

  /** Disconnecting a reward, with any undo: all its outputs have to be there,
      of whatever kind; with inputs there has to be an undo, and its coins are
      put back slot by slot. */
  lemma DisconnectRewardIff(m: Coins, reward: Reward, block: Id, undo: Option<seq<Utxo>>)
    requires |RewardOutputs(reward)| <= OUTPUTS_MAX
    ensures var outputs := if reward.outputs.Some? then reward.outputs.value else [];
            var left := map o | o in m && !(o.source == BlockRewardId(block) && o.index < |outputs|) :: m[o];
            var prog := DisconnectReward(reward, block, undo);
            && (RunCoins(m, prog).Some? <==>
                  && (forall i :: 0 <= i < |outputs| ==> OutPoint(BlockRewardId(block), i) in m)
                  && (reward.inputs.Some? ==>
                        undo.Some? && Restorable(left, reward.inputs.value, Slots(reward.inputs.value, undo.value))))
            && (RunCoins(m, prog).Some? ==>
                  var m' := RunCoins(m, prog).value.0;
                  if reward.inputs.None? then m' == left
                  else Restored(left, m', reward.inputs.value, Slots(reward.inputs.value, undo.value)))
  {
    hide Restorable, Restored, RewardOutpoints, Readds, ZipAdds, Slots;
    var outputs := RewardOutputs(reward);
    var os := RewardOutpoints(block, outputs, 0);
    assert outputs[0..] == outputs;
    RewardSpendsIff(m, block, outputs, 0);
    RunCoinsAppend(m, Spends(os), RewardReadds(reward, block, undo));
    if RunCoins(m, Spends(os)).Some? {
      var m1 := RunCoins(m, Spends(os)).value.0;
      var left := map o | o in m && !(o.source == BlockRewardId(block) && o.index < |outputs|) :: m[o];
      forall o ensures Find(m1, o) == Find(left, o) {
      }
      SameCoins(m1, left);
      if reward.inputs.Some? && undo.Some? {
        ZipIsReadds(reward.inputs.value, undo.value, 0);
        ReaddsIff(m1, 0, reward.inputs.value, Slots(reward.inputs.value, undo.value));
      }
    }
  }

  // ---------- why a call is refused ----------

  /** A program that comes to a failure stops there with its error. */
  lemma {:induction false} FailsWith(l: Layer, p: seq<Prim>, e: Error, q: seq<Prim>)
    requires RunLayer(l, p).Ok?
    ensures RunLayer(l, p + [PFail(e)] + q) == Err(e)
    decreases |p|
  {
    var whole := p + [PFail(e)] + q;
    if p == [] {
      assert whole[0] == PFail(e);
    } else {
      assert whole[0] == p[0] && whole[1..] == p[1..] + [PFail(e)] + q;
      match p[0]
      case PSpend(o) => FailsWith(l.Spend(o).0, p[1..], e, q);
      case PAdd(o, u) => FailsWith(l.Add(o, u, false).value, p[1..], e, q);
    }
  }

  lemma {:induction false} RewardAddsAppend(block: Id, a: seq<TxOutput>, b: seq<TxOutput>, k: nat, height: nat)
    ensures RewardAdds(block, a + b, k, height) ==
            RewardAdds(block, a, k, height) + RewardAdds(block, b, k + |a|, height)
    decreases |a|
  {
    if a == [] {
      assert a + b == b;
    } else {
      assert (a + b)[0] == a[0] && (a + b)[1..] == a[1..] + b;
      RewardAddsAppend(block, a[1..], b, k + 1, height);
    }
  }

  lemma RewardAddsBad(block: Id, outputs: seq<TxOutput>, k: nat, height: nat)
    requires outputs != [] && !BecomesCoin(outputs[0])
    ensures RewardAdds(block, outputs, k, height) ==
            [PFail(InvalidBlockRewardOutputType(block))] + RewardAdds(block, outputs[1..], k + 1, height)
  {
    CoinsMatch(outputs[0]);
  }

  /** The first reward output of a kind that becomes no coin stops the
      connection, naming the block. */
  lemma RewardKindRefused(l: Layer, reward: Reward, block: Id, height: nat, k: nat)
    requires reward.outputs.Some? && k < |reward.outputs.value| && !BecomesCoin(reward.outputs.value[k])
    requires RunLayer(l, ConnectReward(reward.(outputs := Some(reward.outputs.value[..k])), block, height)).Ok?
    ensures RunLayer(l, ConnectReward(reward, block, height)) == Err(InvalidBlockRewardOutputType(block))
  {
    hide RunLayer, RewardAdds, Spends, Outpoints, IncludedInUtxoSet, BecomesCoin;
    var outputs := reward.outputs.value;
    var before := reward.(outputs := Some(outputs[..k]));
    assert outputs == outputs[..k] + outputs[k..];
    RewardAddsAppend(block, outputs[..k], outputs[k..], 0, height);
    RewardAddsBad(block, outputs[k..], k, height);
    var fail, rest := PFail(InvalidBlockRewardOutputType(block)), RewardAdds(block, outputs[k..][1..], k + 1, height);
    assert ConnectReward(reward, block, height) == ConnectReward(before, block, height) + [fail] + rest;
    FailsWith(l, ConnectReward(before, block, height), InvalidBlockRewardOutputType(block), rest);
  }

  /** A reward with inputs is not disconnected without an undo. */
  lemma MissingUndoRefused(l: Layer, reward: Reward, block: Id)
    requires reward.inputs.Some?
    requires RunLayer(l, DisconnectReward(reward.(inputs := None), block, None)).Ok?
    ensures RunLayer(l, DisconnectReward(reward, block, None)) == Err(MissingBlockRewardUndo(block))
  {
    var spends := DisconnectReward(reward.(inputs := None), block, None);
    assert DisconnectReward(reward, block, None) == spends + [PFail(MissingBlockRewardUndo(block))] + [];
    FailsWith(l, spends, MissingBlockRewardUndo(block), []);
  }

  lemma {:induction false} ReaddsAppend(
    tx: Id, a: seq<TxInput>, b: seq<TxInput>, u: seq<Option<Utxo>>, v: seq<Option<Utxo>>)
    requires |u| == |a| && |v| == |b|
    ensures Readds(tx, a + b, u + v) == Readds(tx, a, u) + Readds(tx, b, v)
    decreases |a|
  {
    if a == [] {
      assert a + b == b && u + v == v;
    } else {
      assert (a + b)[0] == a[0] && (a + b)[1..] == a[1..] + b;
      assert (u + v)[0] == u[0] && (u + v)[1..] == u[1..] + v;
      ReaddsAppend(tx, a[1..], b, u[1..], v);
    }
  }

  lemma ReaddsBad(tx: Id, inputs: seq<TxInput>, undo: seq<Option<Utxo>>)
    requires |undo| == |inputs| > 0 && undo[0].Some? && !inputs[0].FromUtxo?
    ensures Readds(tx, inputs, undo) == [PFail(TxInputAndUndoMismatch(tx))] + Readds(tx, inputs[1..], undo[1..])
  {
  }

  /** The first undo slot with a coin for an input that is no coin stops the
      disconnection, naming the transaction. */
  lemma UndoMismatchRefused(l: Layer, tx: Tx, undo: seq<Option<Utxo>>, k: nat)
    requires |undo| == |tx.inputs| && k < |undo| && undo[k].Some? && !tx.inputs[k].FromUtxo?
    requires RunLayer(l, DisconnectTx(tx.(inputs := tx.inputs[..k]), undo[..k])).Ok?
    ensures RunLayer(l, DisconnectTx(tx, undo)) == Err(TxInputAndUndoMismatch(tx.id))
  {
    hide RunLayer, Readds, Spends, OutputOutpoints;
    var before := DisconnectTx(tx.(inputs := tx.inputs[..k]), undo[..k]);
    assert tx.inputs == tx.inputs[..k] + tx.inputs[k..] && undo == undo[..k] + undo[k..];
    ReaddsAppend(tx.id, tx.inputs[..k], tx.inputs[k..], undo[..k], undo[k..]);
    ReaddsBad(tx.id, tx.inputs[k..], undo[k..]);
    var rest := Readds(tx.id, tx.inputs[k..][1..], undo[k..][1..]);
    assert DisconnectTx(tx, undo) == before + [PFail(TxInputAndUndoMismatch(tx.id))] + rest;
    FailsWith(l, before, TxInputAndUndoMismatch(tx.id), rest);
  }
}
