/** The interpreter as the source runs it: stacks updated in place, a mask
    stack with its idle counter, and loops over iterators
    (script/src/interpreter.rs). */
module Interpreter {
  import opened Wrappers
  import opened ScriptNum
  import opened Opcodes
  import opened Script
  import opened Machine
  import opened Structured
  import opened MachineFacts

  // ---------- the data stack ----------

  class DataStack {
    var items: Stack

    constructor (items: Stack)
      ensures this.items == items
    {
      this.items := items;
    }

    method Pop() returns (r: Outcome<Bytes>)
      modifies this
      ensures var p := Machine.Pop(old(items));
              if p.Err? then r == Err(p.error) && items == old(items) else r == Ok(p.value.0) && items == p.value.1
    {
      if |items| == 0 {
        return Err(NotEnoughElementsOnStack);
      }
      r := Ok(items[|items| - 1]);
      items := items[..|items| - 1];
    }

    method PopInt() returns (r: Outcome<int>)
      modifies this
      ensures var p := Machine.PopInt(old(items));
              if p.Err? then r == Err(p.error) else r == Ok(p.value.0) && items == p.value.1
      ensures r.Ok? ==> -0x8000_0000 < r.value < 0x8000_0000
    {
      var x := Pop();
      if x.Err? {
        return Err(x.error);
      }
      r := ReadScriptInt(x.value);
      if r.Ok? {
        FourBytes(x.value);
      }
    }

    method Push(x: Bytes)
      modifies this
      ensures items == old(items) + [x]
    {
      items := items + [x];
    }

    method PushInt(n: int)
      requires FitsI64(n) && n != -TWO_63
      modifies this
      ensures items == old(items) + [Encode(n)]
    {
      var v := BuildScriptInt(n);
      Push(v);
    }

    method PushBool(b: bool)
      modifies this
      ensures items == old(items) + [FromBool(b)]
    {
      PushInt(if b then 1 else 0);
    }

    /** Pops a truth value and fails unless it is true. */
    method Verify() returns (r: Outcome<()>)
      modifies this
      ensures var p := PopVerify(old(items));
              if p.Err? then r == Err(p.error) else r == Ok(()) && items == p.value
    {
      var x := Pop();
      if x.Err? {
        return Err(x.error);
      }
      r := if ReadScriptBool(x.value) then Ok(()) else Err(VerifyFail);
    }

    method AtLeast(n: nat) returns (r: Outcome<()>)
      ensures r == Need(items, n)
    {
      r := if |items| >= n then Ok(()) else Err(NotEnoughElementsOnStack);
    }

    method DropTop(n: nat) returns (r: Outcome<()>)
      modifies this
      ensures r == Need(old(items), n)
      ensures r.Ok? ==> items == old(items)[..|old(items)| - n]
    {
      r := AtLeast(n);
      if r.Ok? {
        items := items[..|items| - n];
      }
    }

    /** Copies the items from `start` to before `end`, counted from the top. */
    method DupRange(start: nat, end: nat) returns (r: Outcome<()>)
      requires start <= end
      modifies this
      ensures r == Need(old(items), end)
      ensures r.Ok? ==> items == old(items) + old(items)[|old(items)| - end..|old(items)| - start]
    {
      r := AtLeast(end);
      if r.Ok? {
        items := items + items[|items| - end..|items| - start];
      }
    }

    /** Exchanges the top `n` items with the `n` below them. */
    method SwapTop(n: nat) returns (r: Outcome<()>)
      modifies this
      ensures r == Need(old(items), 2 * n)
      ensures r.Ok? ==>
                var len := |old(items)|;
                items == old(items)[..len - 2 * n] + old(items)[len - n..] + old(items)[len - 2 * n..len - n]
    {
      r := AtLeast(2 * n);
      if r.Ok? {
        var len := |items|;
        items := items[..len - 2 * n] + items[len - n..] + items[len - 2 * n..len - n];
      }
    }

    /** Takes out the `n`-th item from the top. */
    method Remove(n: nat) returns (r: Outcome<Bytes>)
      modifies this
      ensures |old(items)| < n + 1 ==> r == Err(NotEnoughElementsOnStack) && items == old(items)
      ensures |old(items)| >= n + 1 ==>
                var k := |old(items)| - n - 1;
                r == Ok(old(items)[k]) && items == old(items)[..k] + old(items)[k + 1..]
    {
      if |items| < n + 1 {
        return Err(NotEnoughElementsOnStack);
      }
      var k := |items| - n - 1;
      r := Ok(items[k]);
      items := items[..k] + items[k + 1..];
    }
  }

  // ---------- the mask stack ----------

  function CountIdle(mask: seq<bool>): nat {
    if mask == [] then 0 else CountIdle(mask[..|mask| - 1]) + if mask[|mask| - 1] then 0 else 1
  }

  /** No branch is masked exactly when the count of masked branches is zero. */
  lemma {:induction false} IdleIsMasked(mask: seq<bool>)
    ensures CountIdle(mask) == 0 <==> AllTrue(mask)
    decreases |mask|
  {
    if mask == [] {
    } else {
      var n := |mask| - 1;
      IdleIsMasked(mask[..n]);
      AllTrueSnoc(mask[..n], mask[n]);
      assert mask == mask[..n] + [mask[n]];
    }
  }

  class ExecStack {
    var stack: seq<bool>
    var numIdle: nat

    ghost predicate Valid()
      reads this
    {
      numIdle == CountIdle(stack)
    }

    constructor ()
      ensures Valid() && stack == []
    {
      stack := [];
      numIdle := 0;
    }

    method Push(executing: bool)
      requires Valid()
      modifies this
      ensures Valid() && stack == old(stack) + [executing]
    {
      assert (stack + [executing])[..|stack|] == stack;
      stack := stack + [executing];
      numIdle := numIdle + (if executing then 0 else 1);
    }

    /** The decrement cannot go below zero: the popped mask was counted. */
    method Pop() returns (r: Option<bool>)
      requires Valid()
      modifies this
      ensures Valid()
      ensures old(stack) == [] ==> r == None && stack == []
      ensures old(stack) != [] ==>
                r == Some(old(stack)[|old(stack)| - 1]) && stack == old(stack)[..|old(stack)| - 1]
    {
      if |stack| == 0 {
        return None;
      }
      var executing := stack[|stack| - 1];
      stack := stack[..|stack| - 1];
      numIdle := numIdle - (if executing then 0 else 1);
      r := Some(executing);
    }

    method Executing() returns (r: bool)
      requires Valid()
      ensures r <==> AllTrue(stack)
    {
      IdleIsMasked(stack);
      r := numIdle == 0;
    }
  }

  // ---------- ordinary opcodes ----------

  predicate IsCopy(op: Ordinary) {
    || op.Drop? || op.TwoDrop? || op.Dup? || op.TwoDup? || op.ThreeDup? || op.Over? || op.TwoOver?
  }

  method DropOrCopy(op: Ordinary, stack: DataStack) returns (r: Outcome<()>)
    requires IsShuffle(op) && IsCopy(op)
    modifies stack
    ensures r == Need(old(stack.items), ShuffleNeeds(op))
    ensures r.Ok? ==> stack.items == Shuffle(op, old(stack.items))
  {
    if op.Drop? {
      r := stack.DropTop(1);
    } else if op.TwoDrop? {
      r := stack.DropTop(2);
    } else if op.Dup? {
      r := stack.DupRange(0, 1);
    } else if op.TwoDup? {
      r := stack.DupRange(0, 2);
    } else if op.ThreeDup? {
      r := stack.DupRange(0, 3);
    } else if op.Over? {
      r := stack.DupRange(1, 2);
    } else {
      r := stack.DupRange(2, 4);
    }
  }

  method Swap(stack: DataStack) returns (r: Outcome<()>)
    modifies stack
    ensures r == Need(old(stack.items), 2)
    ensures r.Ok? ==> stack.items == Shuffle(Ordinary.Swap, old(stack.items))
  {
    r := stack.SwapTop(1);
  }

  method TwoSwap(stack: DataStack) returns (r: Outcome<()>)
    modifies stack
    ensures r == Need(old(stack.items), 4)
    ensures r.Ok? ==> stack.items == Shuffle(Ordinary.TwoSwap, old(stack.items))
  {
    r := stack.SwapTop(2);
  }

  method TwoRot(stack: DataStack) returns (r: Outcome<()>)
    modifies stack
    ensures r == Need(old(stack.items), 6)
    ensures r.Ok? ==> stack.items == Shuffle(Ordinary.TwoRot, old(stack.items))
  {
    r := stack.AtLeast(6);
    if r.Ok? {
      var base := |stack.items| - 6;
      var top := stack.items[base..];
      stack.items := stack.items[..base] + [top[2], top[3], top[4], top[5], top[0], top[1]];
    }
  }

  method Nip(stack: DataStack) returns (r: Outcome<()>)
    modifies stack
    ensures r == Need(old(stack.items), 2)
    ensures r.Ok? ==> stack.items == Shuffle(Ordinary.Nip, old(stack.items))
  {
    var x := stack.Pop();
    if x.Err? {
      return Err(x.error);
    }
    var y := stack.Pop();
    if y.Err? {
      return Err(y.error);
    }
    stack.Push(x.value);
    r := Ok(());
  }

  method Rot(stack: DataStack) returns (r: Outcome<()>)
    modifies stack
    ensures r == Need(old(stack.items), 3)
    ensures r.Ok? ==> stack.items == Shuffle(Ordinary.Rot, old(stack.items))
  {
    var x := stack.Remove(2);
    if x.Err? {
      return Err(x.error);
    }
    stack.Push(x.value);
    r := Ok(());
  }

  method Tuck(stack: DataStack) returns (r: Outcome<()>)
    modifies stack
    ensures r == Need(old(stack.items), 2)
    ensures r.Ok? ==> stack.items == Shuffle(Ordinary.Tuck, old(stack.items))
  {
    r := stack.AtLeast(1);
    if r.Err? {
      return;
    }
    var x := stack.items[|stack.items| - 1];
    r := stack.SwapTop(1);
    if r.Ok? {
      stack.Push(x);
    }
  }

  method ShuffleStack(op: Ordinary, stack: DataStack) returns (r: Outcome<()>)
    requires IsShuffle(op)
    modifies stack
    ensures r == Need(old(stack.items), ShuffleNeeds(op))
    ensures r.Ok? ==> stack.items == Shuffle(op, old(stack.items))
  {
    hide Shuffle;
    if IsCopy(op) {
      r := DropOrCopy(op, stack);
    } else if op.Nip? {
      r := Nip(stack);
    } else if op.Rot? {
      r := Rot(stack);
    } else if op.Tuck? {
      r := Tuck(stack);
    } else if op.Swap? {
      r := Swap(stack);
    } else if op.TwoSwap? {
      r := TwoSwap(stack);
    } else {
      r := TwoRot(stack);
    }
  }

  method OpNum1(ctx: Context, op: Ordinary, stack: DataStack) returns (r: Outcome<()>)
    requires IsUnary(op)
    modifies stack
    ensures Reports(Compute(ctx, op, old(stack.items)), r, stack.items)
  {
    hide Encode, ReadScriptInt, Compute;
    ComputeParts(ctx, op, stack.items);
    var x := stack.PopInt();
    if x.Err? {
      return Err(x.error);
    }
    stack.PushInt(Unary(op, x.value));
    r := Ok(());
  }

  method OpNum2(ctx: Context, op: Ordinary, stack: DataStack) returns (r: Outcome<()>)
    requires IsBinary(op)
    modifies stack
    ensures Reports(Compute(ctx, op, old(stack.items)), r, stack.items)
  {
    hide Encode, Machine.PopInt, Binary, Compute;
    ComputeParts(ctx, op, stack.items);
    var y := stack.PopInt();
    if y.Err? {
      return Err(y.error);
    }
    var x := stack.PopInt();
    if x.Err? {
      return Err(x.error);
    }
    assert FitsI64(Binary(op, x.value, y.value)) && Binary(op, x.value, y.value) != -TWO_63 by {
      BinaryFits(op, x.value, y.value);
    }
    stack.PushInt(Binary(op, x.value, y.value));
    r := Ok(());
  }

  lemma BinaryFits(op: Ordinary, x: int, y: int)
    requires IsBinary(op)
    requires -0x8000_0000 < x < 0x8000_0000 && -0x8000_0000 < y < 0x8000_0000
    ensures FitsI64(Binary(op, x, y)) && Binary(op, x, y) != -TWO_63
  {
  }

  /** A method's verdict and final stack against the specified outcome. */
  predicate Reports(spec: Outcome<Stack>, r: Outcome<()>, items: Stack) {
    if spec.Err? then r == Err(spec.error) else r == Ok(()) && items == spec.value
  }

  method PickOrRoll(ctx: Context, op: Ordinary, stack: DataStack) returns (r: Outcome<()>)
    requires op.Pick? || op.Roll?
    modifies stack
    ensures Reports(Compute(ctx, op, old(stack.items)), r, stack.items)
  {
    hide Machine.PopInt, Compute;
    ComputeParts(ctx, op, stack.items);
    var i := stack.PopInt();
    if i.Err? {
      return Err(i.error);
    }
    if i.value < 0 {
      return Err(InvalidOperand);
    }
    if op.Pick? {
      r := stack.AtLeast(i.value + 1);
      if r.Ok? {
        stack.Push(stack.items[|stack.items| - i.value - 1]);
      }
    } else {
      var x := stack.Remove(i.value);
      if x.Err? {
        return Err(x.error);
      }
      stack.Push(x.value);
      r := Ok(());
    }
  }

  /** Opcodes outside the groups above. */
  method ComputeRest(ctx: Context, op: Ordinary, stack: DataStack) returns (r: Outcome<()>)
    requires !IsShuffle(op) && !IsUnary(op) && !IsBinary(op) && !op.Pick? && !op.Roll?
    modifies stack
    ensures Reports(Compute(ctx, op, old(stack.items)), r, stack.items)
  {
    hide UnaryOn, BinaryOn, PickFrom, RollFrom, Shuffle, Machine.PopInt, Encode;
    r := Ok(());
    if op.Verify? {
    } else if op.IfDup? {
      r := stack.AtLeast(1);
      if r.Ok? && ReadScriptBool(stack.items[|stack.items| - 1]) {
        stack.Push(stack.items[|stack.items| - 1]);
      }
    } else if op.Depth? {
      if |stack.items| >= I32_MAX {
        return Err(NumericOverflow);
      }
      stack.PushInt(|stack.items|);
    } else if op.Size? {
      r := stack.AtLeast(1);
      if r.Ok? {
        var len := |stack.items[|stack.items| - 1]|;
        if len >= I32_MAX {
          return Err(NumericOverflow);
        }
        stack.PushInt(len);
      }
    } else if op.Within? {
      var hi := stack.PopInt();
      if hi.Err? {
        return Err(hi.error);
      }
      var lo := stack.PopInt();
      if lo.Err? {
        return Err(lo.error);
      }
      var x := stack.PopInt();
      if x.Err? {
        return Err(x.error);
      }
      stack.PushBool(lo.value <= x.value < hi.value);
    } else if op.Equal? || op.EqualVerify? {
      var y := stack.Pop();
      if y.Err? {
        return Err(y.error);
      }
      var x := stack.Pop();
      if x.Err? {
        return Err(x.error);
      }
      stack.PushBool(x.value == y.value);
    } else {
      var x := stack.Pop();
      if x.Err? {
        return Err(x.error);
      }
      stack.Push(HashOf(ctx, op, x.value));
    }
  }

  method ExecuteOpcode(ctx: Context, op: Ordinary, stack: DataStack) returns (r: Outcome<()>)
    modifies stack
    ensures Reports(Execute(ctx, op, old(stack.items)), r, stack.items)
  {
    hide Compute;
    if IsShuffle(op) {
      ShuffleCompute(ctx, op, stack.items);
      r := ShuffleStack(op, stack);
    } else if IsUnary(op) {
      r := OpNum1(ctx, op, stack);
    } else if IsBinary(op) {
      r := OpNum2(ctx, op, stack);
    } else if op.Pick? || op.Roll? {
      r := PickOrRoll(ctx, op, stack);
    } else {
      r := ComputeRest(ctx, op, stack);
    }
    if r.Ok? && op.IsVerify() {
      r := stack.Verify();
    }
  }

  lemma ShuffleCompute(ctx: Context, op: Ordinary, s: Stack)
    requires IsShuffle(op)
    ensures Compute(ctx, op, s) ==
            if |s| >= ShuffleNeeds(op) then Ok(Shuffle(op, s)) else Err(NotEnoughElementsOnStack)
  {
  }

  // ---------- signatures ----------

  /** The matcher as two nested loops over iterators. Taking the next key can
      never find the iterator empty. */
  method CheckMultisigLoop(ctx: Context, sigs: seq<Bytes>, keys: seq<Bytes>, subscript: Bytes, codesep: nat)
    returns (r: Outcome<bool>)
    ensures r == CheckMultisig(ctx, sigs, keys, subscript, codesep)
  {
    var i, k := 0, 0;
    ghost var goal := CheckMultisig(ctx, sigs, keys, subscript, codesep);
    assert sigs[0..] == sigs && keys[0..] == keys;
    while i < |sigs|
      invariant 0 <= i <= |sigs| && 0 <= k <= |keys|
      invariant goal == CheckMultisig(ctx, sigs[i..], keys[k..], subscript, codesep)
    {
      var sig := sigs[i];
      ghost var left := sigs[i..];
      i := i + 1;
      assert left[0] == sig && left[1..] == sigs[i..];
      var found := false;
      while !found
        invariant k <= |keys|
        invariant !found ==> goal == CheckMultisig(ctx, left, keys[k..], subscript, codesep)
        invariant found ==> goal == CheckMultisig(ctx, sigs[i..], keys[k..], subscript, codesep)
        decreases !found, |keys| - k
      {
        if |keys| - k < |sigs| - i + 1 {
          return Ok(false);
        }
        var key := keys[k];
        assert keys[k..][0] == key && keys[k..][1..] == keys[k + 1..];
        k := k + 1;
        match ctx.parsePubkey(key) {
          case Malformed =>
            return Err(PubkeyFormat);
          case Reserved =>
            found := true;
          case Parsed(pubkey) =>
            var data := ctx.parseSignature(pubkey, sig);
            if data.Some? {
              found := ctx.verifySignature(data.value, subscript, codesep);
            }
        }
      }
    }
    r := Ok(true);
  }

  method CheckSigOp(ctx: Context, sig: Signature, stack: DataStack, subscript: Bytes, codesep: nat)
    returns (r: Outcome<()>)
    modifies stack
    ensures Reports(ExecuteSignature(ctx, sig, old(stack.items), subscript, codesep), r, stack.items)
  {
    hide CheckMultisig, ReadScriptInt, PopVerify;
    if sig.CheckSig? || sig.CheckSigVerify? {
      var pubkey := stack.Pop();
      if pubkey.Err? {
        return Err(pubkey.error);
      }
      var signature := stack.Pop();
      if signature.Err? {
        return Err(signature.error);
      }
      var ok := CheckMultisigLoop(ctx, [signature.value], [pubkey.value], subscript, codesep);
      if ok.Err? {
        return Err(ok.error);
      }
      stack.PushBool(ok.value);
      r := Ok(());
    } else {
      r := CheckMultisigOp(ctx, sig, stack, subscript, codesep);
      if r.Err? {
        return;
      }
    }
    if sig.IsVerify() {
      r := stack.Verify();
    }
  }

  method CheckMultisigOp(ctx: Context, sig: Signature, stack: DataStack, subscript: Bytes, codesep: nat)
    returns (r: Outcome<()>)
    requires sig.CheckMultiSig? || sig.CheckMultiSigVerify?
    modifies stack
    ensures Reports(CheckSignatures(ctx, sig, old(stack.items), subscript, codesep), r, stack.items)
  {
    hide CheckMultisig, FromBool, ReadScriptInt, Machine.PopInt;
    var nkey := stack.PopInt();
    if nkey.Err? {
      return Err(nkey.error);
    }
    if nkey.value < 0 || nkey.value > ctx.maxPubkeys {
      return Err(PubkeyCount);
    }
    var rest, n := stack.items, |stack.items|;
    r := stack.AtLeast(nkey.value + 1);
    if r.Err? {
      return;
    }
    var keys := rest[n - nkey.value..];
    var nsig := ReadScriptInt(rest[n - nkey.value - 1]);
    if nsig.Err? {
      return Err(nsig.error);
    }
    if nsig.value < 0 || nsig.value > nkey.value {
      return Err(SigCount);
    }
    var used := nsig.value + nkey.value + 1;
    r := stack.AtLeast(used);
    if r.Err? {
      return;
    }
    var sigs := rest[n - used..n - nkey.value - 1];
    var ok := CheckMultisigLoop(ctx, sigs, keys, subscript, codesep);
    if ok.Err? {
      return Err(ok.error);
    }
    r := stack.DropTop(used);
    var dummy := stack.Pop();
    if dummy.Err? {
      return Err(dummy.error);
    }
    if dummy.value != [] {
      return Err(NullDummy);
    }
    stack.PushBool(ok.value);
    r := Ok(());
  }

  // ---------- the run ----------

  /** The variables of a run. */
  class Run {
    const ctx: Context
    const stack: DataStack
    const alt: DataStack
    const exec: ExecStack
    var subscript: Bytes
    var codesep: nat
    var count: nat

    ghost predicate Valid()
      reads this, exec
    {
      stack != alt && exec.Valid()
    }

    ghost function AsState(): State
      reads this, stack, alt
    {
      State(stack.items, alt.items, subscript, codesep, count)
    }

    constructor (ctx: Context, script: Bytes, items: Stack)
      ensures Valid() && fresh(stack) && fresh(alt) && fresh(exec)
      ensures this.ctx == ctx && AsState() == InitialState(script, items) && exec.stack == []
    {
      this.ctx := ctx;
      stack := new DataStack(items);
      alt := new DataStack([]);
      exec := new ExecStack();
      subscript := script;
      codesep := U32_MAX;
      count := 0;
    }

    /** A taken opcode. */
    method Taken(kind: Class) returns (r: Outcome<()>)
      requires Valid()
      requires kind.PushNum? ==> -1 <= kind.n <= 16
      modifies stack, alt
      ensures Valid()
      ensures var spec := ExecTaken(ctx, old(AsState()), kind);
              if spec.Err? then r == Err(spec.error) else r == Ok(()) && AsState() == spec.value
    {
      hide Execute, ExecuteSignature, ReadScriptIntSize, Encode;
      r := Ok(());
      if kind.ReturnOp? {
        return Err(VerifyFail);
      } else if kind.PushNum? {
        stack.PushInt(kind.n);
      } else if kind.AltStackOp? {
        if kind.alt.ToAltStack? {
          var x := stack.Pop();
          if x.Err? {
            return Err(x.error);
          }
          alt.Push(x.value);
        } else {
          var x := alt.Pop();
          if x.Err? {
            return Err(x.error);
          }
          stack.Push(x.value);
        }
      } else if kind.SignatureOp? {
        r := CheckSigOp(ctx, kind.sig, stack, subscript, codesep);
      } else if kind.TimeLockOp? {
        r := stack.AtLeast(1);
        if r.Err? {
          return;
        }
        var time := ReadScriptIntSize(stack.items[|stack.items| - 1], 5);
        if time.Err? {
          return Err(time.error);
        }
        var ok := if kind.lock.CheckLockTime? then ctx.checkLockTime(time.value) else ctx.checkSequence(time.value);
        r := if ok then Ok(()) else Err(TimeLockNotMet);
      } else if kind.OrdinaryOp? {
        r := ExecuteOpcode(ctx, kind.op, stack);
      }
    }

    /** Everything but conditionals. The arms for opcodes that carry data are
        unreachable: the parser turns them into pushes. */
    method Plain(li: Located, executing: bool) returns (r: Outcome<()>)
      requires Valid() && IsPlain(li)
      modifies this, stack, alt
      ensures Valid()
      ensures var spec := ExecPlain(ctx, old(AsState()), li, executing);
              if spec.Err? then r == Err(spec.error) else r == Ok(()) && AsState() == spec.value
    {
      hide ExecTaken;
      r := Ok(());
      match li.instr {
        case Push(data) =>
          if |data| > ctx.maxElementSize {
            return Err(PushSize);
          }
          if executing {
            stack.Push(data);
          }
        case Op(code) =>
          var kind := Classify(code);
          assert !kind.PushBytes? && !kind.PushDataOp?;
          if kind.IllegalOpcode? {
            return Err(IllegalOp);
          } else if kind.ControlFlowOp? {
            subscript := li.rest;
            codesep := count;
          } else if executing {
            r := Taken(kind);
          }
      }
    }

    method Conditional(flow: ControlFlow, executing: bool) returns (r: Outcome<()>)
      requires Valid() && !flow.CodeSeparator? && executing == AllTrue(exec.stack)
      modifies stack, exec
      ensures Valid()
      ensures alt.items == old(alt.items)
      ensures var mask := old(exec.stack);
              if flow.If? || flow.NotIf? then
                if !executing then r == Ok(()) && stack.items == old(stack.items) && exec.stack == mask + [false]
                else
                  var c := PopCondition(ctx, old(stack.items), flow.NotIf?);
                  if c.Err? then r == Err(c.error)
                  else r == Ok(()) && stack.items == c.value.1 && exec.stack == mask + [c.value.0]
              else if mask == [] then r == Err(UnbalancedIfElse)
              else
                && r == Ok(()) && stack.items == old(stack.items)
                && exec.stack == mask[..|mask| - 1] + if flow.Else? then [!mask[|mask| - 1]] else []
    {
      r := Ok(());
      if flow.If? || flow.NotIf? {
        var cond := false;
        if executing {
          var top := stack.Pop();
          if top.Err? {
            return Err(top.error);
          }
          var c := top.value;
          if !ctx.minimalIf {
            cond := ReadScriptBool(c);
          } else if c == [] {
            cond := false;
          } else if c == [1] {
            cond := true;
          } else {
            return Err(InvalidOperand);
          }
          cond := cond != flow.NotIf?;
        }
        exec.Push(cond);
      } else {
        var top := exec.Pop();
        if top.None? {
          return Err(UnbalancedIfElse);
        }
        if flow.Else? {
          exec.Push(!top.value);
        }
      }
    }

    /** One turn of the loop: the instruction, the size check, the counter. */
    method Step(li: Located) returns (r: Outcome<()>)
      requires Valid() && (li.instr.Op? ==> !CarriesData(li.instr.code))
      modifies this, stack, alt, exec
      ensures Valid()
      ensures var spec := StepFlat(ctx, old(AsState()), old(exec.stack), li);
              if spec.Err? then r == Err(spec.error)
              else r == Ok(()) && AsState() == spec.value.0 && exec.stack == spec.value.1
    {
      hide ExecPlain, PopCondition, AllTrue;
      var executing := exec.Executing();
      if IsConditional(li.instr) {
        r := Conditional(FlowOf(li.instr).value, executing);
      } else {
        r := Plain(li, executing);
      }
      if r.Err? {
        return;
      }
      if |stack.items| + |alt.items| > ctx.maxStackElements {
        return Err(StackSize);
      }
      count := if count < U32_MAX then count + 1 else count;
    }
  }

  /** run_script: total on every byte string and every initial stack. */
  method RunScriptLoop(ctx: Context, script: Bytes, initial: Stack) returns (r: Outcome<Stack>)
    ensures r == RunScript(ctx, script, initial)
  {
    hide StepFlat, ParseOne;
    if |script| > ctx.maxScriptSize {
      return Err(ScriptSize);
    }
    var instructions := new Instructions(script, ctx.minimalPush);
    var run := new Run(ctx, script, initial);
    ghost var goal := RunBytes(ctx, InitialState(script, initial), [], script);
    while instructions.data != []
      invariant run.Valid() && run.ctx == ctx && instructions.minimal == ctx.minimalPush
      invariant fresh(run) && fresh(run.stack) && fresh(run.alt) && fresh(run.exec)
      invariant goal == RunBytes(ctx, run.AsState(), run.exec.stack, instructions.data)
      decreases |instructions.data|
    {
      var next := instructions.Next();
      if next.value.Err? {
        return Err(next.value.error);
      }
      var step := run.Step(Located(next.value.value, instructions.data));
      if step.Err? {
        return Err(step.error);
      }
    }
    if run.exec.stack != [] {
      return Err(UnbalancedIfElse);
    }
    r := Ok(run.stack.items);
  }

  /** run_pushdata. */
  method RunPushdataLoop(ctx: Context, script: Bytes) returns (r: Outcome<Stack>)
    ensures r == RunPushdata(ctx, script)
  {
    hide ParseOne, Encode;
    if |script| > ctx.maxScriptSize {
      return Err(ScriptSize);
    }
    var instructions := new Instructions(script, ctx.minimalPush);
    var stack := new DataStack([]);
    while instructions.data != []
      invariant instructions.minimal == ctx.minimalPush
      invariant PushBytesFrom(ctx, [], script) == PushBytesFrom(ctx, stack.items, instructions.data)
      decreases |instructions.data|
    {
      var next := instructions.Next();
      if next.value.Err? {
        return Err(next.value.error);
      }
      match next.value.value {
        case Push(data) =>
          if |data| > ctx.maxElementSize {
            return Err(PushSize);
          }
          stack.Push(data);
        case Op(code) =>
          var kind := Classify(code);
          if !kind.PushNum? {
            return Err(PushOnly);
          }
          stack.PushInt(kind.n);
      }
      if |stack.items| > ctx.maxStackElements {
        return Err(StackSize);
      }
    }
    r := Ok(stack.items);
  }

  method VerifyWitnessLockRun(ctx: Context, unlock: Bytes, lock: Bytes) returns (r: Outcome<()>)
    ensures r == VerifyWitnessLock(ctx, unlock, lock)
  {
    hide RunPushdata, RunScript;
    var s := RunPushdataLoop(ctx, unlock);
    if s.Err? {
      return Err(s.error);
    }
    var s' := RunScriptLoop(ctx, lock, s.value);
    if s'.Err? {
      return Err(s'.error);
    }
    r := VerifyStack(s'.value);
  }
}
