/** Facts about whole runs of the machine: limits, push-only scripts, verifying
    opcodes, and the pubkey-hash lock. */
module MachineFacts {
  import opened Wrappers
  import opened ScriptNum
  import opened Opcodes
  import opened Script
  import opened Machine
  import opened Structured

  // ---------- limits ----------

  predicate ItemsWithin(s: Stack, size: nat) {
    forall i :: 0 <= i < |s| ==> |s[i]| <= size
  }

  predicate StateWithin(ctx: Context, st: State) {
    ItemsWithin(st.stack, ctx.maxElementSize) && ItemsWithin(st.alt, ctx.maxElementSize)
  }

  /** Numbers on the stack come from at most four bytes, so results of
      arithmetic are far inside 64 bits and print in at most five bytes. */
  lemma SmallNumber(x: int)
    requires -0x80_0000_0000 < x < 0x80_0000_0000
    ensures |Encode(x)| <= 5
    ensures FitsI64(x) && x != -TWO_63
  {
    if x != 0 {
      EncodedLength(if x < 0 then -x else x, x < 0, 5);
      Pow256Values();
    }
  }

  lemma FourBytes(v: Bytes)
    requires ReadScriptInt(v).Ok?
    ensures -0x8000_0000 < ReadScriptInt(v).value < 0x8000_0000
  {
    if v != [] {
      ReadIsDecode(v, 4);
      MagnitudeAndValue(v);
      Pow256Values();
    }
  }

  /** Stack manipulation makes up no items. */
  lemma ShuffleMakesNothingUp(op: Ordinary, s: Stack)
    requires IsShuffle(op) && |s| >= ShuffleNeeds(op)
    ensures forall x :: x in Shuffle(op, s) ==> x in s
  {
  }

  lemma PushWithin(s: Stack, k: nat, x: Bytes, size: nat)
    requires ItemsWithin(s, size) && k <= |s| && |x| <= size
    ensures ItemsWithin(s[..k] + [x], size)
  {
  }

  lemma NumbersKeepItems(ctx: Context, op: Ordinary, s: Stack, size: nat)
    requires IsUnary(op) || IsBinary(op)
    requires size >= 32 && ItemsWithin(s, size) && Compute(ctx, op, s).Ok?
    ensures ItemsWithin(Compute(ctx, op, s).value, size)
  {
    hide Compute, ReadScriptInt, Encode, Unary, Binary;
    ComputeParts(ctx, op, s);
    var n := |s|;
    FourBytes(s[n - 1]);
    if IsUnary(op) {
      var x := ReadScriptInt(s[n - 1]).value;
      ResultsFit(op, x, 0);
      SmallNumber(Unary(op, x));
      PushWithin(s, n - 1, Encode(Unary(op, x)), size);
    } else {
      FourBytes(s[n - 2]);
      var x, y := ReadScriptInt(s[n - 2]).value, ReadScriptInt(s[n - 1]).value;
      ResultsFit(op, x, y);
      SmallNumber(Binary(op, x, y));
      assert s[..n - 1][..n - 2] == s[..n - 2];
      PushWithin(s, n - 2, Encode(Binary(op, x, y)), size);
    }
  }

  /** Arithmetic on two 32-bit numbers stays well within five bytes. */
  lemma ResultsFit(op: Ordinary, x: int, y: int)
    requires -0x8000_0000 < x < 0x8000_0000 && -0x8000_0000 < y < 0x8000_0000
    ensures IsUnary(op) ==> -0x80_0000_0000 < Unary(op, x) < 0x80_0000_0000
    ensures IsBinary(op) ==> -0x80_0000_0000 < Binary(op, x, y) < 0x80_0000_0000
  {
  }

  lemma ComputeKeepsItems(ctx: Context, op: Ordinary, s: Stack, size: nat)
    requires ctx.HashSizes() && size >= 32 && ItemsWithin(s, size)
    requires Compute(ctx, op, s).Ok?
    ensures ItemsWithin(Compute(ctx, op, s).value, size)
  {
    hide Encode, Shuffle, Unary, Binary, ReadScriptBool, ReadScriptInt, ReadScriptIntSize;
    if IsShuffle(op) {
      ShuffleMakesNothingUp(op, s);
      var v := Shuffle(op, s);
      forall i | 0 <= i < |v| ensures |v[i]| <= size {
        assert v[i] in v && v[i] in s;
      }
    } else if IsUnary(op) || IsBinary(op) {
      NumbersKeepItems(ctx, op, s, size);
    } else if op.Depth? {
      SmallNumber(|s|);
    } else if op.Size? {
      SmallNumber(|s[|s| - 1]|);
    } else {
      EncodeBool(true);
      EncodeBool(false);
    }
  }

  lemma SignaturesKeepItems(ctx: Context, sig: Signature, s: Stack, subscript: Bytes, codesep: nat, size: nat)
    requires size >= 32 && ItemsWithin(s, size)
    requires CheckSignatures(ctx, sig, s, subscript, codesep).Ok?
    ensures ItemsWithin(CheckSignatures(ctx, sig, s, subscript, codesep).value, size)
  {
    EncodeBool(true);
    EncodeBool(false);
  }

  lemma TakenKeepsItems(ctx: Context, st: State, kind: Class)
    requires ctx.HashSizes() && ctx.maxElementSize >= 32 && StateWithin(ctx, st)
    requires kind.PushNum? ==> -1 <= kind.n <= 16
    requires ExecTaken(ctx, st, kind).Ok?
    ensures StateWithin(ctx, ExecTaken(ctx, st, kind).value)
  {
    if kind.PushNum? {
      SmallNumber(kind.n);
    } else if kind.SignatureOp? {
      SignaturesKeepItems(ctx, kind.sig, st.stack, st.subscript, st.codesep, ctx.maxElementSize);
    } else if kind.OrdinaryOp? {
      ComputeKeepsItems(ctx, kind.op, st.stack, ctx.maxElementSize);
    }
  }

  /** A successful instruction leaves at most the allowed number of items, each
      of at most the allowed size. */
  lemma StepKeepsLimits(ctx: Context, st: State, mask: seq<bool>, li: Located)
    requires li.instr.Op? ==> !CarriesData(li.instr.code)
    requires StepFlat(ctx, st, mask, li).Ok?
    ensures var st' := StepFlat(ctx, st, mask, li).value.0;
            && WithinLimit(ctx, st')
            && (ctx.HashSizes() && ctx.maxElementSize >= 32 && StateWithin(ctx, st) ==> StateWithin(ctx, st'))
  {
    if ctx.HashSizes() && ctx.maxElementSize >= 32 && StateWithin(ctx, st) {
      if li.instr.Op? && !IsConditional(li.instr) {
        var kind := Classify(li.instr.code);
        if !kind.IllegalOpcode? && !kind.ControlFlowOp? && AllTrue(mask) {
          TakenKeepsItems(ctx, st, kind);
        }
      }
    }
  }

  /** The limits hold wherever a run has got to: the list may be any part of a
      script that was run from its beginning. */
  lemma {:induction false} RunKeepsLimits(ctx: Context, st: State, mask: seq<bool>, lis: seq<Located>)
    requires Standalone(lis) && lis != []
    requires RunFlat(ctx, st, mask, lis).Ok?
    ensures var st' := RunFlat(ctx, st, mask, lis).value.0;
            && WithinLimit(ctx, st')
            && (ctx.HashSizes() && ctx.maxElementSize >= 32 && StateWithin(ctx, st) ==> StateWithin(ctx, st'))
    decreases |lis|
  {
    StepKeepsLimits(ctx, st, mask, lis[0]);
    if |lis| > 1 {
      var (st', mask') := StepFlat(ctx, st, mask, lis[0]).value;
      RunKeepsLimits(ctx, st', mask', lis[1..]);
    }
  }

  // ---------- push-only scripts ----------

  predicate IsPushInstr(i: Instr) {
    i.Push? || Classify(i.code).PushNum?
  }

  /** Every instruction up to the end, or up to a parse error, is a push. */
  predicate OnlyPushes(data: Bytes, minimal: bool)
    decreases |data|
  {
    data != [] && ParseOne(data, minimal).Item? ==>
      IsPushInstr(ParseOne(data, minimal).instr) && OnlyPushes(ParseOne(data, minimal).rest, minimal)
  }

  lemma {:induction false} AcceptedOnlyPushes(ctx: Context, s: Stack, data: Bytes)
    requires PushBytesFrom(ctx, s, data).Ok?
    ensures OnlyPushes(data, ctx.minimalPush)
    decreases |data|
  {
    if data == [] {
    } else {
      match ParseOne(data, ctx.minimalPush)
      case Item(Push(d), rest) => AcceptedOnlyPushes(ctx, s + [d], rest);
      case Item(Op(code), rest) => AcceptedOnlyPushes(ctx, s + [Encode(Classify(code).n)], rest);
      case Bad(_) =>
    }
  }

  lemma {:induction false} PushesRunAlike(ctx: Context, st: State, data: Bytes)
    requires OnlyPushes(data, ctx.minimalPush) && st.alt == []
    ensures var r := RunBytes(ctx, st, [], data);
            PushBytesFrom(ctx, st.stack, data) ==
            if r.Err? then Err(r.error) else Ok(r.value.0.stack)
    ensures RunBytes(ctx, st, [], data).Ok? ==> RunBytes(ctx, st, [], data).value.1 == []
    decreases |data|
  {
    if data != [] && ParseOne(data, ctx.minimalPush).Item? {
      var Item(i, rest) := ParseOne(data, ctx.minimalPush);
      var step := StepFlat(ctx, st, [], Located(i, rest));
      if step.Ok? {
        PushesRunAlike(ctx, step.value.0, rest);
      }
    }
  }

  /** On scripts made only of pushes the full machine and the push-only one
      give the same result, error included. */
  lemma PushdataIsRun(ctx: Context, script: Bytes)
    requires OnlyPushes(script, ctx.minimalPush)
    ensures RunScript(ctx, script, []) == RunPushdata(ctx, script)
  {
    PushesRunAlike(ctx, InitialState(script, []), script);
  }

  /** Whatever the push-only machine accepts, the full one accepts alike. */
  lemma PushdataAccepted(ctx: Context, script: Bytes)
    requires RunPushdata(ctx, script).Ok?
    ensures RunScript(ctx, script, []) == RunPushdata(ctx, script)
  {
    AcceptedOnlyPushes(ctx, [], script);
    PushdataIsRun(ctx, script);
  }

  // ---------- fused verification ----------

  predicate UsesSignatures(i: Instr) {
    i.Op? && Classify(i.code).SignatureOp?
  }

  predicate SameStacks(st: State, st': State) {
    st.stack == st'.stack && st.alt == st'.alt
  }

  /** Equal up to separator bookkeeping. */
  predicate AlikeSteps(r: Outcome<(State, seq<bool>)>, q: Outcome<(State, seq<bool>)>) {
    if r.Err? then q == Err(r.error) else q.Ok? && SameStacks(r.value.0, q.value.0) && r.value.1 == q.value.1
  }

  /** Only signature checks look at the separator or at the script's bytes. */
  lemma StepIgnoresSeparator(ctx: Context, st: State, st': State, mask: seq<bool>, li: Located, li': Located)
    requires li.instr == li'.instr && !UsesSignatures(li.instr) && SameStacks(st, st')
    requires li.instr.Op? ==> !CarriesData(li.instr.code)
    ensures AlikeSteps(StepFlat(ctx, st, mask, li), StepFlat(ctx, st', mask, li'))
  {
    hide Execute, PopCondition, Classify, ReadScriptIntSize, Encode;
  }

  lemma ParsePrintedAny(i: Instr, tail: Bytes, minimal: bool)
    requires Printable(i)
    ensures EncodeInstr(i) + tail != []
    ensures ParseOne(EncodeInstr(i) + tail, minimal) ==
            if minimal && !Minimal(i) then Bad(NonMinimalPush) else Item(i, tail)
  {
    if !minimal || Minimal(i) {
      ParsePrinted(i, tail, minimal);
    } else {
      var all := EncodeInstr(i) + tail;
      assert all[0] == 1 && all[1] == i.data[0];
    }
  }

  lemma RunPrinted(ctx: Context, st: State, mask: seq<bool>, i: Instr, tail: Bytes)
    requires Printable(i)
    ensures var step := StepFlat(ctx, st, mask, Located(i, tail));
            RunBytes(ctx, st, mask, EncodeInstr(i) + tail) ==
            if ctx.minimalPush && !Minimal(i) then Err(NonMinimalPush)
            else if step.Err? then Err(step.error)
            else RunBytes(ctx, step.value.0, step.value.1, tail)
  {
    ParsePrintedAny(i, tail, ctx.minimalPush);
  }

  /** What an ordinary opcode does under a mask. */
  function AfterOrdinary(ctx: Context, st: State, mask: seq<bool>, op: Ordinary): Outcome<State> {
    if AllTrue(mask) then
      var s :- Execute(ctx, op, st.stack);
      Tick(ctx, st.(stack := s))
    else Tick(ctx, st)
  }

  lemma RunOrdinary(ctx: Context, st: State, mask: seq<bool>, code: Byte, op: Ordinary, tail: Bytes)
    requires Classify(code) == OrdinaryOp(op)
    ensures var r := AfterOrdinary(ctx, st, mask, op);
            RunBytes(ctx, st, mask, [code] + tail) ==
            if r.Err? then Err(r.error) else RunBytes(ctx, r.value, mask, tail)
  {
    RunPrinted(ctx, st, mask, Op(code), tail);
    assert EncodeInstr(Op(code)) == [code];
  }

  /** An equality test that verifies is the test followed by a verification. */
  lemma VerifyingTest(ctx: Context, op: Ordinary, fused: Ordinary, s: Stack)
    requires (op, fused) == (Equal, EqualVerify) || (op, fused) == (NumEqual, NumEqualVerify)
    ensures forall s' :: Execute(ctx, Verify, s') == PopVerify(s')
    ensures Execute(ctx, fused, s) ==
            var r := Execute(ctx, op, s); if r.Err? then r else PopVerify(r.value)
    ensures Execute(ctx, op, s).Ok? ==> |Execute(ctx, op, s).value| + 1 == |s|
  {
    hide Compute, ReadScriptInt, Encode, PopVerify;
    ComputeParts(ctx, op, s);
    ComputeParts(ctx, fused, s);
    forall s' ensures Execute(ctx, Verify, s') == PopVerify(s') {
      ComputeParts(ctx, Verify, s');
    }
  }

  lemma RunNothing(ctx: Context)
    ensures forall st, mask :: RunBytes(ctx, st, mask, []) == Ok((st, mask))
  {
  }

  lemma TestOpcodes()
    ensures Classify(OP_EQUAL) == OrdinaryOp(Equal) && Classify(OP_EQUALVERIFY) == OrdinaryOp(EqualVerify)
    ensures Classify(OP_NUMEQUAL) == OrdinaryOp(NumEqual)
    ensures Classify(OP_NUMEQUALVERIFY) == OrdinaryOp(NumEqualVerify)
  {
    hide Classify;
    EqualOpcodes();
    NumEqualOpcodes();
  }

  lemma EqualOpcodes()
    ensures Classify(OP_EQUAL) == OrdinaryOp(Equal) && Classify(OP_EQUALVERIFY) == OrdinaryOp(EqualVerify)
  {
  }

  lemma NumEqualOpcodes()
    ensures Classify(OP_NUMEQUAL) == OrdinaryOp(NumEqual)
    ensures Classify(OP_NUMEQUALVERIFY) == OrdinaryOp(NumEqualVerify)
  {
  }

  lemma VerifyOpcode()
    ensures Classify(OP_VERIFY) == OrdinaryOp(Verify)
  {
  }

  lemma FusedAtEnd(ctx: Context, st: State, st': State, mask: seq<bool>, code: Byte, op: Ordinary, fused: Ordinary)
    requires (op, fused) == (Equal, EqualVerify) || (op, fused) == (NumEqual, NumEqualVerify)
    requires VerifyForm(code).Some? && Classify(code) == OrdinaryOp(op)
    requires Classify(VerifyForm(code).value) == OrdinaryOp(fused)
    requires SameStacks(st, st') && WithinLimit(ctx, st)
    ensures AlikeSteps(RunBytes(ctx, st, mask, [VerifyForm(code).value] + []),
                       RunBytes(ctx, st', mask, [code] + ([OP_VERIFY] + [])))
  {
    hide Execute, Classify, RunBytes;
    assert Classify(OP_VERIFY) == OrdinaryOp(Verify) by { VerifyOpcode(); }
    RunNothing(ctx);
    RunOrdinary(ctx, st, mask, VerifyForm(code).value, fused, []);
    RunOrdinary(ctx, st', mask, code, op, [OP_VERIFY] + []);
    VerifyingTest(ctx, op, fused, st.stack);
    var mid := AfterOrdinary(ctx, st', mask, op);
    if mid.Ok? {
      RunOrdinary(ctx, mid.value, mask, OP_VERIFY, Verify, []);
    }
  }

  lemma {:induction false} FusedAfter(
    ctx: Context, st: State, st': State, mask: seq<bool>, front: seq<Instr>, code: Byte)
    requires code == OP_EQUAL || code == OP_NUMEQUAL
    requires AllPrintable(front) && forall i :: 0 <= i < |front| ==> !UsesSignatures(front[i])
    requires SameStacks(st, st') && WithinLimit(ctx, st)
    ensures AlikeSteps(RunBytes(ctx, st, mask, EncodeAll(front) + [VerifyForm(code).value]),
                       RunBytes(ctx, st', mask, EncodeAll(front) + [code, OP_VERIFY]))
    decreases |front|
  {
    hide Classify, RunBytes, StepFlat, EncodeInstr, Minimal;
    TestOpcodes();
    var t, t' := [VerifyForm(code).value], [code, OP_VERIFY];
    if front == [] {
      assert EncodeAll(front) + t == t + [] && EncodeAll(front) + t' == [code] + ([OP_VERIFY] + []);
      if code == OP_EQUAL {
        FusedAtEnd(ctx, st, st', mask, code, Equal, EqualVerify);
      } else {
        FusedAtEnd(ctx, st, st', mask, code, NumEqual, NumEqualVerify);
      }
    } else {
      var i, rest := front[0], EncodeAll(front[1..]);
      assert EncodeAll(front) + t == EncodeInstr(i) + (rest + t);
      assert EncodeAll(front) + t' == EncodeInstr(i) + (rest + t');
      RunPrinted(ctx, st, mask, i, rest + t);
      RunPrinted(ctx, st', mask, i, rest + t');
      StepIgnoresSeparator(ctx, st, st', mask, Located(i, rest + t), Located(i, rest + t'));
      var step, step' := StepFlat(ctx, st, mask, Located(i, rest + t)), StepFlat(ctx, st', mask, Located(i, rest + t'));
      if step.Ok? {
        StepKeepsLimits(ctx, st, mask, Located(i, rest + t));
        FusedAfter(ctx, step.value.0, step'.value.0, step.value.1, front[1..], code);
      }
    }
  }

  lemma CheckSigOpcode()
    ensures Classify(OP_CHECKSIG) == SignatureOp(CheckSig)
  {
  }

  lemma SignatureOpcodes()
    ensures Classify(OP_CHECKSIG).SignatureOp? && Classify(OP_CHECKMULTISIG).SignatureOp?
  {
  }

  /** For scripts without signature opcodes, asking the builder for a
      verification is the same as appending OP_VERIFY. */
  lemma FusedIsAppended(ctx: Context, instrs: seq<Instr>, stack: Stack)
    requires AllPrintable(instrs) && forall i :: 0 <= i < |instrs| ==> !UsesSignatures(instrs[i])
    requires |stack| <= ctx.maxStackElements
    ensures AllPrintable(Fused(instrs)) && AllPrintable(instrs + [Op(OP_VERIFY)])
    ensures var fused, appended := EncodeAll(Fused(instrs)), EncodeAll(instrs + [Op(OP_VERIFY)]);
            |fused| <= ctx.maxScriptSize && |appended| <= ctx.maxScriptSize ==>
              RunScript(ctx, fused, stack) == RunScript(ctx, appended, stack)
  {
    hide RunBytes, Classify, EncodeAll, EncodeInstr, EncodePush;
    assert Classify(OP_CHECKSIG).SignatureOp? && Classify(OP_CHECKMULTISIG).SignatureOp? by { SignatureOpcodes(); }
    var n := |instrs| - 1;
    if n >= 0 && instrs[n].Op? && VerifyForm(instrs[n].code).Some? {
      var front, code := instrs[..n], instrs[n].code;
      var form := VerifyForm(code).value;
      assert instrs == front + [Op(code)] && Fused(instrs) == front + [Op(form)];
      OneByte(code);
      OneByte(form);
      OneByte(OP_VERIFY);
      EncodeAllSnoc(front, Op(code));
      EncodeAllSnoc(front, Op(form));
      EncodeAllSnoc(instrs, Op(OP_VERIFY));
      var fused, appended := EncodeAll(Fused(instrs)), EncodeAll(instrs + [Op(OP_VERIFY)]);
      assert appended == EncodeAll(front) + [code, OP_VERIFY];
      FusedAfter(ctx, InitialState(fused, stack), InitialState(appended, stack), [], front, code);
    } else {
      assert Fused(instrs) == instrs + [Op(OP_VERIFY)];
    }
  }

  lemma OneByte(code: Byte)
    requires !CarriesData(code)
    ensures Printable(Op(code)) && EncodeInstr(Op(code)) == [code]
  {
  }

  // ---------- the pubkey-hash lock ----------

  function P2pkhLock(hash: Bytes): Bytes
    requires |hash| == 20
  {
    EncodeAll(P2pkhInstrs(hash))
  }

  lemma RunPush(ctx: Context, st: State, data: Bytes, tail: Bytes)
    requires |data| == 20 && ctx.maxElementSize >= 20
    ensures var r := Tick(ctx, st.(stack := st.stack + [data]));
            RunBytes(ctx, st, [], EncodePush(data) + tail) ==
            if r.Err? then Err(r.error) else RunBytes(ctx, r.value, [], tail)
  {
    RunPrinted(ctx, st, [], Push(data), tail);
  }

  lemma RunCheckSig(ctx: Context, st: State)
    requires WithinLimit(ctx, st)
    ensures var n := |st.stack|;
            var r := RunBytes(ctx, st, [], [OP_CHECKSIG] + []);
            if n < 2 then r == Err(NotEnoughElementsOnStack)
            else
              var ok := CheckMultisig(ctx, [st.stack[n - 2]], [st.stack[n - 1]], st.subscript, st.codesep);
              if ok.Err? then r == Err(ok.error)
              else r.Ok? && r.value.1 == [] && r.value.0.stack == st.stack[..n - 2] + [FromBool(ok.value)]
  {
    hide Classify, CheckMultisig, FromBool, RunBytes;
    CheckSigOpcode();
    RunNothing(ctx);
    RunPrinted(ctx, st, [], Op(OP_CHECKSIG), []);
    assert EncodeInstr(Op(OP_CHECKSIG)) == [OP_CHECKSIG];
    var n := |st.stack|;
    if n >= 2 {
      assert st.stack[..n - 1][..n - 2] == st.stack[..n - 2];
    }
  }

  lemma LockBytes(hash: Bytes)
    requires |hash| == 20
    ensures P2pkhLock(hash) ==
            [OP_DUP] + ([OP_HASH160] + (EncodePush(hash) + ([OP_EQUALVERIFY] + ([OP_CHECKSIG] + []))))
    ensures |P2pkhLock(hash)| == 25
  {
    var all := P2pkhInstrs(hash);
    var i1, i2, i3, i4 := all[1..], all[2..], all[3..], all[4..];
    assert i1[1..] == i2 && i2[1..] == i3 && i3[1..] == i4 && i4[1..] == [];
    assert EncodeAll(i4) == [OP_CHECKSIG] + [];
    assert EncodeAll(i3) == [OP_EQUALVERIFY] + EncodeAll(i4);
    assert EncodeAll(i2) == EncodePush(hash) + EncodeAll(i3);
    assert EncodeAll(i1) == [OP_HASH160] + EncodeAll(i2);
  }

  lemma EqualVerifyStep(ctx: Context, s: Stack, x: Bytes, y: Bytes)
    ensures Execute(ctx, EqualVerify, s + [x] + [y]) == if x == y then Ok(s) else Err(VerifyFail)
  {
    var all := s + [x] + [y];
    assert all[..|all| - 1] == s + [x];
    assert (s + [x])[..|s|] == s;
    var s' := s + [FromBool(x == y)];
    assert s'[..|s|] == s;
    EncodeBool(x == y);
  }

  lemma LockOpcodes()
    ensures Classify(OP_DUP) == OrdinaryOp(Dup)
    ensures Classify(OP_HASH160) == OrdinaryOp(Hash160)
    ensures Classify(OP_EQUALVERIFY) == OrdinaryOp(EqualVerify)
  {
  }

  lemma DupHashStep(ctx: Context, s: Stack)
    ensures s == [] ==> Execute(ctx, Dup, s) == Err(NotEnoughElementsOnStack)
    ensures s != [] ==>
            var pk := s[|s| - 1];
            && Execute(ctx, Dup, s) == Ok(s + [pk])
            && Execute(ctx, Hash160, s + [pk]) == Ok(s + [ctx.Hash160(pk)])
  {
    if s != [] {
      assert (s + [s[|s| - 1]])[..|s|] == s;
    }
  }

  /** The lock run on a stack it does not overfill. */
  lemma LockRun(ctx: Context, hash: Bytes, stack: Stack)
    requires |hash| == 20 && ctx.maxElementSize >= 20 && ctx.maxScriptSize >= 25
    requires |stack| + 2 <= ctx.maxStackElements
    ensures RunScript(ctx, P2pkhLock(hash), stack) ==
            var n := |stack|;
            if n == 0 then Err(NotEnoughElementsOnStack)
            else if ctx.Hash160(stack[n - 1]) != hash then Err(VerifyFail)
            else if n == 1 then Err(NotEnoughElementsOnStack)
            else
              var r := CheckMultisig(ctx, [stack[n - 2]], [stack[n - 1]], P2pkhLock(hash), U32_MAX);
              if r.Err? then Err(r.error) else Ok(stack[..n - 2] + [FromBool(r.value)])
  {
    hide Execute, EncodePush, P2pkhLock, RunBytes, CheckMultisig, Classify;
    LockBytes(hash);
    LockOpcodes();
    DupHashStep(ctx, stack);
    var t4: Bytes := [OP_CHECKSIG] + [];
    var t3 := [OP_EQUALVERIFY] + t4;
    var t2 := EncodePush(hash) + t3;
    var t1 := [OP_HASH160] + t2;
    var st := InitialState(P2pkhLock(hash), stack);
    RunOrdinary(ctx, st, [], OP_DUP, Dup, t1);
    if stack != [] {
      var pk := stack[|stack| - 1];
      RunOrdinary(ctx, st.(stack := stack + [pk], count := 1), [], OP_HASH160, Hash160, t2);
      var s2 := stack + [ctx.Hash160(pk)];
      RunPush(ctx, st.(stack := s2, count := 2), hash, t3);
      RunOrdinary(ctx, st.(stack := s2 + [hash], count := 3), [], OP_EQUALVERIFY, EqualVerify, t4);
      EqualVerifyStep(ctx, stack, ctx.Hash160(pk), hash);
      RunCheckSig(ctx, st.(count := 4));
    }
  }

  /** A context too small for the lock's items, or for the lock's use of the
      stack, makes it fail. */
  lemma CrampedLockFails(ctx: Context, hash: Bytes, s: Stack)
    requires |hash| == 20
    requires ctx.maxElementSize < 20 || |s| + 2 > ctx.maxStackElements
    requires s != []
    ensures RunScript(ctx, P2pkhLock(hash), s).Err?
  {
    hide Execute, EncodePush, P2pkhLock, RunBytes, CheckMultisig, Classify;
    LockBytes(hash);
    LockOpcodes();
    var t3: Bytes := [OP_EQUALVERIFY] + ([OP_CHECKSIG] + []);
    var t2 := EncodePush(hash) + t3;
    var t1 := [OP_HASH160] + t2;
    var st := InitialState(P2pkhLock(hash), s);
    var pk := s[|s| - 1];
    RunOrdinary(ctx, st, [], OP_DUP, Dup, t1);
    DupHashStep(ctx, s);
    RunOrdinary(ctx, st.(stack := s + [pk], count := 1), [], OP_HASH160, Hash160, t2);
    PushFails(ctx, st.(stack := s + [ctx.Hash160(pk)], count := 2), hash, t3);
  }

  lemma PushFails(ctx: Context, st: State, data: Bytes, tail: Bytes)
    requires 2 <= |data| < MAX_PUSH
    requires |data| > ctx.maxElementSize || |st.stack| + |st.alt| + 1 > ctx.maxStackElements
    ensures RunBytes(ctx, st, [], EncodePush(data) + tail).Err?
  {
    hide EncodePush;
    RunPrinted(ctx, st, [], Push(data), tail);
  }

  /** On an empty stack the lock fails at once. */
  lemma EmptyStackFails(ctx: Context, hash: Bytes)
    requires |hash| == 20
    ensures RunScript(ctx, P2pkhLock(hash), []).Err?
  {
    hide Execute, EncodePush, P2pkhLock, RunBytes, CheckMultisig, Classify;
    LockBytes(hash);
    LockOpcodes();
    DupHashStep(ctx, []);
    var t1 := [OP_HASH160] + (EncodePush(hash) + ([OP_EQUALVERIFY] + ([OP_CHECKSIG] + [])));
    RunOrdinary(ctx, InitialState(P2pkhLock(hash), []), [], OP_DUP, Dup, t1);
  }

  /** End to end, in every context: a witness opens a pubkey-hash lock exactly
      when the context has room for the lock, its items and its use of the
      stack, the witness pushes a signature and a key, the key hashes to the
      lock's hash, and the signature check passes on the whole lock script. */
  lemma P2pkhOpensIff(ctx: Context, unlock: Bytes, hash: Bytes)
    requires |hash| == 20
    ensures VerifyWitnessLock(ctx, unlock, P2pkhLock(hash)).Ok? <==>
            var s := RunPushdata(ctx, unlock);
            && ctx.maxScriptSize >= 25 && ctx.maxElementSize >= 20 && ctx.maxStackElements >= 4
            && s.Ok?
            && |s.value| == 2
            && ctx.Hash160(s.value[1]) == hash
            && CheckMultisig(ctx, [s.value[0]], [s.value[1]], P2pkhLock(hash), U32_MAX) == Ok(true)
  {
    hide RunPushdata, CheckMultisig, P2pkhLock, RunBytes;
    LockBytes(hash);
    var r := RunPushdata(ctx, unlock);
    if r.Ok? {
      var s := r.value;
      if s == [] {
        EmptyStackFails(ctx, hash);
      } else if ctx.maxElementSize < 20 || |s| + 2 > ctx.maxStackElements {
        CrampedLockFails(ctx, hash, s);
      } else if ctx.maxScriptSize >= 25 {
        LockRun(ctx, hash, s);
        var run := RunScript(ctx, P2pkhLock(hash), s);
        if run.Ok? {
          EncodeBool(CheckMultisig(ctx, [s[|s| - 2]], [s[|s| - 1]], P2pkhLock(hash), U32_MAX).value);
        }
      }
    }
  }
}
