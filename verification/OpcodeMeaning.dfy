/** What each opcode leaves on the stack, in terms of the numbers and items it
    finds there (script/src/interpreter.rs). */
module OpcodeMeaning {
  import opened Wrappers
  import opened ScriptNum
  import opened Opcodes
  import opened Script
  import opened Machine
  import opened Multisig

  // ---------- operands ----------

  /** An operand is a number exactly if it has at most four bytes. */
  lemma OperandRead(s: Stack, v: Bytes)
    ensures PopInt(s + [v]) == if |v| <= 4 then Ok((Decode(v), s)) else Err(NumericOverflow)
  {
    assert (s + [v])[..|s|] == s;
    if |v| <= 4 { ReadIsDecode(v, 4); }
  }

  lemma TopItem(s: Stack, v: Bytes)
    ensures Pop(s + [v]) == Ok((v, s))
  {
    assert (s + [v])[..|s|] == s;
  }

  /** How truth is written. */
  function Truth(b: bool): Bytes {
    if b then [1] else []
  }

  lemma TruthWritten(b: bool)
    ensures FromBool(b) == Truth(b) && Encode(AsInt(b)) == Truth(b)
    ensures ReadScriptBool(Truth(b)) <==> b
  {
    EncodeBool(b);
  }

  lemma VerifyTruth(s: Stack, b: bool)
    ensures PopVerify(s + [Truth(b)]) == if b then Ok(s) else Err(VerifyFail)
  {
    TopItem(s, Truth(b));
    TruthWritten(b);
  }

  // ---------- arithmetic ----------

  lemma UnaryResult(ctx: Context, op: Ordinary, s: Stack, a: Bytes)
    requires IsUnary(op) && |a| <= 4
    ensures Execute(ctx, op, s + [a]) == Ok(s + [Encode(Unary(op, Decode(a)))])
  {
    hide Compute, PopInt, Unary, Encode;
    ComputeParts(ctx, op, s + [a]);
    OperandRead(s, a);
  }

  /** The six opcodes of one number. */
  lemma UnaryMeaning(ctx: Context, s: Stack, a: Bytes)
    requires |a| <= 4
    ensures var x := Decode(a);
            && Execute(ctx, OneAdd, s + [a]) == Ok(s + [Encode(x + 1)])
            && Execute(ctx, OneSub, s + [a]) == Ok(s + [Encode(x - 1)])
            && Execute(ctx, Negate, s + [a]) == Ok(s + [Encode(0 - x)])
            && Execute(ctx, Abs, s + [a]) == Ok(s + [Encode(if x >= 0 then x else 0 - x)])
            && Execute(ctx, Not, s + [a]) == Ok(s + [Truth(x == 0)])
            && Execute(ctx, ZeroNotEqual, s + [a]) == Ok(s + [Truth(x != 0)])
  {
    hide Execute, Encode;
    UnaryResult(ctx, OneAdd, s, a);
    UnaryResult(ctx, OneSub, s, a);
    UnaryResult(ctx, Negate, s, a);
    UnaryResult(ctx, Abs, s, a);
    UnaryResult(ctx, Not, s, a);
    UnaryResult(ctx, ZeroNotEqual, s, a);
    TruthWritten(true);
    TruthWritten(false);
  }

  lemma BinaryResult(ctx: Context, op: Ordinary, s: Stack, a: Bytes, b: Bytes)
    requires IsBinary(op) && |a| <= 4 && |b| <= 4
    ensures Compute(ctx, op, s + [a, b]) == Ok(s + [Encode(Binary(op, Decode(a), Decode(b)))])
    ensures !op.IsVerify() ==> Execute(ctx, op, s + [a, b]) == Compute(ctx, op, s + [a, b])
  {
    hide Compute, PopInt, Binary, Encode;
    ComputeParts(ctx, op, s + [a, b]);
    assert s + [a, b] == (s + [a]) + [b];
    OperandRead(s + [a], b);
    OperandRead(s, a);
  }

  /** Sums and differences: the second operand is on top. */
  lemma SumMeaning(ctx: Context, s: Stack, a: Bytes, b: Bytes)
    requires |a| <= 4 && |b| <= 4
    ensures Execute(ctx, Add, s + [a, b]) == Ok(s + [Encode(Decode(a) + Decode(b))])
    ensures Execute(ctx, Sub, s + [a, b]) == Ok(s + [Encode(Decode(a) - Decode(b))])
    ensures exists d :: d + Decode(b) == Decode(a) && Execute(ctx, Sub, s + [a, b]) == Ok(s + [Encode(d)])
  {
    hide Execute, Compute, Encode;
    BinaryResult(ctx, Add, s, a, b);
    BinaryResult(ctx, Sub, s, a, b);
    assert (Decode(a) - Decode(b)) + Decode(b) == Decode(a);
  }

  /** Comparisons of the number below with the number on top. */
  lemma OrderMeaning(ctx: Context, s: Stack, a: Bytes, b: Bytes)
    requires |a| <= 4 && |b| <= 4
    ensures var x, y := Decode(a), Decode(b);
            && Execute(ctx, LessThan, s + [a, b]) == Ok(s + [Truth(x < y)])
            && Execute(ctx, GreaterThan, s + [a, b]) == Ok(s + [Truth(x > y)])
            && Execute(ctx, LessThanOrEqual, s + [a, b]) == Ok(s + [Truth(x <= y)])
            && Execute(ctx, GreaterThanOrEqual, s + [a, b]) == Ok(s + [Truth(x >= y)])
  {
    hide Execute, Compute, Encode;
    BinaryResult(ctx, LessThan, s, a, b);
    BinaryResult(ctx, GreaterThan, s, a, b);
    BinaryResult(ctx, LessThanOrEqual, s, a, b);
    BinaryResult(ctx, GreaterThanOrEqual, s, a, b);
    TruthWritten(true);
    TruthWritten(false);
  }

  lemma EqualityMeaning(ctx: Context, s: Stack, a: Bytes, b: Bytes)
    requires |a| <= 4 && |b| <= 4
    ensures var x, y := Decode(a), Decode(b);
            && Execute(ctx, NumEqual, s + [a, b]) == Ok(s + [Truth(x == y)])
            && Execute(ctx, NumNotEqual, s + [a, b]) == Ok(s + [Truth(x != y)])
            && Execute(ctx, NumEqualVerify, s + [a, b]) == (if x == y then Ok(s) else Err(VerifyFail))
            && Execute(ctx, BoolAnd, s + [a, b]) == Ok(s + [Truth(x != 0 && y != 0)])
            && Execute(ctx, BoolOr, s + [a, b]) == Ok(s + [Truth(x != 0 || y != 0)])
  {
    hide Compute, Encode, PopVerify;
    BinaryResult(ctx, NumEqual, s, a, b);
    BinaryResult(ctx, NumNotEqual, s, a, b);
    BinaryResult(ctx, NumEqualVerify, s, a, b);
    BinaryResult(ctx, BoolAnd, s, a, b);
    BinaryResult(ctx, BoolOr, s, a, b);
    TruthWritten(true);
    TruthWritten(false);
    VerifyTruth(s, Decode(a) == Decode(b));
  }

  /** MIN and MAX leave one of the two, which bounds both. */
  lemma BoundMeaning(ctx: Context, s: Stack, a: Bytes, b: Bytes)
    requires |a| <= 4 && |b| <= 4
    ensures exists m :: m in {Decode(a), Decode(b)} && m <= Decode(a) && m <= Decode(b)
                        && Execute(ctx, Min, s + [a, b]) == Ok(s + [Encode(m)])
    ensures exists m :: m in {Decode(a), Decode(b)} && m >= Decode(a) && m >= Decode(b)
                        && Execute(ctx, Max, s + [a, b]) == Ok(s + [Encode(m)])
  {
    hide Execute, Compute, Encode;
    BinaryResult(ctx, Min, s, a, b);
    BinaryResult(ctx, Max, s, a, b);
  }

  /** The range is below the number in the order lo, hi, and hi is excluded. */
  lemma WithinMeaning(ctx: Context, s: Stack, a: Bytes, lo: Bytes, hi: Bytes)
    requires |a| <= 4 && |lo| <= 4 && |hi| <= 4
    ensures Execute(ctx, Within, s + [a, lo, hi]) == Ok(s + [Truth(Decode(lo) <= Decode(a) < Decode(hi))])
  {
    hide Compute, PopInt, Encode, FromBool;
    ComputeParts(ctx, Within, s + [a, lo, hi]);
    assert s + [a, lo, hi] == ((s + [a]) + [lo]) + [hi];
    OperandRead((s + [a]) + [lo], hi);
    OperandRead(s + [a], lo);
    OperandRead(s, a);
    TruthWritten(Decode(lo) <= Decode(a) < Decode(hi));
  }

  /** An operand of more than four bytes is no number, wherever it stands. */
  lemma LongOperand(ctx: Context, op: Ordinary, s: Stack, a: Bytes, b: Bytes)
    ensures IsUnary(op) && |a| > 4 ==> Execute(ctx, op, s + [a]) == Err(NumericOverflow)
    ensures IsBinary(op) && (|a| > 4 || |b| > 4) ==> Execute(ctx, op, s + [a, b]) == Err(NumericOverflow)
    ensures (op.Pick? || op.Roll?) && |a| > 4 ==> Execute(ctx, op, s + [a]) == Err(NumericOverflow)
  {
    hide Compute, PopInt, Unary, Binary, Encode;
    ComputeParts(ctx, op, s + [a]);
    ComputeParts(ctx, op, s + [a, b]);
    assert s + [a, b] == (s + [a]) + [b];
    OperandRead(s + [a], b);
    OperandRead(s, a);
  }

  // ---------- items ----------

  lemma ShuffleResult(ctx: Context, op: Ordinary, s: Stack)
    requires IsShuffle(op)
    ensures Execute(ctx, op, s) ==
            if |s| >= ShuffleNeeds(op) then Ok(Shuffle(op, s)) else Err(NotEnoughElementsOnStack)
  {
    hide UnaryOn, BinaryOn, PickFrom, RollFrom, WithinOn, EqualOn, HashOf, Shuffle, ShuffleNeeds;
  }

  /** A rearrangement looks at the items on top and leaves those below. */
  lemma Rearranged(ctx: Context, op: Ordinary, s: Stack, top: Stack, after: Stack)
    requires IsShuffle(op) && |top| == ShuffleNeeds(op) && Shuffle(op, top) == after
    ensures Execute(ctx, op, s + top) == Ok(s + after)
  {
    hide Execute;
    ShuffleResult(ctx, op, s + top);
    var x, y := Shuffle(op, s + top), s + Shuffle(op, top);
    assert |x| == |y|;
    forall i | 0 <= i < |x| ensures x[i] == y[i] {
    }
    assert x == y;
  }

  /** Dropping and copying one item. */
  lemma OneMeaning(ctx: Context, s: Stack, a: Bytes)
    ensures Execute(ctx, Drop, s + [a]) == Ok(s)
    ensures Execute(ctx, Dup, s + [a]) == Ok(s + [a, a])
  {
    hide Execute;
    Rearranged(ctx, Drop, s, [a], []);
    Rearranged(ctx, Dup, s, [a], [a, a]);
    assert s + [] == s;
  }

  /** Dropping and copying two items. */
  lemma TwoMeaning(ctx: Context, s: Stack, a: Bytes, b: Bytes)
    ensures Execute(ctx, TwoDrop, s + [a, b]) == Ok(s)
    ensures Execute(ctx, TwoDup, s + [a, b]) == Ok(s + [a, b, a, b])
  {
    hide Execute;
    Rearranged(ctx, TwoDrop, s, [a, b], []);
    Rearranged(ctx, TwoDup, s, [a, b], [a, b, a, b]);
    assert s + [] == s;
  }

  /** Exchanging two items, and copying or dropping the lower one. */
  lemma PairMeaning(ctx: Context, s: Stack, a: Bytes, b: Bytes)
    ensures Execute(ctx, Over, s + [a, b]) == Ok(s + [a, b, a])
    ensures Execute(ctx, Swap, s + [a, b]) == Ok(s + [b, a])
    ensures Execute(ctx, Nip, s + [a, b]) == Ok(s + [b])
    ensures Execute(ctx, Tuck, s + [a, b]) == Ok(s + [b, a, b])
  {
    hide Execute;
    Rearranged(ctx, Over, s, [a, b], [a, b, a]);
    Rearranged(ctx, Swap, s, [a, b], [b, a]);
    Rearranged(ctx, Nip, s, [a, b], [b]);
    Rearranged(ctx, Tuck, s, [a, b], [b, a, b]);
  }

  /** Copying and turning three items. */
  lemma ThreeMeaning(ctx: Context, s: Stack, a: Bytes, b: Bytes, c: Bytes)
    ensures Execute(ctx, ThreeDup, s + [a, b, c]) == Ok(s + [a, b, c, a, b, c])
    ensures Execute(ctx, Rot, s + [a, b, c]) == Ok(s + [b, c, a])
  {
    hide Execute;
    Rearranged(ctx, ThreeDup, s, [a, b, c], [a, b, c, a, b, c]);
    Rearranged(ctx, Rot, s, [a, b, c], [b, c, a]);
  }

  /** Copying and exchanging pairs. */
  lemma PairsMeaning(ctx: Context, s: Stack, a: Bytes, b: Bytes, c: Bytes, d: Bytes)
    ensures Execute(ctx, TwoOver, s + [a, b, c, d]) == Ok(s + [a, b, c, d, a, b])
    ensures Execute(ctx, TwoSwap, s + [a, b, c, d]) == Ok(s + [c, d, a, b])
  {
    hide Execute;
    Rearranged(ctx, TwoOver, s, [a, b, c, d], [a, b, c, d, a, b]);
    Rearranged(ctx, TwoSwap, s, [a, b, c, d], [c, d, a, b]);
  }

  /** Turning three pairs. */
  lemma TurnMeaning(ctx: Context, s: Stack, a: Bytes, b: Bytes, c: Bytes, d: Bytes, e: Bytes, f: Bytes)
    ensures Execute(ctx, TwoRot, s + [a, b, c, d, e, f]) == Ok(s + [c, d, e, f, a, b])
  {
    hide Execute;
    Rearranged(ctx, TwoRot, s, [a, b, c, d, e, f], [c, d, e, f, a, b]);
  }

  /** PICK copies the item a number of places down, ROLL moves it up. */
  lemma DepthMeaning(ctx: Context, s: Stack, a: Bytes)
    requires |a| <= 4
    ensures var i := Decode(a);
            if i < 0 then Execute(ctx, Pick, s + [a]) == Err(InvalidOperand) == Execute(ctx, Roll, s + [a])
            else if i >= |s| then
              Execute(ctx, Pick, s + [a]) == Err(NotEnoughElementsOnStack) == Execute(ctx, Roll, s + [a])
            else
              var k := |s| - 1 - i;
              && Execute(ctx, Pick, s + [a]) == Ok(s + [s[k]])
              && Execute(ctx, Roll, s + [a]) == Ok(s[..k] + s[k + 1..] + [s[k]])
  {
    hide Compute, PopInt;
    ComputeParts(ctx, Pick, s + [a]);
    ComputeParts(ctx, Roll, s + [a]);
    OperandRead(s, a);
  }

  lemma CountResult(ctx: Context, s: Stack)
    ensures Compute(ctx, Depth, s) == if |s| < I32_MAX then Ok(s + [Encode(|s|)]) else Err(NumericOverflow)
    ensures s != [] ==>
              var a := s[|s| - 1];
              && Compute(ctx, Size, s) == (if |a| < I32_MAX then Ok(s + [Encode(|a|)]) else Err(NumericOverflow))
              && Compute(ctx, IfDup, s) == Ok(if ReadScriptBool(a) then s + [a] else s)
    ensures s == [] ==> Compute(ctx, Size, s) == Err(NotEnoughElementsOnStack) == Compute(ctx, IfDup, s)
  {
    hide Encode, UnaryOn, BinaryOn, PickFrom, RollFrom, WithinOn, EqualOn, Shuffle, HashOf, ReadScriptBool;
  }

  /** Counting the items, measuring the top one, and copying it if it is true. */
  lemma CountMeaning(ctx: Context, s: Stack, a: Bytes)
    ensures Execute(ctx, Depth, s) == if |s| < I32_MAX then Ok(s + [Encode(|s|)]) else Err(NumericOverflow)
    ensures Execute(ctx, Size, s + [a]) == if |a| < I32_MAX then Ok(s + [a, Encode(|a|)]) else Err(NumericOverflow)
    ensures Execute(ctx, IfDup, s + [a]) == Ok(if Decode(a) != 0 then s + [a, a] else s + [a])
  {
    hide Encode, Compute, ReadScriptBool;
    CountResult(ctx, s);
    CountResult(ctx, s + [a]);
    BoolIsNonZero(a);
    assert (s + [a]) + [a] == s + [a, a] && (s + [a]) + [Encode(|a|)] == s + [a, Encode(|a|)];
  }

  /** Comparing items, and insisting on a true one. */
  lemma EqualMeaning(ctx: Context, s: Stack, a: Bytes, b: Bytes)
    ensures Execute(ctx, Equal, s + [a, b]) == Ok(s + [Truth(a == b)])
    ensures Execute(ctx, EqualVerify, s + [a, b]) == if a == b then Ok(s) else Err(VerifyFail)
    ensures Execute(ctx, Verify, s + [a]) == if Decode(a) != 0 then Ok(s) else Err(VerifyFail)
  {
    hide Compute, FromBool, ReadScriptBool, Pop;
    ComputeParts(ctx, Equal, s + [a, b]);
    ComputeParts(ctx, EqualVerify, s + [a, b]);
    ComputeParts(ctx, Verify, s + [a]);
    BoolIsNonZero(a);
    assert s + [a, b] == (s + [a]) + [b];
    TopItem(s + [a], b);
    TopItem(s, a);
    TruthWritten(a == b);
    VerifyTruth(s, a == b);
  }

  lemma HashResult(ctx: Context, op: Ordinary, s: Stack)
    requires IsHash(op)
    ensures Execute(ctx, op, s) ==
            if s == [] then Err(NotEnoughElementsOnStack) else Ok(s[..|s| - 1] + [HashOf(ctx, op, s[|s| - 1])])
  {
    hide UnaryOn, BinaryOn, PickFrom, RollFrom, WithinOn, EqualOn, Shuffle, HashOf;
  }

  lemma HashMeaning(ctx: Context, s: Stack, a: Bytes)
    ensures Execute(ctx, Ripemd160, s + [a]) == Ok(s + [ctx.ripemd160(a)])
    ensures Execute(ctx, Sha1, s + [a]) == Ok(s + [ctx.sha1(a)])
    ensures Execute(ctx, Sha256, s + [a]) == Ok(s + [ctx.sha256(a)])
    ensures Execute(ctx, Hash160, s + [a]) == Ok(s + [ctx.ripemd160(ctx.sha256(a))])
    ensures Execute(ctx, Hash256, s + [a]) == Ok(s + [ctx.sha256(ctx.sha256(a))])
  {
    hide Execute;
    assert (s + [a])[..|s|] == s;
    HashResult(ctx, Ripemd160, s + [a]);
    HashResult(ctx, Sha1, s + [a]);
    HashResult(ctx, Sha256, s + [a]);
    HashResult(ctx, Hash160, s + [a]);
    HashResult(ctx, Hash256, s + [a]);
  }

  /** How many items an opcode takes off the stack or looks at. */
  function ItemsNeeded(op: Ordinary): nat {
    match op
    case Verify => 1 case TwoDrop => 2 case TwoDup => 2 case ThreeDup => 3
    case TwoOver => 4 case TwoRot => 6 case TwoSwap => 4 case IfDup => 1
    case Depth => 0 case Drop => 1 case Dup => 1 case Nip => 2
    case Over => 2 case Pick => 1 case Roll => 1 case Rot => 3
    case Swap => 2 case Tuck => 2 case Size => 1 case Equal => 2
    case EqualVerify => 2 case OneAdd => 1 case OneSub => 1 case Negate => 1
    case Abs => 1 case Not => 1 case ZeroNotEqual => 1 case Add => 2
    case Sub => 2 case BoolAnd => 2 case BoolOr => 2 case NumEqual => 2
    case NumEqualVerify => 2 case NumNotEqual => 2 case LessThan => 2 case GreaterThan => 2
    case LessThanOrEqual => 2 case GreaterThanOrEqual => 2 case Min => 2 case Max => 2
    case Within => 3 case Ripemd160 => 1 case Sha1 => 1 case Sha256 => 1
    case Hash160 => 1 case Hash256 => 1
  }

  /** With fewer items every opcode fails, for want of them or of a number. */
  lemma ShortStack(ctx: Context, op: Ordinary, s: Stack)
    requires |s| < ItemsNeeded(op)
    ensures Execute(ctx, op, s) in {Err(NotEnoughElementsOnStack), Err(NumericOverflow)}
  {
    hide Compute, Encode, FromBool, Shuffle, Unary, Binary, HashOf, ReadScriptInt, PopVerify;
    ComputeParts(ctx, op, s);
    forall v ensures ReadScriptInt(v).Err? ==> ReadScriptInt(v).error == NumericOverflow {
      OperandFails(v);
    }
    if IsShuffle(op) {
      ShuffleResult(ctx, op, s);
      NeedsAgree(op);
    } else if IsHash(op) {
      HashResult(ctx, op, s);
    } else if op.Size? || op.IfDup? {
      CountResult(ctx, s);
    } else if op.Verify? {
      assert PopVerify([]) == Err(NotEnoughElementsOnStack) by { NothingToVerify(); }
    }
  }

  lemma OperandFails(v: Bytes)
    ensures ReadScriptInt(v).Err? ==> ReadScriptInt(v).error == NumericOverflow
  {
  }

  lemma NeedsAgree(op: Ordinary)
    requires IsShuffle(op)
    ensures ItemsNeeded(op) == ShuffleNeeds(op)
  {
  }

  lemma NothingToVerify()
    ensures PopVerify([]) == Err(NotEnoughElementsOnStack)
  {
  }

  // ---------- the bytes ----------

  /** After an instruction: both stacks are within the limit, and it is counted
      as far as 32 bits go. */
  function Counted(ctx: Context, st: State, mask: seq<bool>): Outcome<(State, seq<bool>)> {
    if |st.stack| + |st.alt| > ctx.maxStackElements then Err(StackSize)
    else Ok((st.(count := if st.count < 0xffff_ffff then st.count + 1 else st.count), mask))
  }

  predicate Taken(mask: seq<bool>) {
    forall i :: 0 <= i < |mask| ==> mask[i]
  }

  lemma PlainStep(ctx: Context, st: State, mask: seq<bool>, li: Located)
    requires !IsConditional(li.instr) && (li.instr.Op? ==> !CarriesData(li.instr.code))
    ensures var r := ExecPlain(ctx, st, li, Taken(mask));
            StepFlat(ctx, st, mask, li) == if r.Err? then Err(r.error) else Counted(ctx, r.value, mask)
  {
    hide ExecPlain;
  }

  /** Pushes: an oversized one fails even where it is skipped. */
  lemma PushMeaning(ctx: Context, st: State, mask: seq<bool>, data: Bytes, rest: Bytes)
    ensures StepFlat(ctx, st, mask, Located(Push(data), rest)) ==
            if |data| > ctx.maxElementSize then Err(PushSize)
            else Counted(ctx, if Taken(mask) then st.(stack := st.stack + [data]) else st, mask)
  {
    PlainStep(ctx, st, mask, Located(Push(data), rest));
  }

  /** Opcodes that do not look at the stack. */
  lemma SimpleByteMeaning(ctx: Context, st: State, mask: seq<bool>, code: Byte, rest: Bytes)
    requires !CarriesData(code)
    ensures var step := StepFlat(ctx, st, mask, Located(Op(code), rest));
            && (Illegal(code) ==> step == Err(IllegalOp))
            && (code == 0xab ==> step == Counted(ctx, st.(subscript := rest, codesep := st.count), mask))
            && (code == 0x61 || code == 0xb0 || 0xb3 <= code <= 0xb9 ==> step == Counted(ctx, st, mask))
            && (code in {0x50, 0x62, 0x6a, 0x89, 0x8a} || code >= 0xba ==>
                  step == if Taken(mask) then Err(VerifyFail) else Counted(ctx, st, mask))
            && (code == 0x4f || 0x51 <= code <= 0x60 ==>
                  var pushed := st.(stack := st.stack + [Encode(code - 0x50)]);
                  step == Counted(ctx, if Taken(mask) then pushed else st, mask))
  {
    hide Classify, StepFlat, Counted, Encode, Execute, ExecuteSignature;
    ClassesByByte(code);
    FlowMembers(code);
    if !IsConditional(Op(code)) { PlainStep(ctx, st, mask, Located(Op(code), rest)); }
  }

  /** Which byte is which, where a class has several members. */
  lemma FlowMembers(code: Byte)
    ensures Classify(code) == ControlFlowOp(If) <==> code == 0x63
    ensures Classify(code) == ControlFlowOp(NotIf) <==> code == 0x64
    ensures Classify(code) == ControlFlowOp(Else) <==> code == 0x67
    ensures Classify(code) == ControlFlowOp(EndIf) <==> code == 0x68
    ensures Classify(code) == ControlFlowOp(CodeSeparator) <==> code == 0xab
  {
  }

  lemma OtherMembers(code: Byte)
    ensures Classify(code) == AltStackOp(ToAltStack) <==> code == 0x6b
    ensures Classify(code) == AltStackOp(FromAltStack) <==> code == 0x6c
    ensures Classify(code) == SignatureOp(CheckSig) <==> code == 0xac
    ensures Classify(code) == SignatureOp(CheckSigVerify) <==> code == 0xad
    ensures Classify(code) == SignatureOp(CheckMultiSig) <==> code == 0xae
    ensures Classify(code) == SignatureOp(CheckMultiSigVerify) <==> code == 0xaf
    ensures Classify(code) == TimeLockOp(CheckLockTime) <==> code == 0xb1
    ensures Classify(code) == TimeLockOp(CheckSequence) <==> code == 0xb2
  {
  }

  /** Skipped, every other opcode that is not a conditional does nothing. */
  lemma SkippedByteMeaning(ctx: Context, st: State, mask: seq<bool>, code: Byte, rest: Bytes)
    requires !CarriesData(code) && !Illegal(code) && code !in {0x63, 0x64, 0x67, 0x68, 0xab} && !Taken(mask)
    ensures StepFlat(ctx, st, mask, Located(Op(code), rest)) == Counted(ctx, st, mask)
  {
    hide Classify, StepFlat, Counted;
    ClassesByByte(code);
    FlowMembers(code);
    PlainStep(ctx, st, mask, Located(Op(code), rest));
  }

  /** A taken opcode of one of the remaining classes is run by its class. */
  lemma TakenStep(ctx: Context, st: State, mask: seq<bool>, code: Byte, rest: Bytes)
    requires !CarriesData(code) && !Illegal(code) && code !in {0x63, 0x64, 0x67, 0x68, 0xab} && Taken(mask)
    ensures var r := ExecTaken(ctx, st, Classify(code));
            StepFlat(ctx, st, mask, Located(Op(code), rest)) ==
            if r.Err? then Err(r.error) else Counted(ctx, r.value, mask)
  {
    hide Classify, StepFlat, Counted, ExecTaken;
    ClassesByByte(code);
    FlowMembers(code);
    PlainStep(ctx, st, mask, Located(Op(code), rest));
  }

  /** The alternative stack: the top item goes over, and comes back. */
  lemma AltStackMeaning(ctx: Context, st: State, mask: seq<bool>, s: Stack, alt: Stack, a: Bytes, rest: Bytes)
    requires Taken(mask)
    ensures StepFlat(ctx, st.(stack := s + [a], alt := alt), mask, Located(Op(0x6b), rest)) ==
            Counted(ctx, st.(stack := s, alt := alt + [a]), mask)
    ensures StepFlat(ctx, st.(stack := s, alt := alt + [a]), mask, Located(Op(0x6c), rest)) ==
            Counted(ctx, st.(stack := s + [a], alt := alt), mask)
    ensures StepFlat(ctx, st.(stack := []), mask, Located(Op(0x6b), rest)) == Err(NotEnoughElementsOnStack)
    ensures StepFlat(ctx, st.(alt := []), mask, Located(Op(0x6c), rest)) == Err(NotEnoughElementsOnStack)
  {
    hide Classify, StepFlat, Counted, Taken, ExecuteSignature, Execute;
    OtherMembers(0x6b);
    OtherMembers(0x6c);
    TopItem(s, a);
    TopItem(alt, a);
    TakenStep(ctx, st.(stack := s + [a], alt := alt), mask, 0x6b, rest);
    TakenStep(ctx, st.(stack := s, alt := alt + [a]), mask, 0x6c, rest);
    TakenStep(ctx, st.(stack := []), mask, 0x6b, rest);
    TakenStep(ctx, st.(alt := []), mask, 0x6c, rest);
  }

  /** Each time lock asks its own question of the number on top, which may have
      five bytes, and leaves it there. */
  lemma TimeLockMeaning(ctx: Context, st: State, mask: seq<bool>, code: Byte, s: Stack, a: Bytes, rest: Bytes)
    requires Taken(mask) && code in {0xb1, 0xb2}
    ensures StepFlat(ctx, st.(stack := s + [a]), mask, Located(Op(code), rest)) ==
            if |a| > 5 then Err(NumericOverflow)
            else if (if code == 0xb1 then ctx.checkLockTime(Decode(a)) else ctx.checkSequence(Decode(a)))
              then Counted(ctx, st.(stack := s + [a]), mask)
            else Err(TimeLockNotMet)
    ensures StepFlat(ctx, st.(stack := []), mask, Located(Op(code), rest)) == Err(NotEnoughElementsOnStack)
  {
    hide Classify, StepFlat, Counted, Taken, ExecuteSignature, Execute;
    OtherMembers(code);
    if |a| <= 5 { ReadIsDecode(a, 5); }
    TakenStep(ctx, st.(stack := s + [a]), mask, code, rest);
    TakenStep(ctx, st.(stack := []), mask, code, rest);
  }

  /** An ordinary opcode at its byte. */
  lemma OrdinaryByteMeaning(ctx: Context, st: State, mask: seq<bool>, op: Ordinary, rest: Bytes)
    requires Taken(mask)
    ensures !CarriesData(CodeOfOrdinary(op))
    ensures var r := Execute(ctx, op, st.stack);
            StepFlat(ctx, st, mask, Located(Op(CodeOfOrdinary(op)), rest)) ==
            if r.Err? then Err(r.error) else Counted(ctx, st.(stack := r.value), mask)
  {
    hide Classify, StepFlat, Counted, Taken, ExecuteSignature, Execute;
    var code := CodeOfOrdinary(op);
    OrdinaryByteUnique(op, code);
    hide CodeOfOrdinary;
    ClassesByByte(code);
    FlowMembers(code);
    TakenStep(ctx, st, mask, code, rest);
  }

  /** The conditionals on the mask. */
  lemma ConditionalByteMeaning(ctx: Context, st: State, mask: seq<bool>, rest: Bytes)
    ensures !Taken(mask) ==>
              && StepFlat(ctx, st, mask, Located(Op(0x63), rest)) == Counted(ctx, st, mask + [false])
              && StepFlat(ctx, st, mask, Located(Op(0x64), rest)) == Counted(ctx, st, mask + [false])
    ensures mask == [] ==>
              && StepFlat(ctx, st, mask, Located(Op(0x67), rest)) == Err(UnbalancedIfElse)
              && StepFlat(ctx, st, mask, Located(Op(0x68), rest)) == Err(UnbalancedIfElse)
    ensures mask != [] ==>
              var n := |mask| - 1;
              && StepFlat(ctx, st, mask, Located(Op(0x67), rest)) == Counted(ctx, st, mask[..n] + [!mask[n]])
              && StepFlat(ctx, st, mask, Located(Op(0x68), rest)) == Counted(ctx, st, mask[..n])
  {
    hide Classify, PopCondition;
    FlowMembers(0x63);
    FlowMembers(0x64);
    FlowMembers(0x67);
    FlowMembers(0x68);
  }

  /** A taken IF or NOTIF pops its condition and masks what follows by it. */
  lemma ConditionMeaning(ctx: Context, st: State, mask: seq<bool>, code: Byte, s: Stack, c: Bytes, rest: Bytes)
    requires Taken(mask) && code in {0x63, 0x64}
    ensures StepFlat(ctx, st.(stack := s + [c]), mask, Located(Op(code), rest)) ==
            if ctx.minimalIf && c != [] && c != [1] then Err(InvalidOperand)
            else Counted(ctx, st.(stack := s), mask + [(Decode(c) != 0) == (code == 0x63)])
    ensures StepFlat(ctx, st.(stack := []), mask, Located(Op(code), rest)) == Err(NotEnoughElementsOnStack)
  {
    hide Classify, ReadScriptBool, Decode;
    FlowMembers(code);
    TopItem(s, c);
    BoolIsNonZero(c);
    EncodeBool(true);
    EncodeBool(false);
    DecodeEncode(1);
    DecodeEncode(0);
  }

  // ---------- signatures ----------

  /** One key and one signature, the key on top. */
  lemma ChecksigMeaning(ctx: Context, s: Stack, sig: Bytes, key: Bytes, subscript: Bytes, codesep: nat)
    ensures var fits := Fits(ctx, key, sig, subscript, codesep);
            var malformed := ctx.parsePubkey(key).Malformed?;
            && ExecuteSignature(ctx, CheckSig, s + [sig, key], subscript, codesep) ==
               (if malformed then Err(PubkeyFormat) else Ok(s + [Truth(fits)]))
            && ExecuteSignature(ctx, CheckSigVerify, s + [sig, key], subscript, codesep) ==
               (if malformed then Err(PubkeyFormat) else if fits then Ok(s) else Err(VerifyFail))
  {
    hide Accepts, Fits, FromBool, PopVerify, Pop;
    var fits := Fits(ctx, key, sig, subscript, codesep);
    assert s + [sig, key] == (s + [sig]) + [key];
    TopItem(s + [sig], key);
    TopItem(s, sig);
    FitsIsAccepts(ctx, key, sig, subscript, codesep);
    assert [sig][1..] == [] && [key][1..] == [];
    assert CheckMultisig(ctx, [], [], subscript, codesep) == Ok(true);
    assert CheckMultisig(ctx, [sig], [], subscript, codesep) == Ok(false);
    TruthWritten(fits);
    VerifyTruth(s, fits);
  }

  /** The stack a multi-signature opcode works on. */
  function MultisigStack(below: Stack, dummy: Bytes, sigs: seq<Bytes>, keys: seq<Bytes>): Stack {
    below + [dummy] + sigs + [Encode(|sigs|)] + keys + [Encode(|keys|)]
  }

  /** A count below 2^31 reads back. */
  lemma CountRead(s: Stack, n: nat)
    requires n < 0x8000_0000
    ensures PopInt(s + [Encode(n)]) == Ok((n, s)) && ReadScriptInt(Encode(n)) == Ok(n)
  {
    assert (s + [Encode(n)])[..|s|] == s;
    ReadEncoded(n, 4);
    Pow256Values();
  }

  /** Where everything lies once the count of keys is off the stack. */
  lemma MultisigLayout(below: Stack, dummy: Bytes, sigs: seq<Bytes>, count: Bytes, keys: seq<Bytes>)
    ensures var rest := below + [dummy] + sigs + [count] + keys;
            var n, used := |rest|, |sigs| + |keys| + 1;
            && n == |below| + 1 + used
            && rest[n - |keys|..] == keys && rest[n - |keys| - 1] == count
            && rest[n - used..n - |keys| - 1] == sigs && rest[..n - used] == below + [dummy]
  {
  }

  lemma MultisigResult(
    ctx: Context, sig: Signature, below: Stack, dummy: Bytes, sigs: seq<Bytes>, keys: seq<Bytes>,
    subscript: Bytes, codesep: nat)
    requires sig.CheckMultiSig? || sig.CheckMultiSigVerify?
    requires |sigs| <= |keys| <= ctx.maxPubkeys && |keys| < 0x8000_0000
    ensures var ok := CheckMultisig(ctx, sigs, keys, subscript, codesep);
            CheckSignatures(ctx, sig, MultisigStack(below, dummy, sigs, keys), subscript, codesep) ==
            if ok.Err? then Err(ok.error) else if dummy != [] then Err(NullDummy) else Ok(below + [FromBool(ok.value)])
  {
    hide CheckMultisig, FromBool, PopInt, Pop, ReadScriptInt, Encode;
    var rest := below + [dummy] + sigs + [Encode(|sigs|)] + keys;
    CountRead(rest, |keys|);
    CountRead([], |sigs|);
    MultisigLayout(below, dummy, sigs, Encode(|sigs|), keys);
    TopItem(below, dummy);
  }

  /** OP_CHECKMULTISIG on the counts, keys, signatures and empty dummy it asks
      for leaves the truth of whether the signatures can be assigned to keys in
      order; the verifying form goes on exactly if they can. A dummy that is not
      empty is refused. */
  lemma MultisigMeaning(
    ctx: Context, below: Stack, dummy: Bytes, sigs: seq<Bytes>, keys: seq<Bytes>, subscript: Bytes, codesep: nat)
    requires |sigs| <= |keys| <= ctx.maxPubkeys && |keys| < 0x8000_0000 && AllParse(ctx, keys)
    ensures var t := MultisigStack(below, dummy, sigs, keys);
            var b := exists f :: Assignment(ctx, sigs, keys, subscript, codesep, f);
            && ExecuteSignature(ctx, CheckMultiSig, t, subscript, codesep) ==
               (if dummy != [] then Err(NullDummy) else Ok(below + [Truth(b)]))
            && ExecuteSignature(ctx, CheckMultiSigVerify, t, subscript, codesep) ==
               (if dummy != [] then Err(NullDummy) else if b then Ok(below) else Err(VerifyFail))
  {
    hide CheckMultisig, FromBool, PopVerify, CheckSignatures, MultisigStack, Assignment;
    MatcherDecides(ctx, sigs, keys, subscript, codesep);
    MultisigResult(ctx, CheckMultiSig, below, dummy, sigs, keys, subscript, codesep);
    MultisigResult(ctx, CheckMultiSigVerify, below, dummy, sigs, keys, subscript, codesep);
    var b := exists f :: Assignment(ctx, sigs, keys, subscript, codesep, f);
    TruthWritten(b);
    VerifyTruth(below, b);
  }

  /** Counts that do not fit are refused before anything is looked at. */
  lemma MultisigRefuses(ctx: Context, sig: Signature, s: Stack, a: Bytes, subscript: Bytes, codesep: nat)
    requires sig.CheckMultiSig? || sig.CheckMultiSigVerify?
    ensures var r := ExecuteSignature(ctx, sig, s + [a], subscript, codesep);
            && (|a| > 4 ==> r == Err(NumericOverflow))
            && (|a| <= 4 && (Decode(a) < 0 || Decode(a) > ctx.maxPubkeys) ==> r == Err(PubkeyCount))
            && (|a| <= 4 && 0 <= Decode(a) <= ctx.maxPubkeys && |s| <= Decode(a) ==> r == Err(NotEnoughElementsOnStack))
            && (|a| <= 4 && 0 <= Decode(a) <= ctx.maxPubkeys && |s| > Decode(a) ==>
                  var c := s[|s| - Decode(a) - 1];
                  && (|c| > 4 ==> r == Err(NumericOverflow))
                  && (|c| <= 4 && (Decode(c) < 0 || Decode(c) > Decode(a)) ==> r == Err(SigCount))
                  && (|c| <= 4 && 0 <= Decode(c) <= Decode(a) && |s| < Decode(c) + Decode(a) + 1 ==>
                        r == Err(NotEnoughElementsOnStack)))
  {
    hide CheckMultisig, FromBool, PopInt, PopVerify;
    OperandRead(s, a);
    if |a| <= 4 && 0 <= Decode(a) <= ctx.maxPubkeys && |s| > Decode(a) {
      var c := s[|s| - Decode(a) - 1];
      if |c| <= 4 { ReadIsDecode(c, 4); }
    }
  }

  /** The signature opcodes at their bytes: they check against the script since
      the last separator. */
  lemma SignatureByteMeaning(ctx: Context, st: State, mask: seq<bool>, code: Byte, rest: Bytes)
    requires Taken(mask) && 0xac <= code <= 0xaf
    ensures var sig := if code == 0xac then CheckSig else if code == 0xad then CheckSigVerify
                       else if code == 0xae then CheckMultiSig else CheckMultiSigVerify;
            var r := ExecuteSignature(ctx, sig, st.stack, st.subscript, st.codesep);
            StepFlat(ctx, st, mask, Located(Op(code), rest)) ==
            if r.Err? then Err(r.error) else Counted(ctx, st.(stack := r.value), mask)
  {
    hide Classify, StepFlat, Counted, Taken, ExecuteSignature, Execute;
    OtherMembers(code);
    TakenStep(ctx, st, mask, code, rest);
  }

  lemma SignatureVerifies(ctx: Context, s: Stack, subscript: Bytes, codesep: nat)
    ensures var r := ExecuteSignature(ctx, CheckSig, s, subscript, codesep);
            ExecuteSignature(ctx, CheckSigVerify, s, subscript, codesep) == if r.Err? then r else PopVerify(r.value)
    ensures var r := ExecuteSignature(ctx, CheckMultiSig, s, subscript, codesep);
            ExecuteSignature(ctx, CheckMultiSigVerify, s, subscript, codesep) ==
            if r.Err? then r else PopVerify(r.value)
  {
    hide PopVerify, CheckMultisig, PopInt, FromBool, ReadScriptInt, Pop;
  }

  lemma OrdinaryVerifies(ctx: Context, s: Stack)
    ensures var r := Execute(ctx, Equal, s);
            Execute(ctx, EqualVerify, s) == if r.Err? then r else PopVerify(r.value)
    ensures var r := Execute(ctx, NumEqual, s);
            Execute(ctx, NumEqualVerify, s) == if r.Err? then r else PopVerify(r.value)
    ensures Execute(ctx, Verify, s) == PopVerify(s)
  {
    hide Compute, PopVerify, PopInt, FromBool, Encode, EqualOn;
    ComputeParts(ctx, Equal, s);
    ComputeParts(ctx, EqualVerify, s);
    ComputeParts(ctx, NumEqual, s);
    ComputeParts(ctx, NumEqualVerify, s);
    ComputeParts(ctx, Verify, s);
  }

  lemma TestBytes()
    ensures Classify(0x69) == OrdinaryOp(Verify)
    ensures Classify(0x87) == OrdinaryOp(Equal) && Classify(0x88) == OrdinaryOp(EqualVerify)
    ensures Classify(0x9c) == OrdinaryOp(NumEqual) && Classify(0x9d) == OrdinaryOp(NumEqualVerify)
  {
    hide Classify, CodeOfOrdinary;
    TestCodes();
    OrdinaryByteUnique(Verify, 0x69);
    OrdinaryByteUnique(Equal, 0x87);
    OrdinaryByteUnique(EqualVerify, 0x88);
    OrdinaryByteUnique(NumEqual, 0x9c);
    OrdinaryByteUnique(NumEqualVerify, 0x9d);
  }

  lemma TestCodes()
    ensures CodeOfOrdinary(Verify) == 0x69
    ensures CodeOfOrdinary(Equal) == 0x87 && CodeOfOrdinary(EqualVerify) == 0x88
    ensures CodeOfOrdinary(NumEqual) == 0x9c && CodeOfOrdinary(NumEqualVerify) == 0x9d
  {
  }

  lemma OrdinaryForm(ctx: Context, st: State, code: Byte)
    requires code == 0x87 || code == 0x9c
    ensures var r := ExecTaken(ctx, st, Classify(code));
            ExecTaken(ctx, st, Classify(code + 1)) == if r.Err? then r else ExecTaken(ctx, r.value, Classify(0x69))
  {
    hide Classify, PopVerify, Execute, ExecuteSignature;
    TestBytes();
    OrdinaryVerifies(ctx, st.stack);
    var r := ExecTaken(ctx, st, Classify(code));
    if r.Ok? { OrdinaryVerifies(ctx, r.value.stack); }
  }

  lemma SignatureForm(ctx: Context, st: State, code: Byte)
    requires code == 0xac || code == 0xae
    ensures var r := ExecTaken(ctx, st, Classify(code));
            ExecTaken(ctx, st, Classify(code + 1)) == if r.Err? then r else ExecTaken(ctx, r.value, Classify(0x69))
  {
    hide Classify, PopVerify, Execute, ExecuteSignature;
    OtherMembers(code);
    OtherMembers(code + 1);
    TestBytes();
    SignatureVerifies(ctx, st.stack, st.subscript, st.codesep);
    var r := ExecTaken(ctx, st, Classify(code));
    if r.Ok? { OrdinaryVerifies(ctx, r.value.stack); }
  }

  /** The four opcodes with a verifying form, and what that form does: it does
      what the opcode does, and then what OP_VERIFY does. */
  lemma VerifyFormMeaning(ctx: Context, st: State, code: Byte)
    ensures VerifyForm(code).Some? <==> code in {0x87, 0x9c, 0xac, 0xae}
    ensures VerifyForm(code).Some? ==>
              var r := ExecTaken(ctx, st, Classify(code));
              ExecTaken(ctx, st, Classify(VerifyForm(code).value)) ==
              if r.Err? then r else ExecTaken(ctx, r.value, Classify(0x69))
  {
    hide Classify, ExecTaken;
    if code in {0x87, 0x9c} { OrdinaryForm(ctx, st, code); }
    if code in {0xac, 0xae} { SignatureForm(ctx, st, code); }
  }
}
