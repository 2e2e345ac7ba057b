/** What each instruction does to the machine, as pure functions
    (script/src/interpreter.rs, script/src/context.rs). */
module Machine {
  import opened Wrappers
  import opened ScriptNum
  import opened Opcodes
  import opened Script

  type Stack = seq<Bytes>  // the top is the last element

  type Public(!new)

  type SignatureData(!new)

  datatype ParseResult<+T> = Parsed(value: T) | Malformed | Reserved

  /** What the chain supplies: limits, signature checks, time locks, hashes. */
  datatype Context = Context(
    maxElementSize: nat,
    maxStackElements: nat,
    maxPubkeys: nat,
    maxScriptSize: nat,
    minimalPush: bool,
    minimalIf: bool,
    parsePubkey: Bytes -> ParseResult<Public>,
    parseSignature: (Public, Bytes) -> Option<SignatureData>,
    verifySignature: (SignatureData, Bytes, nat) -> bool,
    checkLockTime: int -> bool,
    checkSequence: int -> bool,
    ripemd160: Bytes -> Bytes,
    sha1: Bytes -> Bytes,
    sha256: Bytes -> Bytes)
  {
    function Hash160(data: Bytes): Bytes {
      ripemd160(sha256(data))
    }

    function Hash256(data: Bytes): Bytes {
      sha256(sha256(data))
    }

    ghost predicate HashSizes() {
      && (forall x :: |ripemd160(x)| == 20)
      && (forall x :: |sha1(x)| == 20)
      && (forall x :: |sha256(x)| == 32)
    }
  }

  type Outcome<T> = Result<T, ScriptError>

  // ---------- stack primitives ----------

  function Need(s: Stack, n: nat): Outcome<()> {
    if |s| >= n then Ok(()) else Err(NotEnoughElementsOnStack)
  }

  function Pop(s: Stack): Outcome<(Bytes, Stack)> {
    if s == [] then Err(NotEnoughElementsOnStack) else Ok((s[|s| - 1], s[..|s| - 1]))
  }

  function PopInt(s: Stack): Outcome<(int, Stack)> {
    var (x, rest) :- Pop(s);
    var n :- ReadScriptInt(x);
    Ok((n, rest))
  }

  /** Pops a truth value that has to be true. */
  function PopVerify(s: Stack): Outcome<Stack> {
    var (x, rest) :- Pop(s);
    if ReadScriptBool(x) then Ok(rest) else Err(VerifyFail)
  }

  function FromBool(b: bool): Bytes {
    Encode(if b then 1 else 0)
  }

  const I32_MAX: nat := 0x7fff_ffff

  // ---------- ordinary opcodes ----------

  predicate IsUnary(op: Ordinary) {
    op.OneAdd? || op.OneSub? || op.Negate? || op.Abs? || op.Not? || op.ZeroNotEqual?
  }

  function Unary(op: Ordinary, x: int): int
    requires IsUnary(op)
  {
    match op
    case OneAdd => x + 1
    case OneSub => x - 1
    case Negate => -x
    case Abs => if x < 0 then -x else x
    case Not => if x == 0 then 1 else 0
    case ZeroNotEqual => if x != 0 then 1 else 0
  }

  predicate IsBinary(op: Ordinary) {
    || op.Add? || op.Sub? || op.BoolAnd? || op.BoolOr? || op.NumEqual? || op.NumEqualVerify? || op.NumNotEqual?
    || op.LessThan? || op.GreaterThan? || op.LessThanOrEqual? || op.GreaterThanOrEqual? || op.Min? || op.Max?
  }

  function AsInt(b: bool): int {
    if b then 1 else 0
  }

  function Binary(op: Ordinary, x: int, y: int): int
    requires IsBinary(op)
  {
    match op
    case Add => x + y
    case Sub => x - y
    case BoolAnd => AsInt(x != 0 && y != 0)
    case BoolOr => AsInt(x != 0 || y != 0)
    case NumEqual => AsInt(x == y)
    case NumEqualVerify => AsInt(x == y)
    case NumNotEqual => AsInt(x != y)
    case LessThan => AsInt(x < y)
    case GreaterThan => AsInt(x > y)
    case LessThanOrEqual => AsInt(x <= y)
    case GreaterThanOrEqual => AsInt(x >= y)
    case Min => if x <= y then x else y
    case Max => if x <= y then y else x
  }

  predicate IsHash(op: Ordinary) {
    op.Ripemd160? || op.Sha1? || op.Sha256? || op.Hash160? || op.Hash256?
  }

  function HashOf(ctx: Context, op: Ordinary, x: Bytes): Bytes
    requires IsHash(op)
  {
    match op
    case Ripemd160 => ctx.ripemd160(x)
    case Sha1 => ctx.sha1(x)
    case Sha256 => ctx.sha256(x)
    case Hash160 => ctx.Hash160(x)
    case Hash256 => ctx.Hash256(x)
  }

  /** Opcodes that rearrange, copy or drop a fixed number of top items. */
  predicate IsShuffle(op: Ordinary) {
    || op.Drop? || op.TwoDrop? || op.Dup? || op.TwoDup? || op.ThreeDup? || op.Over? || op.TwoOver?
    || op.Swap? || op.TwoSwap? || op.TwoRot? || op.Nip? || op.Rot? || op.Tuck?
  }

  function ShuffleNeeds(op: Ordinary): nat
    requires IsShuffle(op)
  {
    match op
    case Drop => 1
    case TwoDrop => 2
    case Dup => 1
    case TwoDup => 2
    case ThreeDup => 3
    case Over => 2
    case TwoOver => 4
    case Swap => 2
    case TwoSwap => 4
    case TwoRot => 6
    case Nip => 2
    case Rot => 3
    case Tuck => 2
  }

  function Shuffle(op: Ordinary, s: Stack): Stack
    requires IsShuffle(op) && |s| >= ShuffleNeeds(op)
  {
    var n := |s|;
    match op
    case Drop => s[..n - 1]
    case TwoDrop => s[..n - 2]
    case Dup => s + [s[n - 1]]
    case TwoDup => s + [s[n - 2], s[n - 1]]
    case ThreeDup => s + [s[n - 3], s[n - 2], s[n - 1]]
    case Over => s + [s[n - 2]]
    case TwoOver => s + [s[n - 4], s[n - 3]]
    case Swap => s[..n - 2] + [s[n - 1], s[n - 2]]
    case TwoSwap => s[..n - 4] + [s[n - 2], s[n - 1], s[n - 4], s[n - 3]]
    case TwoRot => s[..n - 6] + [s[n - 4], s[n - 3], s[n - 2], s[n - 1], s[n - 6], s[n - 5]]
    case Nip => s[..n - 2] + [s[n - 1]]
    case Rot => s[..n - 3] + [s[n - 2], s[n - 1], s[n - 3]]
    case Tuck => s[..n - 2] + [s[n - 1], s[n - 2], s[n - 1]]
  }

  function UnaryOn(op: Ordinary, s: Stack): Outcome<Stack>
    requires IsUnary(op)
  {
    var (x, rest) :- PopInt(s);
    Ok(rest + [Encode(Unary(op, x))])
  }

  function BinaryOn(op: Ordinary, s: Stack): Outcome<Stack>
    requires IsBinary(op)
  {
    var (y, rest) :- PopInt(s);
    var (x, rest') :- PopInt(rest);
    Ok(rest' + [Encode(Binary(op, x, y))])
  }

  function PickFrom(s: Stack): Outcome<Stack> {
    var (i, rest) :- PopInt(s);
    if i < 0 then Err(InvalidOperand)
    else
      var _ :- Need(rest, i + 1);
      Ok(rest + [rest[|rest| - i - 1]])
  }

  function RollFrom(s: Stack): Outcome<Stack> {
    var (i, rest) :- PopInt(s);
    if i < 0 then Err(InvalidOperand)
    else
      var _ :- Need(rest, i + 1);
      var k := |rest| - i - 1;
      Ok(rest[..k] + rest[k + 1..] + [rest[k]])
  }

  function WithinOn(s: Stack): Outcome<Stack> {
    var (hi, r1) :- PopInt(s);
    var (lo, r2) :- PopInt(r1);
    var (x, r3) :- PopInt(r2);
    Ok(r3 + [FromBool(lo <= x < hi)])
  }

  function EqualOn(s: Stack): Outcome<Stack> {
    var (y, r1) :- Pop(s);
    var (x, r2) :- Pop(r1);
    Ok(r2 + [FromBool(x == y)])
  }

  /** The effect of an opcode before a verifying opcode checks its result. */
  function Compute(ctx: Context, op: Ordinary, s: Stack): Outcome<Stack> {
    if IsShuffle(op) then
      var _ :- Need(s, ShuffleNeeds(op));
      Ok(Shuffle(op, s))
    else if IsUnary(op) then UnaryOn(op, s)
    else if IsBinary(op) then BinaryOn(op, s)
    else if IsHash(op) then
      var (x, rest) :- Pop(s);
      Ok(rest + [HashOf(ctx, op, x)])
    else if op.Verify? then Ok(s)
    else if op.Pick? then PickFrom(s)
    else if op.Roll? then RollFrom(s)
    else if op.IfDup? then
      var _ :- Need(s, 1);
      if ReadScriptBool(s[|s| - 1]) then Ok(s + [s[|s| - 1]]) else Ok(s)
    else if op.Depth? then
      if |s| < I32_MAX then Ok(s + [Encode(|s|)]) else Err(NumericOverflow)
    else if op.Size? then
      var _ :- Need(s, 1);
      if |s[|s| - 1]| < I32_MAX then Ok(s + [Encode(|s[|s| - 1]|)]) else Err(NumericOverflow)
    else if op.Within? then WithinOn(s)
    else EqualOn(s)
  }

  /** Which part an opcode's effect is. */
  lemma ComputeParts(ctx: Context, op: Ordinary, s: Stack)
    ensures IsUnary(op) ==> Compute(ctx, op, s) == UnaryOn(op, s)
    ensures IsBinary(op) ==> Compute(ctx, op, s) == BinaryOn(op, s)
    ensures op.Pick? ==> Compute(ctx, op, s) == PickFrom(s)
    ensures op.Roll? ==> Compute(ctx, op, s) == RollFrom(s)
    ensures op.Within? ==> Compute(ctx, op, s) == WithinOn(s)
    ensures op.Equal? || op.EqualVerify? ==> Compute(ctx, op, s) == EqualOn(s)
    ensures op.Verify? ==> Compute(ctx, op, s) == Ok(s)
  {
    hide Compute, UnaryOn, BinaryOn, PickFrom, RollFrom, WithinOn, EqualOn;
    if IsUnary(op) {
      ComputeUnary(ctx, op, s);
    } else if IsBinary(op) {
      ComputeBinary(ctx, op, s);
    } else {
      ComputeOther(ctx, op, s);
    }
  }

  lemma ComputeUnary(ctx: Context, op: Ordinary, s: Stack)
    requires IsUnary(op)
    ensures Compute(ctx, op, s) == UnaryOn(op, s)
  {
    hide UnaryOn, BinaryOn, PickFrom, RollFrom, WithinOn, EqualOn, Shuffle, HashOf;
  }

  lemma ComputeBinary(ctx: Context, op: Ordinary, s: Stack)
    requires IsBinary(op)
    ensures Compute(ctx, op, s) == BinaryOn(op, s)
  {
    hide UnaryOn, BinaryOn, PickFrom, RollFrom, WithinOn, EqualOn, Shuffle, HashOf;
  }

  lemma ComputeOther(ctx: Context, op: Ordinary, s: Stack)
    ensures op.Pick? ==> Compute(ctx, op, s) == PickFrom(s)
    ensures op.Roll? ==> Compute(ctx, op, s) == RollFrom(s)
    ensures op.Within? ==> Compute(ctx, op, s) == WithinOn(s)
    ensures op.Equal? || op.EqualVerify? ==> Compute(ctx, op, s) == EqualOn(s)
    ensures op.Verify? ==> Compute(ctx, op, s) == Ok(s)
  {
    hide UnaryOn, BinaryOn, PickFrom, RollFrom, WithinOn, EqualOn, Shuffle, HashOf;
  }

  function Execute(ctx: Context, op: Ordinary, s: Stack): Outcome<Stack> {
    var s' :- Compute(ctx, op, s);
    if op.IsVerify() then PopVerify(s') else Ok(s')
  }

  // ---------- signatures ----------

  /** A key of an unknown type accepts any signature; a known one checks it. */
  predicate Accepts(ctx: Context, key: Bytes, sig: Bytes, subscript: Bytes, codesep: nat) {
    match ctx.parsePubkey(key)
    case Malformed => false
    case Reserved => true
    case Parsed(pk) =>
      var data := ctx.parseSignature(pk, sig);
      data.Some? && ctx.verifySignature(data.value, subscript, codesep)
  }

  /** check_multisig: each signature is given to the first key left that takes
      it, and the search stops once there are fewer keys than signatures. */
  function CheckMultisig(
    ctx: Context, sigs: seq<Bytes>, keys: seq<Bytes>, subscript: Bytes, codesep: nat): Outcome<bool>
    decreases |keys|
  {
    if sigs == [] then Ok(true)
    else if |keys| < |sigs| then Ok(false)
    else if ctx.parsePubkey(keys[0]).Malformed? then Err(PubkeyFormat)
    else if Accepts(ctx, keys[0], sigs[0], subscript, codesep) then
      CheckMultisig(ctx, sigs[1..], keys[1..], subscript, codesep)
    else
      CheckMultisig(ctx, sigs, keys[1..], subscript, codesep)
  }

  function CheckSignatures(ctx: Context, sig: Signature, s: Stack, subscript: Bytes, codesep: nat): Outcome<Stack> {
    if sig.CheckSig? || sig.CheckSigVerify? then
      var (pubkey, r1) :- Pop(s);
      var (signature, r2) :- Pop(r1);
      var ok :- CheckMultisig(ctx, [signature], [pubkey], subscript, codesep);
      Ok(r2 + [FromBool(ok)])
    else
      var (nkey, rest) :- PopInt(s);
      if nkey < 0 || nkey > ctx.maxPubkeys then Err(PubkeyCount)
      else
        var _ :- Need(rest, nkey);
        var _ :- Need(rest, nkey + 1);
        var n := |rest|;
        var keys := rest[n - nkey..];
        var nsig :- ReadScriptInt(rest[n - nkey - 1]);
        if nsig < 0 || nsig > nkey then Err(SigCount)
        else
          var used := nsig + nkey + 1;
          var _ :- Need(rest, used);
          var sigs := rest[n - used..n - nkey - 1];
          var ok :- CheckMultisig(ctx, sigs, keys, subscript, codesep);
          var (dummy, below) :- Pop(rest[..n - used]);
          if dummy != [] then Err(NullDummy)
          else Ok(below + [FromBool(ok)])
  }

  function ExecuteSignature(ctx: Context, sig: Signature, s: Stack, subscript: Bytes, codesep: nat): Outcome<Stack> {
    var s' :- CheckSignatures(ctx, sig, s, subscript, codesep);
    if sig.IsVerify() then PopVerify(s') else Ok(s')
  }

  // ---------- one instruction ----------

  const U32_MAX: nat := 0xffff_ffff

  /** Both stacks, and where the last code separator was. */
  datatype State = State(stack: Stack, alt: Stack, subscript: Bytes, codesep: nat, count: nat)

  /** An instruction with the script bytes that follow it. */
  datatype Located = Located(instr: Instr, rest: Bytes)

  /** The class of an instruction; data pushes count as pushes of bytes. */
  function FlowOf(i: Instr): Option<ControlFlow> {
    if i.Push? then None
    else match Classify(i.code)
      case ControlFlowOp(flow) => Some(flow)
      case _ => None
  }

  /** Conditionals shape the run; everything else is a plain instruction. */
  predicate IsConditional(i: Instr) {
    FlowOf(i).Some? && !FlowOf(i).value.CodeSeparator?
  }

  /** A plain instruction. Some effects happen even in a branch that is not
      taken: oversized pushes and illegal opcodes fail, code separators move. */
  function ExecPlain(ctx: Context, st: State, li: Located, executing: bool): Outcome<State>
    requires !IsConditional(li.instr)
    requires li.instr.Op? ==> !CarriesData(li.instr.code)
  {
    if li.instr.Push? then
      var data := li.instr.data;
      if |data| > ctx.maxElementSize then Err(PushSize)
      else if executing then Ok(st.(stack := st.stack + [data]))
      else Ok(st)
    else
      var kind := Classify(li.instr.code);
      if kind.IllegalOpcode? then Err(IllegalOp)
      else if kind.ControlFlowOp? then Ok(st.(subscript := li.rest, codesep := st.count))
      else if !executing then Ok(st)
      else ExecTaken(ctx, st, kind)
  }

  /** An opcode in a branch that is taken. */
  function ExecTaken(ctx: Context, st: State, kind: Class): Outcome<State> {
    if kind.ReturnOp? then Err(VerifyFail)
    else if kind.PushNum? then Ok(st.(stack := st.stack + [Encode(kind.n)]))
    else if kind.AltStackOp? then
      if kind.alt.ToAltStack? then
        var (x, rest) :- Pop(st.stack);
        Ok(st.(stack := rest, alt := st.alt + [x]))
      else
        var (x, rest) :- Pop(st.alt);
        Ok(st.(stack := st.stack + [x], alt := rest))
    else if kind.SignatureOp? then
      var s :- ExecuteSignature(ctx, kind.sig, st.stack, st.subscript, st.codesep);
      Ok(st.(stack := s))
    else if kind.TimeLockOp? then
      var _ :- Need(st.stack, 1);
      var time :- ReadScriptIntSize(st.stack[|st.stack| - 1], 5);
      var ok := if kind.lock.CheckLockTime? then ctx.checkLockTime(time) else ctx.checkSequence(time);
      if ok then Ok(st) else Err(TimeLockNotMet)
    else if kind.OrdinaryOp? then
      var s :- Execute(ctx, kind.op, st.stack);
      Ok(st.(stack := s))
    else Ok(st)
  }

  /** The condition an IF or NOTIF takes off the stack. */
  function PopCondition(ctx: Context, s: Stack, negate: bool): Outcome<(bool, Stack)> {
    var (c, rest) :- Pop(s);
    if !ctx.minimalIf then Ok((ReadScriptBool(c) != negate, rest))
    else if c == [] then Ok((false != negate, rest))
    else if c == [1] then Ok((true != negate, rest))
    else Err(InvalidOperand)
  }

  /** After every instruction: the size check and the instruction counter. */
  function Tick(ctx: Context, st: State): Outcome<State> {
    if |st.stack| + |st.alt| > ctx.maxStackElements then Err(StackSize)
    else Ok(st.(count := if st.count < U32_MAX then st.count + 1 else st.count))
  }

  // ---------- the flat machine with its mask stack ----------

  predicate AllTrue(mask: seq<bool>) {
    forall i :: 0 <= i < |mask| ==> mask[i]
  }

  function StepFlat(ctx: Context, st: State, mask: seq<bool>, li: Located): Outcome<(State, seq<bool>)>
    requires li.instr.Op? ==> !CarriesData(li.instr.code)
  {
    if !IsConditional(li.instr) then
      var st' :- ExecPlain(ctx, st, li, AllTrue(mask));
      var st'' :- Tick(ctx, st');
      Ok((st'', mask))
    else
      var flow := FlowOf(li.instr).value;
      if flow.If? || flow.NotIf? then
        if !AllTrue(mask) then
          var st' :- Tick(ctx, st);
          Ok((st', mask + [false]))
        else
          var (cond, rest) :- PopCondition(ctx, st.stack, flow.NotIf?);
          var st' :- Tick(ctx, st.(stack := rest));
          Ok((st', mask + [cond]))
      else if mask == [] then Err(UnbalancedIfElse)
      else
        var st' :- Tick(ctx, st);
        var outer := mask[..|mask| - 1];
        Ok((st', if flow.Else? then outer + [!mask[|mask| - 1]] else outer))
  }

  /** Running the bytes of a script: instructions are parsed as they come. */
  function RunBytes(ctx: Context, st: State, mask: seq<bool>, data: Bytes): Outcome<(State, seq<bool>)>
    decreases |data|
  {
    if data == [] then Ok((st, mask))
    else match ParseOne(data, ctx.minimalPush)
      case Bad(e) => Err(e)
      case Item(instr, rest) =>
        var (st', mask') :- StepFlat(ctx, st, mask, Located(instr, rest));
        RunBytes(ctx, st', mask', rest)
  }

  function InitialState(script: Bytes, stack: Stack): State {
    State(stack, [], script, U32_MAX, 0)
  }

  function RunScript(ctx: Context, script: Bytes, stack: Stack): Outcome<Stack> {
    if |script| > ctx.maxScriptSize then Err(ScriptSize)
    else
      var (st, mask) :- RunBytes(ctx, InitialState(script, stack), [], script);
      if mask != [] then Err(UnbalancedIfElse) else Ok(st.stack)
  }

  /** Scripts limited to pushes. */
  function PushBytesFrom(ctx: Context, s: Stack, data: Bytes): Outcome<Stack>
    decreases |data|
  {
    if data == [] then Ok(s)
    else match ParseOne(data, ctx.minimalPush)
      case Bad(e) => Err(e)
      case Item(Push(d), rest) =>
        if |d| > ctx.maxElementSize then Err(PushSize)
        else if |s| + 1 > ctx.maxStackElements then Err(StackSize)
        else PushBytesFrom(ctx, s + [d], rest)
      case Item(Op(code), rest) =>
        match Classify(code)
        case PushNum(n) =>
          if |s| + 1 > ctx.maxStackElements then Err(StackSize)
          else PushBytesFrom(ctx, s + [Encode(n)], rest)
        case _ => Err(PushOnly)
  }

  function RunPushdata(ctx: Context, script: Bytes): Outcome<Stack> {
    if |script| > ctx.maxScriptSize then Err(ScriptSize) else PushBytesFrom(ctx, [], script)
  }

  function VerifyStack(s: Stack): Outcome<()> {
    if |s| != 1 then Err(StackNotClean)
    else if ReadScriptBool(s[0]) then Ok(()) else Err(VerifyFail)
  }

  function VerifyWitnessLock(ctx: Context, unlock: Bytes, lock: Bytes): Outcome<()> {
    var s :- RunPushdata(ctx, unlock);
    var s' :- RunScript(ctx, lock, s);
    VerifyStack(s')
  }
}
