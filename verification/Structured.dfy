/** Conditionals as nested blocks, and the proof that the flat machine with its
    mask stack runs exactly the nested program. */
module Structured {
  import opened Wrappers
  import opened ScriptNum
  import opened Opcodes
  import opened Script
  import opened Machine

  // ---------- programs ----------

  datatype Block = Nil | Cons(head: Stmt, tail: Block)

  datatype Stmt = Plain(li: Located) | Cond(open: Located, arms: Arms)

  /** The ELSE-separated arms of a conditional, up to its ENDIF. */
  datatype Arms = Last(body: Block, close: Located) | More(body: Block, sep: Located, rest: Arms)

  predicate IsPlain(li: Located) {
    !IsConditional(li.instr) && (li.instr.Op? ==> !CarriesData(li.instr.code))
  }

  predicate IsFlow(li: Located, flow: ControlFlow) {
    FlowOf(li.instr) == Some(flow)
  }

  predicate WellFormed(b: Block) {
    match b
    case Nil => true
    case Cons(Plain(li), tail) => IsPlain(li) && WellFormed(tail)
    case Cons(Cond(open, arms), tail) =>
      (IsFlow(open, If) || IsFlow(open, NotIf)) && WellFormedArms(arms) && WellFormed(tail)
  }

  predicate WellFormedArms(a: Arms) {
    match a
    case Last(body, close) => WellFormed(body) && IsFlow(close, EndIf)
    case More(body, sep, rest) => WellFormed(body) && IsFlow(sep, Else) && WellFormedArms(rest)
  }

  function Flatten(b: Block): seq<Located> {
    match b
    case Nil => []
    case Cons(Plain(li), tail) => [li] + Flatten(tail)
    case Cons(Cond(open, arms), tail) => [open] + FlattenArms(arms) + Flatten(tail)
  }

  function FlattenArms(a: Arms): seq<Located> {
    match a
    case Last(body, close) => Flatten(body) + [close]
    case More(body, sep, rest) => Flatten(body) + [sep] + FlattenArms(rest)
  }

  // ---------- nested evaluation, every effect of skipped code included ----------

  function EvalBlock(ctx: Context, st: State, b: Block, on: bool): Outcome<State>
    requires WellFormed(b)
    decreases b
  {
    match b
    case Nil => Ok(st)
    case Cons(Plain(li), tail) =>
      var st1 :- ExecPlain(ctx, st, li, on);
      var st2 :- Tick(ctx, st1);
      EvalBlock(ctx, st2, tail, on)
    case Cons(Cond(open, arms), tail) =>
      var (taken, st1) :- EvalOpen(ctx, st, open, on);
      var st2 :- EvalArms(ctx, st1, arms, on, taken);
      EvalBlock(ctx, st2, tail, on)
  }

  function EvalOpen(ctx: Context, st: State, open: Located, on: bool): Outcome<(bool, State)> {
    if on then
      var (cond, rest) :- PopCondition(ctx, st.stack, IsFlow(open, NotIf));
      var st' :- Tick(ctx, st.(stack := rest));
      Ok((cond, st'))
    else
      var st' :- Tick(ctx, st);
      Ok((false, st'))
  }

  /** Arms are taken in turn: the first, third, ... or the second, fourth, ... */
  function EvalArms(ctx: Context, st: State, a: Arms, on: bool, taken: bool): Outcome<State>
    requires WellFormedArms(a)
    decreases a
  {
    match a
    case Last(body, _) =>
      var st1 :- EvalBlock(ctx, st, body, on && taken);
      Tick(ctx, st1)
    case More(body, _, rest) =>
      var st1 :- EvalBlock(ctx, st, body, on && taken);
      var st2 :- Tick(ctx, st1);
      EvalArms(ctx, st2, rest, on, !taken)
  }

  // ---------- the flat machine on a list of instructions ----------

  predicate Standalone(lis: seq<Located>) {
    forall i :: 0 <= i < |lis| && lis[i].instr.Op? ==> !CarriesData(lis[i].instr.code)
  }

  function RunFlat(ctx: Context, st: State, mask: seq<bool>, lis: seq<Located>): Outcome<(State, seq<bool>)>
    requires Standalone(lis)
    decreases |lis|
  {
    if lis == [] then Ok((st, mask))
    else
      var (st', mask') :- StepFlat(ctx, st, mask, lis[0]);
      RunFlat(ctx, st', mask', lis[1..])
  }

  lemma FlowIsStandalone(li: Located)
    requires FlowOf(li.instr).Some?
    ensures li.instr.Op? && !CarriesData(li.instr.code)
  {
  }

  lemma {:induction false} FlattenStandalone(b: Block)
    requires WellFormed(b)
    ensures Standalone(Flatten(b))
    decreases b
  {
    match b
    case Nil =>
    case Cons(Plain(_), tail) => FlattenStandalone(tail);
    case Cons(Cond(open, arms), tail) =>
      FlowIsStandalone(open);
      FlattenArmsStandalone(arms);
      FlattenStandalone(tail);
  }

  lemma {:induction false} FlattenArmsStandalone(a: Arms)
    requires WellFormedArms(a)
    ensures Standalone(FlattenArms(a))
    decreases a
  {
    FlattenStandalone(a.body);
    match a
    case Last(_, close) => FlowIsStandalone(close);
    case More(_, sep, rest) =>
      FlowIsStandalone(sep);
      FlattenArmsStandalone(rest);
  }

  lemma AllTrueSnoc(mask: seq<bool>, b: bool)
    ensures AllTrue(mask + [b]) <==> AllTrue(mask) && b
    ensures (mask + [b])[..|mask + [b]| - 1] == mask
  {
    if AllTrue(mask + [b]) {
      forall i | 0 <= i < |mask| ensures mask[i] { assert (mask + [b])[i] == mask[i]; }
      assert (mask + [b])[|mask|];
    }
  }

  /** What happens after a nested program and before the rest of the script. */
  function Continue(ctx: Context, r: Outcome<State>, mask: seq<bool>, tail: seq<Located>): Outcome<(State, seq<bool>)>
    requires Standalone(tail)
  {
    if r.Err? then Err(r.error) else RunFlat(ctx, r.value, mask, tail)
  }

  lemma RunFlatCons(ctx: Context, st: State, mask: seq<bool>, li: Located, rest: seq<Located>)
    requires Standalone([li]) && Standalone(rest)
    ensures Standalone([li] + rest)
    ensures var step := StepFlat(ctx, st, mask, [li][0]);
            RunFlat(ctx, st, mask, [li] + rest) ==
            if step.Err? then Err(step.error) else RunFlat(ctx, step.value.0, step.value.1, rest)
  {
    assert ([li] + rest)[1..] == rest;
  }

  /** Opening a conditional masks its first arm by the condition. */
  lemma OpenStep(ctx: Context, st: State, mask: seq<bool>, open: Located)
    requires IsFlow(open, If) || IsFlow(open, NotIf)
    ensures Standalone([open])
    ensures var o := EvalOpen(ctx, st, open, AllTrue(mask));
            StepFlat(ctx, st, mask, [open][0]) ==
            if o.Err? then Err(o.error) else Ok((o.value.1, mask + [o.value.0]))
  {
    FlowIsStandalone(open);
  }

  /** ELSE flips the innermost mask, ENDIF drops it. */
  lemma SeparatorStep(ctx: Context, st: State, mask: seq<bool>, taken: bool, sep: Located)
    requires IsFlow(sep, Else) || IsFlow(sep, EndIf)
    ensures Standalone([sep])
    ensures var t := Tick(ctx, st);
            StepFlat(ctx, st, mask + [taken], [sep][0]) ==
            if t.Err? then Err(t.error)
            else Ok((t.value, if IsFlow(sep, Else) then mask + [!taken] else mask))
  {
    FlowIsStandalone(sep);
    AllTrueSnoc(mask, taken);
  }

  /** Running a nested program on the flat machine, from any state under any
      mask and in front of any other code, is evaluating it. */
  lemma {:induction false} FlatIsNested(ctx: Context, st: State, mask: seq<bool>, b: Block, tail: seq<Located>)
    requires WellFormed(b) && Standalone(tail)
    ensures Standalone(Flatten(b) + tail)
    ensures RunFlat(ctx, st, mask, Flatten(b) + tail) ==
            Continue(ctx, EvalBlock(ctx, st, b, AllTrue(mask)), mask, tail)
    decreases b
  {
    hide Tick, PopCondition, Classify, ExecPlain;
    FlattenStandalone(b);
    match b
    case Nil =>
      assert [] + tail == tail;
    case Cons(Plain(li), rest) =>
      FlattenStandalone(rest);
      assert Flatten(b) + tail == [li] + (Flatten(rest) + tail);
      RunFlatCons(ctx, st, mask, li, Flatten(rest) + tail);
      var st' := ExecPlain(ctx, st, li, AllTrue(mask));
      if st'.Ok? && Tick(ctx, st'.value).Ok? {
        FlatIsNested(ctx, Tick(ctx, st'.value).value, mask, rest, tail);
      }
    case Cons(Cond(open, arms), rest) =>
      CondIsNested(ctx, st, mask, open, arms, rest, tail);
  }

  lemma {:induction false} CondIsNested(
    ctx: Context, st: State, mask: seq<bool>, open: Located, arms: Arms, rest: Block, tail: seq<Located>)
    requires WellFormed(Cons(Cond(open, arms), rest)) && Standalone(tail)
    ensures var b := Cons(Cond(open, arms), rest);
            && Standalone(Flatten(b) + tail)
            && RunFlat(ctx, st, mask, Flatten(b) + tail) ==
               Continue(ctx, EvalBlock(ctx, st, b, AllTrue(mask)), mask, tail)
    decreases Cons(Cond(open, arms), rest), 0
  {
    hide StepFlat, EvalOpen, Classify, CarriesData, IsFlow;
    var b := Cons(Cond(open, arms), rest);
    FlattenArmsStandalone(arms);
    FlattenStandalone(rest);
    var after := Flatten(rest) + tail;
    OpenStep(ctx, st, mask, open);
    FlattenCond(open, arms, rest, tail);
    RunFlatCons(ctx, st, mask, open, FlattenArms(arms) + after);
    var o := EvalOpen(ctx, st, open, AllTrue(mask));
    if o.Ok? {
      var (taken, st1) := o.value;
      ArmsAreNested(ctx, st1, mask, taken, arms, after);
      var st2 := EvalArms(ctx, st1, arms, AllTrue(mask), taken);
      if st2.Ok? {
        FlatIsNested(ctx, st2.value, mask, rest, tail);
      }
    }
  }

  lemma {:induction false} ArmsAreNested(
    ctx: Context, st: State, mask: seq<bool>, taken: bool, a: Arms, tail: seq<Located>)
    requires WellFormedArms(a) && Standalone(tail)
    ensures Standalone(FlattenArms(a) + tail)
    ensures RunFlat(ctx, st, mask + [taken], FlattenArms(a) + tail) ==
            Continue(ctx, EvalArms(ctx, st, a, AllTrue(mask), taken), mask, tail)
    decreases a
  {
    hide StepFlat, Tick, Classify, CarriesData, FlowOf, AllTrue;
    FlattenArmsStandalone(a);
    AllTrueSnoc(mask, taken);
    var sep := if a.Last? then a.close else a.sep;
    var after := if a.Last? then tail else FlattenArms(a.rest) + tail;
    if a.More? { FlattenArmsStandalone(a.rest); }
    FlowIsStandalone(sep);
    FlattenArm(a, tail);
    FlatIsNested(ctx, st, mask + [taken], a.body, [sep] + after);
    var st1 := EvalBlock(ctx, st, a.body, AllTrue(mask) && taken);
    if st1.Ok? {
      SeparatorStep(ctx, st1.value, mask, taken, sep);
      RunFlatCons(ctx, st1.value, mask + [taken], sep, after);
      var t := Tick(ctx, st1.value);
      if t.Ok? && a.More? {
        ArmsAreNested(ctx, t.value, mask, !taken, a.rest, tail);
      }
    }
  }

  // ---------- only balanced code runs to the end ----------

  /** IF, ELSE and ENDIF match up, from `depth` open conditionals to none. */
  predicate Balanced(lis: seq<Located>, depth: nat)
    decreases |lis|
  {
    if lis == [] then depth == 0
    else if !IsConditional(lis[0].instr) then Balanced(lis[1..], depth)
    else
      var flow := FlowOf(lis[0].instr).value;
      if flow.If? || flow.NotIf? then Balanced(lis[1..], depth + 1)
      else if flow.Else? then depth > 0 && Balanced(lis[1..], depth)
      else depth > 0 && Balanced(lis[1..], depth - 1)
  }

  lemma {:induction false} RunsToEndBalanced(ctx: Context, st: State, mask: seq<bool>, lis: seq<Located>)
    requires Standalone(lis)
    requires RunFlat(ctx, st, mask, lis).Ok? && RunFlat(ctx, st, mask, lis).value.1 == []
    ensures Balanced(lis, |mask|)
    decreases |lis|
  {
    hide Classify, ExecPlain, PopCondition, Tick;
    if lis == [] {
    } else {
      var (st', mask') := StepFlat(ctx, st, mask, lis[0]).value;
      RunsToEndBalanced(ctx, st', mask', lis[1..]);
    }
  }

  lemma FlattenArm(a: Arms, after: seq<Located>)
    ensures FlattenArms(a) + after ==
            Flatten(a.body) + if a.Last? then [a.close] + after else [a.sep] + (FlattenArms(a.rest) + after)
  {
  }

  lemma FlattenCond(open: Located, arms: Arms, tail: Block, after: seq<Located>)
    ensures Flatten(Cons(Cond(open, arms), tail)) + after == [open] + (FlattenArms(arms) + (Flatten(tail) + after))
  {
  }

  /** Balanced code has a nested form. */
  lemma {:induction false} NestedForm(lis: seq<Located>, depth: nat) returns (b: Block, rest: seq<Located>)
    requires Standalone(lis) && Balanced(lis, depth)
    ensures WellFormed(b) && lis == Flatten(b) + rest && Balanced(rest, depth) && Standalone(rest)
    ensures |rest| <= |lis|
    ensures rest == [] || IsFlow(rest[0], Else) || IsFlow(rest[0], EndIf)
    decreases |lis|, 0
  {
    hide Classify, CarriesData;
    if lis == [] {
      return Nil, [];
    }
    var li := lis[0];
    assert lis == [li] + lis[1..];
    if IsFlow(li, Else) || IsFlow(li, EndIf) {
      return Nil, lis;
    }
    if IsFlow(li, If) || IsFlow(li, NotIf) {
      var arms, r := NestedArms(lis[1..], depth + 1);
      var tail;
      tail, rest := NestedForm(r, depth);
      b := Cons(Cond(li, arms), tail);
      FlattenCond(li, arms, tail, rest);
    } else {
      var tail;
      tail, rest := NestedForm(lis[1..], depth);
      b := Cons(Plain(li), tail);
    }
  }

  lemma {:induction false} NestedArms(lis: seq<Located>, depth: nat) returns (a: Arms, rest: seq<Located>)
    requires Standalone(lis) && depth > 0 && Balanced(lis, depth)
    ensures WellFormedArms(a) && lis == FlattenArms(a) + rest && Balanced(rest, depth - 1) && Standalone(rest)
    ensures |rest| < |lis|
    decreases |lis|, 1
  {
    hide Classify, CarriesData;
    var body, r := NestedForm(lis, depth);
    var sep, after := r[0], r[1..];
    assert r == [sep] + after;
    if IsFlow(sep, EndIf) {
      a, rest := Last(body, sep), after;
    } else {
      var others;
      others, rest := NestedArms(after, depth);
      a := More(body, sep, others);
    }
    FlattenArm(a, rest);
  }

  /** The instructions of a script with the bytes after each. */
  function Locate(data: Bytes, minimal: bool): (r: Outcome<seq<Located>>)
    ensures r.Ok? ==> Standalone(r.value)
    ensures r.Ok? <==> ParseAll(data, minimal).Ok?
    decreases |data|
  {
    if data == [] then Ok([])
    else match ParseOne(data, minimal)
      case Bad(e) => Err(e)
      case Item(instr, rest) =>
        var others :- Locate(rest, minimal);
        Ok([Located(instr, rest)] + others)
  }

  lemma {:induction false} BytesAreFlat(ctx: Context, st: State, mask: seq<bool>, data: Bytes)
    requires Locate(data, ctx.minimalPush).Ok?
    ensures RunBytes(ctx, st, mask, data) == RunFlat(ctx, st, mask, Locate(data, ctx.minimalPush).value)
    decreases |data|
  {
    if data == [] {
    } else {
      var Item(instr, rest) := ParseOne(data, ctx.minimalPush);
      var lis := Locate(data, ctx.minimalPush).value;
      assert lis[0] == Located(instr, rest) && lis[1..] == Locate(rest, ctx.minimalPush).value;
      var r := StepFlat(ctx, st, mask, lis[0]);
      if r.Ok? {
        BytesAreFlat(ctx, r.value.0, r.value.1, rest);
      }
    }
  }

  lemma {:induction false} RunningParses(ctx: Context, st: State, mask: seq<bool>, data: Bytes)
    requires RunBytes(ctx, st, mask, data).Ok?
    ensures Locate(data, ctx.minimalPush).Ok?
    decreases |data|
  {
    if data == [] {
    } else {
      var Item(instr, rest) := ParseOne(data, ctx.minimalPush);
      var (st', mask') := StepFlat(ctx, st, mask, Located(instr, rest)).value;
      RunningParses(ctx, st', mask', rest);
    }
  }

  /** A script that succeeds is balanced: it has a nested form, whose value is
      the script's result. */
  lemma AcceptedIsNested(ctx: Context, script: Bytes, stack: Stack) returns (b: Block)
    requires RunScript(ctx, script, stack).Ok?
    ensures Locate(script, ctx.minimalPush).Ok?
    ensures WellFormed(b) && Flatten(b) == Locate(script, ctx.minimalPush).value
    ensures EvalBlock(ctx, InitialState(script, stack), b, true).Ok?
    ensures EvalBlock(ctx, InitialState(script, stack), b, true).value.stack == RunScript(ctx, script, stack).value
  {
    var st := InitialState(script, stack);
    RunningParses(ctx, st, [], script);
    BytesAreFlat(ctx, st, [], script);
    var lis := Locate(script, ctx.minimalPush).value;
    RunsToEndBalanced(ctx, st, [], lis);
    var rest;
    b, rest := NestedForm(lis, 0);
    assert rest == [];
    assert Flatten(b) + [] == Flatten(b);
    FlatIsNested(ctx, st, [], b, []);
  }

  /** For a script in nested form, the machine's verdict, error included, is
      the value of the nested program. */
  lemma ScriptIsNested(ctx: Context, script: Bytes, stack: Stack, b: Block)
    requires |script| <= ctx.maxScriptSize
    requires Locate(script, ctx.minimalPush).Ok?
    requires WellFormed(b) && Flatten(b) == Locate(script, ctx.minimalPush).value
    ensures RunScript(ctx, script, stack) ==
            var r := EvalBlock(ctx, InitialState(script, stack), b, true);
            if r.Err? then Err(r.error) else Ok(r.value.stack)
  {
    var st := InitialState(script, stack);
    BytesAreFlat(ctx, st, [], script);
    assert Flatten(b) + [] == Flatten(b);
    FlatIsNested(ctx, st, [], b, []);
  }

  // ---------- skipped code, and the evaluator that only runs what is taken ----------

  /** Nothing in it has an effect when skipped. */
  predicate CleanInstr(ctx: Context, i: Instr) {
    match i
    case Push(data) => |data| <= ctx.maxElementSize
    case Op(code) => !Illegal(code) && FlowOf(i) != Some(CodeSeparator)
  }

  predicate Clean(ctx: Context, b: Block) {
    match b
    case Nil => true
    case Cons(Plain(li), tail) => CleanInstr(ctx, li.instr) && Clean(ctx, tail)
    case Cons(Cond(_, arms), tail) => CleanArms(ctx, arms) && Clean(ctx, tail)
  }

  predicate CleanArms(ctx: Context, a: Arms) {
    Clean(ctx, a.body) && (a.More? ==> CleanArms(ctx, a.rest))
  }

  predicate WithinLimit(ctx: Context, st: State) {
    |st.stack| + |st.alt| <= ctx.maxStackElements
  }

  /** Equal but for the instruction counter. */
  predicate SameBut(st: State, st': State) {
    st' == st.(count := st'.count)
  }

  lemma SkipPlain(ctx: Context, st: State, li: Located)
    requires IsPlain(li) && CleanInstr(ctx, li.instr)
    ensures ExecPlain(ctx, st, li, false) == Ok(st)
  {
  }

  /** A skipped block, however nested, changes neither stack nor separator. */
  lemma {:induction false} SkippedBlock(ctx: Context, st: State, b: Block)
    requires WellFormed(b) && Clean(ctx, b) && WithinLimit(ctx, st)
    ensures EvalBlock(ctx, st, b, false).Ok? && SameBut(st, EvalBlock(ctx, st, b, false).value)
    decreases b
  {
    match b
    case Nil =>
    case Cons(Plain(li), tail) =>
      SkipPlain(ctx, st, li);
      SkippedBlock(ctx, Tick(ctx, st).value, tail);
    case Cons(Cond(open, arms), tail) =>
      var st1 := Tick(ctx, st).value;
      SkippedArms(ctx, st1, arms, false);
      SkippedBlock(ctx, EvalArms(ctx, st1, arms, false, false).value, tail);
  }

  lemma {:induction false} SkippedArms(ctx: Context, st: State, a: Arms, taken: bool)
    requires WellFormedArms(a) && CleanArms(ctx, a) && WithinLimit(ctx, st)
    ensures EvalArms(ctx, st, a, false, taken).Ok? && SameBut(st, EvalArms(ctx, st, a, false, taken).value)
    decreases a
  {
    SkippedBlock(ctx, st, a.body);
    if a.More? {
      SkippedArms(ctx, Tick(ctx, EvalBlock(ctx, st, a.body, false).value).value, a.rest, !taken);
    }
  }

  /** Just the two stacks. */
  type Stacks = (Stack, Stack)

  function Check(ctx: Context, s: Stacks): Outcome<Stacks> {
    if |s.0| + |s.1| > ctx.maxStackElements then Err(StackSize) else Ok(s)
  }

  const OP_IF: Byte := 0x63
  const OP_NOTIF: Byte := 0x64
  const OP_ELSE: Byte := 0x67
  const OP_ENDIF: Byte := 0x68

  /** IF takes its first arm on a number other than zero, NOTIF on zero. */
  predicate TakesFirst(open: Instr, condition: Bytes) {
    if open == Op(OP_IF) then Decode(condition) != 0 else Decode(condition) == 0
  }

  lemma FlowBytes(li: Located)
    ensures IsFlow(li, If) <==> li.instr == Op(OP_IF)
    ensures IsFlow(li, NotIf) <==> li.instr == Op(OP_NOTIF)
    ensures IsFlow(li, Else) <==> li.instr == Op(OP_ELSE)
    ensures IsFlow(li, EndIf) <==> li.instr == Op(OP_ENDIF)
  {
  }

  /** What an IF or NOTIF does with the stack, in terms of the number on top. */
  lemma ConditionRead(ctx: Context, s: Stack, open: Located)
    requires IsFlow(open, If) || IsFlow(open, NotIf)
    ensures PopCondition(ctx, s, IsFlow(open, NotIf)) ==
            if s == [] then Err(NotEnoughElementsOnStack)
            else
              var c := s[|s| - 1];
              if ctx.minimalIf && c != [] && c != [1] then Err(InvalidOperand)
              else Ok((TakesFirst(open.instr, c), s[..|s| - 1]))
  {
    hide Classify;
    FlowBytes(open);
    if s != [] {
      BoolIsNonZero(s[|s| - 1]);
      EncodeBool(true);
      DecodeEncode(1);
    }
  }

  /** The plain meaning of a program: no masks, no counters, and of the arms of
      a conditional only the ones its condition takes. */
  function Meaning(ctx: Context, script: Bytes, s: Stacks, b: Block): Outcome<Stacks>
    requires WellFormed(b)
    decreases b
  {
    match b
    case Nil => Ok(s)
    case Cons(Plain(li), tail) =>
      var st :- ExecPlain(ctx, State(s.0, s.1, script, U32_MAX, 0), li, true);
      var s' :- Check(ctx, (st.stack, st.alt));
      Meaning(ctx, script, s', tail)
    case Cons(Cond(open, arms), tail) =>
      if s.0 == [] then Err(NotEnoughElementsOnStack)
      else
        var c, rest := s.0[|s.0| - 1], s.0[..|s.0| - 1];
        if ctx.minimalIf && c != [] && c != [1] then Err(InvalidOperand)
        else
          var s1 :- Check(ctx, (rest, s.1));
          var s2 :- MeaningArms(ctx, script, s1, arms, TakesFirst(open.instr, c));
          Meaning(ctx, script, s2, tail)
  }

  function MeaningArms(ctx: Context, script: Bytes, s: Stacks, a: Arms, taken: bool): Outcome<Stacks>
    requires WellFormedArms(a)
    decreases a
  {
    var s' :- if taken then Meaning(ctx, script, s, a.body) else Ok(s);
    if a.Last? then Ok(s') else MeaningArms(ctx, script, s', a.rest, !taken)
  }

  predicate Agrees(script: Bytes, r: Outcome<State>, m: Outcome<Stacks>) {
    if r.Err? then m == Err(r.error)
    else m == Ok((r.value.stack, r.value.alt)) && r.value.subscript == script && r.value.codesep == U32_MAX
  }

  lemma PlainAgrees(ctx: Context, st: State, script: Bytes, li: Located)
    requires IsPlain(li) && CleanInstr(ctx, li.instr)
    requires st.subscript == script && st.codesep == U32_MAX
    ensures var r := ExecPlain(ctx, st, li, true);
            var q := ExecPlain(ctx, State(st.stack, st.alt, script, U32_MAX, 0), li, true);
            if r.Err? then q == Err(r.error)
            else && q.Ok? && q.value.stack == r.value.stack && q.value.alt == r.value.alt
                 && r.value.subscript == script && r.value.codesep == U32_MAX
  {
  }

  /** On programs without such effects, evaluation is the plain meaning. */
  lemma {:induction false} EvalIsMeaning(ctx: Context, st: State, script: Bytes, b: Block)
    requires WellFormed(b) && Clean(ctx, b)
    requires st.subscript == script && st.codesep == U32_MAX
    ensures Agrees(script, EvalBlock(ctx, st, b, true), Meaning(ctx, script, (st.stack, st.alt), b))
    ensures WithinLimit(ctx, st) && EvalBlock(ctx, st, b, true).Ok? ==>
              WithinLimit(ctx, EvalBlock(ctx, st, b, true).value)
    decreases b
  {
    match b
    case Nil =>
    case Cons(Plain(li), tail) =>
      PlainAgrees(ctx, st, script, li);
      var r := ExecPlain(ctx, st, li, true);
      if r.Ok? && Tick(ctx, r.value).Ok? {
        EvalIsMeaning(ctx, Tick(ctx, r.value).value, script, tail);
      }
    case Cons(Cond(open, arms), tail) =>
      hide PopCondition, TakesFirst;
      ConditionRead(ctx, st.stack, open);
      var o := EvalOpen(ctx, st, open, true);
      if o.Ok? {
        var (taken, st1) := o.value;
        ArmsAreMeaning(ctx, st1, script, arms, taken);
        var st2 := EvalArms(ctx, st1, arms, true, taken);
        if st2.Ok? {
          EvalIsMeaning(ctx, st2.value, script, tail);
        }
      }
  }

  lemma {:induction false} ArmsAreMeaning(ctx: Context, st: State, script: Bytes, a: Arms, taken: bool)
    requires WellFormedArms(a) && CleanArms(ctx, a) && WithinLimit(ctx, st)
    requires st.subscript == script && st.codesep == U32_MAX
    ensures Agrees(script, EvalArms(ctx, st, a, true, taken), MeaningArms(ctx, script, (st.stack, st.alt), a, taken))
    ensures EvalArms(ctx, st, a, true, taken).Ok? ==> WithinLimit(ctx, EvalArms(ctx, st, a, true, taken).value)
    decreases a
  {
    if taken {
      EvalIsMeaning(ctx, st, script, a.body);
    } else {
      SkippedBlock(ctx, st, a.body);
    }
    var st1 := EvalBlock(ctx, st, a.body, taken);
    if st1.Ok? && a.More? {
      ArmsAreMeaning(ctx, Tick(ctx, st1.value).value, script, a.rest, !taken);
    }
  }

  /** End to end: the flat machine on the bytes of a clean script computes the
      plain meaning of its nested form. */
  lemma ScriptIsMeaning(ctx: Context, script: Bytes, stack: Stack, b: Block)
    requires |script| <= ctx.maxScriptSize
    requires Locate(script, ctx.minimalPush).Ok?
    requires WellFormed(b) && Flatten(b) == Locate(script, ctx.minimalPush).value
    requires Clean(ctx, b)
    ensures RunScript(ctx, script, stack) ==
            var m := Meaning(ctx, script, (stack, []), b);
            if m.Err? then Err(m.error) else Ok(m.value.0)
  {
    ScriptIsNested(ctx, script, stack, b);
    EvalIsMeaning(ctx, InitialState(script, stack), script, b);
  }
}
