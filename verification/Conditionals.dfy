/** IF, ELSE and ENDIF at the bytes: which arm a script runs. */
module Conditionals {
  import opened Wrappers
  import opened ScriptNum
  import opened Opcodes
  import opened Script
  import opened Machine
  import opened Structured

  /** Bytes that parse to a clean nested program. */
  predicate IsArm(ctx: Context, data: Bytes, b: Block) {
    WellFormed(b) && Clean(ctx, b) && Locate(data, ctx.minimalPush) == Ok(Flatten(b))
  }

  function IfElseScript(open: Byte, first: Bytes, second: Bytes): Bytes {
    [open] + (first + ([OP_ELSE] + (second + [OP_ENDIF])))
  }

  // ---------- the same code in front of other bytes ----------

  function Move(li: Located, tail: Bytes): Located {
    Located(li.instr, li.rest + tail)
  }

  function MoveAll(lis: seq<Located>, tail: Bytes): seq<Located> {
    if lis == [] then [] else [Move(lis[0], tail)] + MoveAll(lis[1..], tail)
  }

  function Moved(b: Block, tail: Bytes): Block {
    match b
    case Nil => Nil
    case Cons(Plain(li), rest) => Cons(Plain(Move(li, tail)), Moved(rest, tail))
    case Cons(Cond(open, arms), rest) => Cons(Cond(Move(open, tail), MovedArms(arms, tail)), Moved(rest, tail))
  }

  function MovedArms(a: Arms, tail: Bytes): Arms {
    match a
    case Last(body, close) => Last(Moved(body, tail), Move(close, tail))
    case More(body, sep, rest) => More(Moved(body, tail), Move(sep, tail), MovedArms(rest, tail))
  }

  lemma {:induction false} MoveAllAppend(x: seq<Located>, y: seq<Located>, tail: Bytes)
    ensures MoveAll(x + y, tail) == MoveAll(x, tail) + MoveAll(y, tail)
    decreases |x|
  {
    if x == [] {
      assert x + y == y;
    } else {
      assert (x + y)[1..] == x[1..] + y;
      MoveAllAppend(x[1..], y, tail);
    }
  }

  lemma MoveOne(li: Located, tail: Bytes)
    ensures MoveAll([li], tail) == [Move(li, tail)]
  {
  }

  lemma {:induction false} MovedKeeps(ctx: Context, b: Block, tail: Bytes)
    requires WellFormed(b) && Clean(ctx, b)
    ensures WellFormed(Moved(b, tail)) && Clean(ctx, Moved(b, tail))
    ensures Flatten(Moved(b, tail)) == MoveAll(Flatten(b), tail)
    decreases b
  {
    hide Classify, CarriesData, CleanInstr;
    match b
    case Nil =>
    case Cons(Plain(li), rest) =>
      MovedKeeps(ctx, rest, tail);
      MoveAllAppend([li], Flatten(rest), tail);
      MoveOne(li, tail);
    case Cons(Cond(open, arms), rest) =>
      MovedArmsKeep(ctx, arms, tail);
      MovedKeeps(ctx, rest, tail);
      MoveAllAppend([open] + FlattenArms(arms), Flatten(rest), tail);
      MoveAllAppend([open], FlattenArms(arms), tail);
      MoveOne(open, tail);
  }

  lemma {:induction false} MovedArmsKeep(ctx: Context, a: Arms, tail: Bytes)
    requires WellFormedArms(a) && CleanArms(ctx, a)
    ensures WellFormedArms(MovedArms(a, tail)) && CleanArms(ctx, MovedArms(a, tail))
    ensures FlattenArms(MovedArms(a, tail)) == MoveAll(FlattenArms(a), tail)
    decreases a
  {
    hide Classify, CarriesData, CleanInstr;
    MovedKeeps(ctx, a.body, tail);
    match a
    case Last(body, close) =>
      MoveAllAppend(Flatten(body), [close], tail);
      MoveOne(close, tail);
    case More(body, sep, rest) =>
      MovedArmsKeep(ctx, rest, tail);
      MoveAllAppend(Flatten(body) + [sep], FlattenArms(rest), tail);
      MoveAllAppend(Flatten(body), [sep], tail);
      MoveOne(sep, tail);
  }

  lemma FieldAppend(data: Bytes, tail: Bytes, minimal: bool, push: PushData)
    requires data != [] && Classify(data[0]) == PushDataOp(push) && ParseOne(data, minimal).Item?
    ensures var Item(i, rest) := ParseOne(data, minimal);
            data + tail != [] && ParseOne(data + tail, minimal) == Item(i, rest + tail)
  {
    hide Classify, LittleEndian;
    var all, size := data + tail, push.SizeBytes();
    assert all[0] == data[0] && all[1..size + 1] == data[1..size + 1];
    var n, body := LittleEndian(data[1..size + 1]), data[size + 1..];
    assert all[size + 1..] == body + tail;
    assert (body + tail)[..n] == body[..n] && (body + tail)[n..] == body[n..] + tail;
  }

  lemma ParseOneAppend(data: Bytes, tail: Bytes, minimal: bool)
    requires data != [] && ParseOne(data, minimal).Item?
    ensures var Item(i, rest) := ParseOne(data, minimal);
            data + tail != [] && ParseOne(data + tail, minimal) == Item(i, rest + tail)
  {
    hide Classify, LittleEndian;
    var all := data + tail;
    assert all[0] == data[0];
    match Classify(data[0])
    case PushBytes(n) =>
      assert all[1..n + 1] == data[1..n + 1] && all[n + 1..] == data[n + 1..] + tail;
    case PushDataOp(push) =>
      FieldAppend(data, tail, minimal, push);
    case _ =>
      assert all[1..] == data[1..] + tail;
  }

  lemma LocateItem(data: Bytes, minimal: bool, i: Instr, rest: Bytes)
    requires data != [] && ParseOne(data, minimal) == Item(i, rest)
    ensures Locate(data, minimal).Ok? <==> Locate(rest, minimal).Ok?
    ensures Locate(data, minimal).Ok? ==>
              Locate(data, minimal).value == [Located(i, rest)] + Locate(rest, minimal).value
  {
    hide ParseOne;
  }

  lemma {:induction false} LocateAppend(data: Bytes, tail: Bytes, minimal: bool)
    requires Locate(data, minimal).Ok? && Locate(tail, minimal).Ok?
    ensures Locate(data + tail, minimal) ==
            Ok(MoveAll(Locate(data, minimal).value, tail) + Locate(tail, minimal).value)
    decreases |data|
  {
    hide ParseOne;
    if data == [] {
      assert data + tail == tail;
      assert [] + Locate(tail, minimal).value == Locate(tail, minimal).value;
    } else {
      ParseOneAppend(data, tail, minimal);
      var Item(i, rest) := ParseOne(data, minimal);
      LocateItem(data, minimal, i, rest);
      LocateItem(data + tail, minimal, i, rest + tail);
      hide Locate;
      LocateAppend(rest, tail, minimal);
      var lis, after := Locate(rest, minimal).value, Locate(tail, minimal).value;
      MoveAllAppend([Located(i, rest)], lis, tail);
      MoveOne(Located(i, rest), tail);
      var head := [Move(Located(i, rest), tail)];
      assert head + (MoveAll(lis, tail) + after) == (head + MoveAll(lis, tail)) + after;
    }
  }

  lemma LocateFlow(code: Byte, tail: Bytes, minimal: bool)
    requires code in {OP_IF, OP_NOTIF, OP_ELSE, OP_ENDIF} && Locate(tail, minimal).Ok?
    ensures Locate([code] + tail, minimal) == Ok([Located(Op(code), tail)] + Locate(tail, minimal).value)
  {
    hide Classify;
    ClassesByByte(code);
    assert ([code] + tail)[1..] == tail;
  }

  // ---------- meaning does not look at the bytes around ----------

  predicate Unsigned(b: Block) {
    match b
    case Nil => true
    case Cons(Plain(li), tail) => !IsSignature(li.instr) && Unsigned(tail)
    case Cons(Cond(_, arms), tail) => UnsignedArms(arms) && Unsigned(tail)
  }

  predicate UnsignedArms(a: Arms) {
    Unsigned(a.body) && (a.More? ==> UnsignedArms(a.rest))
  }

  predicate IsSignature(i: Instr) {
    i.Op? && 0xac <= i.code <= 0xaf
  }

  lemma PlainMoved(ctx: Context, st: State, st': State, li: Located, tail: Bytes)
    requires IsPlain(li) && CleanInstr(ctx, li.instr)
    requires st.stack == st'.stack && st.alt == st'.alt
    requires (st.subscript, st.codesep) == (st'.subscript, st'.codesep) || !IsSignature(li.instr)
    ensures IsPlain(Move(li, tail))
    ensures var r, q := ExecPlain(ctx, st, li, true), ExecPlain(ctx, st', Move(li, tail), true);
            if r.Err? then q == Err(r.error)
            else q.Ok? && q.value.stack == r.value.stack && q.value.alt == r.value.alt
  {
    hide Classify, Execute, Encode, ReadScriptIntSize, ExecuteSignature;
    if li.instr.Op? { ClassesByByte(li.instr.code); }
  }

  lemma {:induction false} MeaningMoved(ctx: Context, script: Bytes, script': Bytes, s: Stacks, b: Block, tail: Bytes)
    requires WellFormed(b) && Clean(ctx, b) && (script == script' || Unsigned(b))
    ensures WellFormed(Moved(b, tail))
    ensures Meaning(ctx, script', s, Moved(b, tail)) == Meaning(ctx, script, s, b)
    decreases b
  {
    hide ExecPlain, Classify, CarriesData, CleanInstr, TakesFirst, IsSignature;
    MovedKeeps(ctx, b, tail);
    match b
    case Nil =>
    case Cons(Plain(li), rest) =>
      var st, st' := State(s.0, s.1, script, U32_MAX, 0), State(s.0, s.1, script', U32_MAX, 0);
      PlainMoved(ctx, st, st', li, tail);
      var r := ExecPlain(ctx, st, li, true);
      if r.Ok? { MeaningMoved(ctx, script, script', (r.value.stack, r.value.alt), rest, tail); }
    case Cons(Cond(open, arms), rest) =>
      if s.0 != [] {
        var c, below := s.0[|s.0| - 1], s.0[..|s.0| - 1];
        var taken := TakesFirst(open.instr, c);
        ArmsMoved(ctx, script, script', (below, s.1), arms, taken, tail);
        var s2 := MeaningArms(ctx, script, (below, s.1), arms, taken);
        if s2.Ok? { MeaningMoved(ctx, script, script', s2.value, rest, tail); }
      }
  }

  lemma {:induction false} ArmsMoved(
    ctx: Context, script: Bytes, script': Bytes, s: Stacks, a: Arms, taken: bool, tail: Bytes)
    requires WellFormedArms(a) && CleanArms(ctx, a) && (script == script' || UnsignedArms(a))
    ensures WellFormedArms(MovedArms(a, tail))
    ensures MeaningArms(ctx, script', s, MovedArms(a, tail), taken) == MeaningArms(ctx, script, s, a, taken)
    decreases a
  {
    hide ExecPlain, Classify, CarriesData, CleanInstr;
    MovedArmsKeep(ctx, a, tail);
    MeaningMoved(ctx, script, script', s, a.body, tail);
    if a.More? {
      var s' := if taken then Meaning(ctx, script, s, a.body) else Ok(s);
      if s'.Ok? { ArmsMoved(ctx, script, script', s'.value, a.rest, !taken, tail); }
    }
  }

  // ---------- which arm runs ----------

  /** The nested form of a conditional with two arms. */
  function IfElseForm(open: Byte, first: Bytes, a: Block, second: Bytes, b: Block): Block {
    var end: Bytes := [OP_ENDIF];
    var rest := [OP_ELSE] + (second + end);
    Cons(Cond(Located(Op(open), first + rest),
              More(Moved(a, rest), Located(Op(OP_ELSE), second + end),
                   Last(Moved(b, end), Located(Op(OP_ENDIF), [])))), Nil)
  }

  lemma IfElseClean(ctx: Context, open: Byte, first: Bytes, a: Block, second: Bytes, b: Block)
    requires open in {OP_IF, OP_NOTIF} && IsArm(ctx, first, a) && IsArm(ctx, second, b)
    ensures var whole := IfElseForm(open, first, a, second, b);
            && WellFormed(whole) && Clean(ctx, whole)
            && var arms := whole.head.arms;
               && WellFormed(arms.body) && IsFlow(arms.sep, Else)
               && WellFormed(arms.rest.body) && IsFlow(arms.rest.close, EndIf)
  {
    hide Classify, CleanInstr, CarriesData, IsFlow, Flatten, Locate;
    var end: Bytes := [OP_ENDIF];
    var arms := IfElseForm(open, first, a, second, b).head.arms;
    MovedKeeps(ctx, a, [OP_ELSE] + (second + end));
    MovedKeeps(ctx, b, end);
    FlowBytes(IfElseForm(open, first, a, second, b).head.open);
    FlowBytes(arms.sep);
    FlowBytes(arms.rest.close);
    assert WellFormedArms(arms.rest) && CleanArms(ctx, arms.rest);
    assert WellFormedArms(arms) && CleanArms(ctx, arms);
  }

  lemma IfElseLocated(ctx: Context, open: Byte, first: Bytes, a: Block, second: Bytes, b: Block)
    requires open in {OP_IF, OP_NOTIF} && IsArm(ctx, first, a) && IsArm(ctx, second, b)
    ensures Locate(IfElseScript(open, first, second), ctx.minimalPush) ==
            Ok(Flatten(IfElseForm(open, first, a, second, b)))
  {
    hide Classify, ParseOne, CleanInstr, CarriesData, IsFlow, MoveAll, WellFormed, Clean;
    var m := ctx.minimalPush;
    var end: Bytes := [OP_ENDIF];
    var rest := [OP_ELSE] + (second + end);
    var whole := IfElseForm(open, first, a, second, b);
    var open', arms := whole.head.open, whole.head.arms;
    var sep, last, close := arms.sep, arms.rest, arms.rest.close;
    MovedKeeps(ctx, a, rest);
    MovedKeeps(ctx, b, end);
    assert end == [OP_ENDIF] + [];
    LocateFlow(OP_ENDIF, [], m);
    assert Locate(end, m) == Ok([close]) by {
      assert Locate([], m) == Ok([]) && [close] + [] == [close];
    }
    hide Locate;
    LocateAppend(second, end, m);
    LocateFlow(OP_ELSE, second + end, m);
    LocateAppend(first, rest, m);
    LocateFlow(open, first + rest, m);
    var fa, fb := Flatten(Moved(a, rest)), Flatten(Moved(b, end));
    assert Locate(IfElseScript(open, first, second), m) == Ok([open'] + (fa + ([sep] + (fb + [close]))));
    FlattenCond(open', arms, Nil, []);
    FlattenArm(arms, []);
    FlattenArm(last, []);
    assert FlattenArms(last) + [] == FlattenArms(last) == fb + [close];
    assert FlattenArms(arms) + [] == FlattenArms(arms) == fa + ([sep] + (fb + [close]));
    assert Flatten(whole) + [] == Flatten(whole) == [open'] + (fa + ([sep] + (fb + [close])));
  }

  /** Of two arms the taken one counts. */
  lemma TwoArms(ctx: Context, script: Bytes, s: Stacks, x: Block, sep: Located, y: Block, close: Located, taken: bool)
    requires WellFormed(x) && WellFormed(y) && IsFlow(sep, Else) && IsFlow(close, EndIf)
    ensures MeaningArms(ctx, script, s, More(x, sep, Last(y, close)), taken) ==
            Meaning(ctx, script, s, if taken then x else y)
  {
    hide Meaning, IsFlow;
    var last := Last(y, close);
    assert WellFormedArms(last);
    if taken {
      var m := Meaning(ctx, script, s, x);
      if m.Ok? { assert MeaningArms(ctx, script, m.value, last, false) == Ok(m.value); }
    } else {
      assert MeaningArms(ctx, script, s, last, true) == Meaning(ctx, script, s, y);
    }
  }

  /** A conditional with two clean arms runs the first arm and nothing else when
      its condition is a number other than zero, and the second when it is
      zero; with NOTIF the other way round. */
  lemma IfElseTakes(
    ctx: Context, open: Byte, first: Bytes, a: Block, second: Bytes, b: Block, s: Stack, c: Bytes)
    requires open in {OP_IF, OP_NOTIF} && IsArm(ctx, first, a) && IsArm(ctx, second, b)
    requires |IfElseScript(open, first, second)| <= ctx.maxScriptSize && |s| <= ctx.maxStackElements
    requires ctx.minimalIf ==> c == [] || c == [1]
    ensures var script := IfElseScript(open, first, second);
            var m := Meaning(ctx, script, (s, []), if (Decode(c) != 0) == (open == OP_IF) then a else b);
            RunScript(ctx, script, s + [c]) == if m.Err? then Err(m.error) else Ok(m.value.0)
  {
    hide Classify, ParseOne, CleanInstr, CarriesData, ExecPlain, RunBytes, IsFlow;
    var script := IfElseScript(open, first, second);
    var whole := IfElseForm(open, first, a, second, b);
    IfElseClean(ctx, open, first, a, second, b);
    IfElseLocated(ctx, open, first, a, second, b);
    hide Flatten, Locate, Clean;
    ScriptIsMeaning(ctx, script, s + [c], whole);
    hide RunScript;
    var end: Bytes := [OP_ENDIF];
    var rest := [OP_ELSE] + (second + end);
    MeaningMoved(ctx, script, script, (s, []), a, rest);
    MeaningMoved(ctx, script, script, (s, []), b, end);
    assert (s + [c])[..|s|] == s && (s + [c])[|s|] == c;
    var arms := whole.head.arms;
    var taken := TakesFirst(Op(open), c);
    TwoArms(ctx, script, (s, []), arms.body, arms.sep, arms.rest.body, arms.rest.close, taken);
    var m := MeaningArms(ctx, script, (s, []), arms, taken);
    if m.Ok? { assert Meaning(ctx, script, m.value, Nil) == Ok(m.value); }
  }

  /** So for arms without signature opcodes, the conditional gives exactly what
      the arm its condition takes gives as a script of its own. */
  lemma IfElseRuns(
    ctx: Context, open: Byte, first: Bytes, a: Block, second: Bytes, b: Block, s: Stack, c: Bytes)
    requires open in {OP_IF, OP_NOTIF} && IsArm(ctx, first, a) && IsArm(ctx, second, b)
    requires Unsigned(a) && Unsigned(b)
    requires |IfElseScript(open, first, second)| <= ctx.maxScriptSize && |s| <= ctx.maxStackElements
    requires ctx.minimalIf ==> c == [] || c == [1]
    ensures RunScript(ctx, IfElseScript(open, first, second), s + [c]) ==
            RunScript(ctx, if (Decode(c) != 0) == (open == OP_IF) then first else second, s)
  {
    hide Classify, ParseOne, CleanInstr, CarriesData, ExecPlain, RunBytes, RunScript, Locate;
    var script := IfElseScript(open, first, second);
    IfElseTakes(ctx, open, first, a, second, b, s, c);
    MeaningMoved(ctx, script, first, (s, []), a, []);
    MeaningMoved(ctx, first, first, (s, []), a, []);
    MeaningMoved(ctx, script, second, (s, []), b, []);
    MeaningMoved(ctx, second, second, (s, []), b, []);
    ScriptIsMeaning(ctx, first, s, a);
    ScriptIsMeaning(ctx, second, s, b);
  }
}
