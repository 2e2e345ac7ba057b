/** The byte-level parser and the script builder (script/src/script.rs). */
module Script {
  import opened Wrappers
  import opened ScriptNum
  import opened Opcodes

  /** A parsed instruction: pushed data, or an opcode that stands alone. */
  datatype Instr = Push(data: Bytes) | Op(code: Byte)

  datatype Parsed = Item(instr: Instr, rest: Bytes) | Bad(error: ScriptError)

  // ---------- parsing ----------

  /** One step of the instruction iterator on non-empty input. */
  function ParseOne(data: Bytes, minimal: bool): (r: Parsed)
    requires data != []
    ensures r.Item? ==> |r.rest| < |data|
    ensures r.Item? && r.instr.Op? ==> !CarriesData(r.instr.code)
    ensures r.Bad? ==> r.error in {EarlyEndOfScript, NonMinimalPush}
  {
    match Classify(data[0])
    case PushBytes(n) =>
      if |data| < n + 1 then Bad(EarlyEndOfScript)
      else if minimal && n == 1 && (data[1] == 0x81 || 0 < data[1] <= 16) then Bad(NonMinimalPush)
      else Item(Push(data[1..n + 1]), data[n + 1..])
    case PushDataOp(push) =>
      var size := push.SizeBytes();
      if |data| < size + 1 then Bad(EarlyEndOfScript)
      else
        var n := LittleEndian(data[1..size + 1]);
        var body := data[size + 1..];
        if |body| < n then Bad(EarlyEndOfScript)
        else if minimal && n < push.SizeMin() then Bad(NonMinimalPush)
        else Item(Push(body[..n]), body[n..])
    case _ =>
      Item(Op(data[0]), data[1..])
  }

  function ParseAll(data: Bytes, minimal: bool): Result<seq<Instr>, ScriptError>
    decreases |data|
  {
    if data == [] then Ok([])
    else match ParseOne(data, minimal)
      case Bad(e) => Err(e)
      case Item(instr, rest) =>
        var others :- ParseAll(rest, minimal);
        Ok([instr] + others)
  }

  /** The iterator over a script; an error ends the iteration. */
  class Instructions {
    var data: Bytes
    const minimal: bool

    constructor (data: Bytes, minimal: bool)
      ensures this.data == data && this.minimal == minimal
    {
      this.data := data;
      this.minimal := minimal;
    }

    method Next() returns (r: Option<Result<Instr, ScriptError>>)
      modifies this`data
      ensures old(data) == [] ==> r == None && data == []
      ensures old(data) != [] ==>
                match ParseOne(old(data), minimal)
                case Item(instr, rest) => r == Some(Ok(instr)) && data == rest
                case Bad(e) => r == Some(Err(e)) && data == []
    {
      if data == [] {
        return None;
      }
      match Classify(data[0]) {
        case PushBytes(n) =>
          if |data| < n + 1 {
            data := [];
            return Some(Err(EarlyEndOfScript));
          }
          if minimal && n == 1 && (data[1] == 0x81 || (data[1] > 0 && data[1] <= 16)) {
            data := [];
            return Some(Err(NonMinimalPush));
          }
          r := Some(Ok(Push(data[1..n + 1])));
          data := data[n + 1..];
        case PushDataOp(push) =>
          var size := push.SizeBytes();
          if |data| < size + 1 {
            data := [];
            return Some(Err(EarlyEndOfScript));
          }
          var n := ReadUint(data[1..], size);
          assert data[1..][..size] == data[1..size + 1];
          var body := data[size + 1..];
          if |body| < n.value {
            data := [];
            return Some(Err(EarlyEndOfScript));
          }
          if minimal && n.value < push.SizeMin() {
            data := [];
            return Some(Err(NonMinimalPush));
          }
          data := body[n.value..];
          r := Some(Ok(Push(body[..n.value])));
        case _ =>
          r := Some(Ok(Op(data[0])));
          data := data[1..];
      }
    }
  }

  // ---------- printing ----------

  const MAX_PUSH: nat := 0x1_0000_0000

  /** The opcode and length field in front of pushed data. */
  function PushHeader(n: nat): Bytes
    requires n < MAX_PUSH
  {
    if n < OP_PUSHDATA1 then [n]
    else if n < 0x100 then [OP_PUSHDATA1, n]
    else if n < 0x1_0000 then [OP_PUSHDATA2, n % 0x100, n / 0x100]
    else [OP_PUSHDATA4, n % 0x100, (n / 0x100) % 0x100, (n / 0x1_0000) % 0x100, n / 0x100_0000]
  }

  function EncodePush(data: Bytes): Bytes
    requires |data| < MAX_PUSH
  {
    PushHeader(|data|) + data
  }

  predicate Printable(i: Instr) {
    match i
    case Push(data) => |data| < MAX_PUSH
    case Op(code) => !CarriesData(code)
  }

  /** Data that has no shorter opcode of its own. */
  predicate MinimalData(data: Bytes) {
    !(|data| == 1 && (data[0] == 0x81 || 1 <= data[0] <= 16))
  }

  predicate Minimal(i: Instr) {
    Printable(i) && (i.Push? ==> MinimalData(i.data))
  }

  function EncodeInstr(i: Instr): Bytes
    requires Printable(i)
  {
    match i
    case Push(data) => EncodePush(data)
    case Op(code) => [code]
  }

  predicate AllPrintable(instrs: seq<Instr>) {
    forall i :: 0 <= i < |instrs| ==> Printable(instrs[i])
  }

  predicate AllMinimal(instrs: seq<Instr>) {
    forall i :: 0 <= i < |instrs| ==> Minimal(instrs[i])
  }

  function EncodeAll(instrs: seq<Instr>): Bytes
    requires AllPrintable(instrs)
  {
    if instrs == [] then [] else EncodeInstr(instrs[0]) + EncodeAll(instrs[1..])
  }

  /** Four base-256 digits determine, and are determined by, their number. */
  lemma Digits(n: nat, a: Byte, b: Byte, c: Byte, d: nat)
    ensures n == a + 256 * (b + 256 * (c + 256 * d)) <==>
            a == n % 0x100 && b == (n / 0x100) % 0x100 && c == (n / 0x1_0000) % 0x100 && d == n / 0x100_0000
  {
    var n1 := n / 0x100;
    var n2 := n1 / 0x100;
    assert n2 == n / 0x1_0000;
    assert n2 / 0x100 == n / 0x100_0000;
  }

  lemma LittleEndian1(a: Byte)
    ensures LittleEndian([a]) == a
  {
    assert [a][1..] == [];
  }

  lemma LittleEndian2(a: Byte, b: Byte)
    ensures LittleEndian([a, b]) == a + 256 * b
  {
    assert [a, b][1..] == [b];
    LittleEndian1(b);
  }

  lemma LittleEndian4(a: Byte, b: Byte, c: Byte, d: Byte)
    ensures LittleEndian([a, b, c, d]) == a + 256 * (b + 256 * (c + 256 * d))
  {
    assert [a, b, c, d][1..] == [b, c, d] && [b, c, d][1..] == [c, d];
    LittleEndian2(c, d);
  }

  /** The length field of a header reads back as the length. */
  lemma HeaderField(n: nat)
    requires OP_PUSHDATA1 <= n < MAX_PUSH
    ensures LittleEndian(PushHeader(n)[1..]) == n
  {
    var h := PushHeader(n);
    if n < 0x100 {
      assert h[1..] == [n];
      LittleEndian1(n);
    } else if n < 0x1_0000 {
      assert h[1..] == [n % 0x100, n / 0x100];
      LittleEndian2(n % 0x100, n / 0x100);
    } else {
      assert h[1..] == [h[1], h[2], h[3], h[4]];
      LittleEndian4(h[1], h[2], h[3], h[4]);
      Digits(n, h[1], h[2], h[3], h[4]);
    }
  }

  lemma ParsePrintedPush(data: Bytes, tail: Bytes, minimal: bool)
    requires |data| < MAX_PUSH && (minimal ==> MinimalData(data))
    ensures ParseOne(EncodePush(data) + tail, minimal) == Item(Push(data), tail)
  {
    hide LittleEndian;
    var n := |data|;
    var head, body := PushHeader(n), data + tail;
    var all := EncodePush(data) + tail;
    assert all == head + body;
    assert all[|head|..] == body && all[1..|head|] == head[1..];
    assert body[..n] == data && body[n..] == tail;
    if n < OP_PUSHDATA1 {
      assert all[1..n + 1] == body[..n] && all[n + 1..] == body[n..];
    } else {
      HeaderField(n);
    }
  }

  /** Printing an instruction and parsing it back, whatever follows. */
  lemma ParsePrinted(i: Instr, tail: Bytes, minimal: bool)
    requires if minimal then Minimal(i) else Printable(i)
    ensures ParseOne(EncodeInstr(i) + tail, minimal) == Item(i, tail)
  {
    match i
    case Op(code) =>
      assert (EncodeInstr(i) + tail)[1..] == tail;
    case Push(data) =>
      ParsePrintedPush(data, tail, minimal);
  }

  /** What parses under the minimality rule prints back to the same bytes. */
  lemma PrintParsed(data: Bytes)
    requires data != [] && ParseOne(data, true).Item?
    ensures var Item(i, rest) := ParseOne(data, true);
            Minimal(i) && data == EncodeInstr(i) + rest
  {
    var Item(i, rest) := ParseOne(data, true);
    match Classify(data[0])
    case PushBytes(n) =>
      assert data == [data[0]] + data[1..n + 1] + data[n + 1..];
    case PushDataOp(push) =>
      PrintParsedField(data, push);
    case _ =>
      assert data == [data[0]] + data[1..];
  }

  lemma PrintParsedField(data: Bytes, push: PushData)
    requires data != [] && Classify(data[0]) == PushDataOp(push)
    requires ParseOne(data, true).Item?
    ensures var Item(i, rest) := ParseOne(data, true);
            Minimal(i) && data == EncodeInstr(i) + rest
  {
    hide LittleEndian;
    var size := push.SizeBytes();
    var field, body := data[1..size + 1], data[size + 1..];
    var n := LittleEndian(field);
    assert ParseOne(data, true) == Item(Push(body[..n]), body[n..]);
    FieldHeader(push, field);
    assert PushHeader(n) == [data[0]] + field;
    assert EncodePush(body[..n]) + body[n..] == [data[0]] + field + body;
  }

  /** A minimal length field is the one the printer would write. */
  lemma FieldHeader(push: PushData, f: Bytes)
    requires |f| == push.SizeBytes()
    ensures var n := LittleEndian(f);
            && n < MAX_PUSH
            && (n >= push.SizeMin() ==>
                  PushHeader(n) == [match push case PushData1 => OP_PUSHDATA1
                                               case PushData2 => OP_PUSHDATA2
                                               case PushData4 => OP_PUSHDATA4] + f)
  {
    hide LittleEndian;
    match push
    case PushData1 =>
      assert f == [f[0]];
      LittleEndian1(f[0]);
    case PushData2 =>
      assert f == [f[0], f[1]];
      LittleEndian2(f[0], f[1]);
    case PushData4 =>
      assert f == [f[0], f[1], f[2], f[3]];
      LittleEndian4(f[0], f[1], f[2], f[3]);
      Digits(LittleEndian(f), f[0], f[1], f[2], f[3]);
  }

  /** Scripts printed from instructions parse to those instructions. */
  lemma {:induction false} ParseAllPrinted(instrs: seq<Instr>, minimal: bool)
    requires if minimal then AllMinimal(instrs) else AllPrintable(instrs)
    ensures AllPrintable(instrs)
    ensures ParseAll(EncodeAll(instrs), minimal) == Ok(instrs)
    decreases |instrs|
  {
    hide ParseOne, EncodePush, Classify;
    if instrs == [] {
    } else {
      ParseAllPrinted(instrs[1..], minimal);
      ParsePrinted(instrs[0], EncodeAll(instrs[1..]), minimal);
      PrintedSomething(instrs[0]);
      assert instrs == [instrs[0]] + instrs[1..];
    }
  }

  lemma PrintedSomething(i: Instr)
    requires Printable(i)
    ensures EncodeInstr(i) != []
  {
  }

  /** Every byte string that parses under the minimality rule is the printed
      form of what it parses to, byte for byte. */
  lemma {:induction false} PrintAllParsed(data: Bytes)
    requires ParseAll(data, true).Ok?
    ensures AllMinimal(ParseAll(data, true).value)
    ensures EncodeAll(ParseAll(data, true).value) == data
    decreases |data|
  {
    if data == [] {
    } else {
      PrintParsed(data);
      var Item(i, rest) := ParseOne(data, true);
      PrintAllParsed(rest);
      var others := ParseAll(rest, true).value;
      var all := ParseAll(data, true).value;
      assert all == [i] + others && all[1..] == others;
    }
  }

  // ---------- the builder ----------

  /** What the builder's pushes stand for. */
  function IntInstr(n: int): Instr {
    if n == -1 || 1 <= n <= 16 then Op(n - 1 + OP_TRUE)
    else if n == 0 then Push([])
    else Push(Encode(n))
  }

  function SliceInstr(data: Bytes): Instr {
    if data == [129] then IntInstr(-1)
    else if |data| == 1 && 1 <= data[0] <= 16 then IntInstr(data[0])
    else Push(data)
  }

  lemma IntInstrMinimal(n: int)
    requires FitsI64(n)
    ensures Minimal(IntInstr(n))
  {
    if n != 0 {
      var a := if n < 0 then -n else n;
      EncodedLength(a, n < 0, 9);
      Pow256Values();
      assert Pow256(8) == 256 * Pow256(7);
      if |Encode(n)| == 1 {
        DecodeEncode(n);
      }
    }
  }

  /** The number an instruction pushes survives the choice of opcode. */
  lemma IntInstrPushes(n: int)
    ensures match IntInstr(n)
            case Push(data) => data == Encode(n)
            case Op(code) => Classify(code) == PushNum(n)
  {
  }

  /** A minimal slice pushes exactly its data. */
  lemma SliceInstrPushes(data: Bytes)
    ensures match SliceInstr(data)
            case Push(d) => d == data
            case Op(code) => exists n :: Classify(code) == PushNum(n) && Encode(n) == data
  {
    hide Classify;
    if data == [129] {
      IntInstrPushes(-1);
    } else if |data| == 1 && 1 <= data[0] <= 16 {
      IntInstrPushes(data[0]);
      assert Encode(data[0]) == [data[0]] == data;
    }
  }

  // ---------- every form of a push ----------

  /** A direct push of up to 75 bytes parses whatever it holds; with minimal
      pushes enforced, one byte that has an opcode of its own is refused. */
  lemma ParseDirectPush(data: Bytes, tail: Bytes, minimal: bool)
    requires |data| <= 75
    ensures ParseOne([|data|] + data + tail, minimal) ==
            if minimal && |data| == 1 && (data[0] == 0x81 || 1 <= data[0] <= 16) then Bad(NonMinimalPush)
            else Item(Push(data), tail)
  {
    var n := |data|;
    var all := [n] + data + tail;
    assert all[0] == n && all[1..n + 1] == data && all[n + 1..] == tail;
  }

  /** A push with a length field parses whatever its length; with minimal pushes
      enforced, a length that a shorter field could hold is refused. */
  lemma ParseFieldPush(push: PushData, field: Bytes, data: Bytes, tail: Bytes, minimal: bool)
    requires |field| == push.SizeBytes() && LittleEndian(field) == |data|
    ensures var code := match push
              case PushData1 => OP_PUSHDATA1
              case PushData2 => OP_PUSHDATA2
              case PushData4 => OP_PUSHDATA4;
            var least := match push case PushData1 => 76 case PushData2 => 256 case PushData4 => 65536;
            ParseOne([code] + field + data + tail, minimal) ==
            if minimal && |data| < least then Bad(NonMinimalPush) else Item(Push(data), tail)
  {
    hide LittleEndian;
    var code := match push case PushData1 => OP_PUSHDATA1 case PushData2 => OP_PUSHDATA2 case PushData4 => OP_PUSHDATA4;
    var size := |field|;
    var all := [code] + field + data + tail;
    assert all[0] == code && all[1..size + 1] == field && all[size + 1..] == data + tail;
    assert (data + tail)[..|data|] == data && (data + tail)[|data|..] == tail;
    FieldCode(push);
  }

  lemma FieldCode(push: PushData)
    ensures Classify(match push
                     case PushData1 => OP_PUSHDATA1 case PushData2 => OP_PUSHDATA2 case PushData4 => OP_PUSHDATA4)
            == PushDataOp(push)
  {
  }

  /** A push that the script breaks off is refused, whatever the mode. */
  lemma ParseBrokenPush(data: Bytes, minimal: bool)
    requires data != []
    ensures 1 <= data[0] <= 75 && |data| < data[0] + 1 ==> ParseOne(data, minimal) == Bad(EarlyEndOfScript)
    ensures forall push :: Classify(data[0]) == PushDataOp(push) ==>
              var size := push.SizeBytes();
              && (|data| < size + 1 ==> ParseOne(data, minimal) == Bad(EarlyEndOfScript))
              && (|data| >= size + 1 && |data| - size - 1 < LittleEndian(data[1..size + 1]) ==>
                    ParseOne(data, minimal) == Bad(EarlyEndOfScript))
  {
  }

  lemma {:induction false} EncodeAllAppend(a: seq<Instr>, b: seq<Instr>)
    requires AllPrintable(a) && AllPrintable(b)
    ensures AllPrintable(a + b)
    ensures EncodeAll(a + b) == EncodeAll(a) + EncodeAll(b)
    decreases |a|
  {
    if a == [] {
      assert a + b == b;
    } else {
      assert (a + b)[1..] == a[1..] + b;
      EncodeAllAppend(a[1..], b);
    }
  }

  lemma EncodeAllSnoc(a: seq<Instr>, i: Instr)
    requires AllPrintable(a) && Printable(i)
    ensures AllPrintable(a + [i])
    ensures EncodeAll(a + [i]) == EncodeAll(a) + EncodeInstr(i)
  {
    EncodeAllAppend(a, [i]);
    assert [i][1..] == [];
    assert EncodeAll([i]) == EncodeInstr(i) + [];
  }

  /** The opcode that checks and drops the result of `code`, if there is one. */
  function VerifyForm(code: Byte): Option<Byte> {
    if code == OP_EQUAL then Some(OP_EQUALVERIFY)
    else if code == OP_NUMEQUAL then Some(OP_NUMEQUALVERIFY)
    else if code == OP_CHECKSIG then Some(OP_CHECKSIGVERIFY)
    else if code == OP_CHECKMULTISIG then Some(OP_CHECKMULTISIGVERIFY)
    else None
  }

  /** Appending a verification: the last opcode is replaced by its verifying
      form when it has one. */
  function Fused(instrs: seq<Instr>): seq<Instr> {
    if instrs == [] then [Op(OP_VERIFY)]
    else
      var last := instrs[|instrs| - 1];
      if last.Op? && VerifyForm(last.code).Some? then instrs[..|instrs| - 1] + [Op(VerifyForm(last.code).value)]
      else instrs + [Op(OP_VERIFY)]
  }

  class Builder {
    var bytes: Bytes
    var last: Option<Byte>
    ghost var instrs: seq<Instr>  // what has been built so far

    /** The bytes are the printed instructions, and a remembered opcode with a
        verifying form is exactly the last instruction. */
    ghost predicate Valid()
      reads this
    {
      && AllPrintable(instrs)
      && bytes == EncodeAll(instrs)
      && (last.Some? && VerifyForm(last.value).Some? ==>
            instrs != [] && instrs[|instrs| - 1] == Op(last.value))
      && (instrs != [] && instrs[|instrs| - 1].Op? ==> last == Some(instrs[|instrs| - 1].code))
    }

    constructor ()
      ensures Valid() && instrs == [] && bytes == []
    {
      bytes := [];
      last := None;
      instrs := [];
    }

    /** Any byte may be given; opcodes that announce data are not instructions
        on their own. */
    method PushOpcode(code: Byte)
      modifies this
      ensures bytes == old(bytes) + [code] && last == Some(code)
      ensures old(Valid()) && !CarriesData(code) ==> Valid() && instrs == old(instrs) + [Op(code)]
      ensures old(Valid()) && code == 0 ==> Valid() && instrs == old(instrs) + [Push([])]
    {
      ghost var i := if code == 0 then Push([]) else Op(code);
      if Valid() && Printable(i) {
        EncodeAllSnoc(instrs, i);
        instrs := instrs + [i];
      }
      bytes := bytes + [code];
      last := Some(code);
    }

    method PushSlice(data: Bytes)
      requires Valid() && |data| < MAX_PUSH
      modifies this
      ensures Valid() && instrs == old(instrs) + [Push(data)]
    {
      EncodeAllSnoc(instrs, Push(data));
      var n := |data|;
      var header: Bytes;
      if n < OP_PUSHDATA1 {
        header := [n];
      } else if n < 0x100 {
        header := [OP_PUSHDATA1, n];
      } else if n < 0x1_0000 {
        header := [OP_PUSHDATA2, n % 0x100, n / 0x100];
      } else {
        header := [OP_PUSHDATA4, n % 0x100, (n / 0x100) % 0x100, (n / 0x1_0000) % 0x100, n / 0x100_0000];
      }
      assert header == PushHeader(n);
      bytes := bytes + (header + data);
      last := None;
      instrs := instrs + [Push(data)];
    }

    method PushInt(n: int)
      requires Valid() && FitsI64(n) && n != -TWO_63
      modifies this
      ensures Valid() && instrs == old(instrs) + [IntInstr(n)]
    {
      IntInstrMinimal(n);
      if n == -1 || 1 <= n <= 16 {
        PushOpcode(n - 1 + OP_TRUE);
      } else if n == 0 {
        PushOpcode(0);
      } else {
        var v := BuildScriptInt(n);
        PushSlice(v);
      }
    }

    method PushSliceMinimal(data: Bytes)
      requires Valid() && |data| < MAX_PUSH
      modifies this
      ensures Valid() && instrs == old(instrs) + [SliceInstr(data)]
    {
      if data == [129] {
        PushInt(-1);
      } else if |data| == 1 && 1 <= data[0] <= 16 {
        PushInt(data[0]);
      } else {
        PushSlice(data);
      }
    }

    /** Only an opcode is ever replaced: pushed data stays as it is. */
    method PushVerify()
      requires Valid()
      modifies this
      ensures Valid() && instrs == Fused(old(instrs))
    {
      if last.Some? && VerifyForm(last.value).Some? {
        var code := last.value;
        ghost var front := instrs[..|instrs| - 1];
        assert instrs == front + [Op(code)];
        EncodeAllSnoc(front, Op(code));
        bytes := bytes[..|bytes| - 1];
        assert bytes == EncodeAll(front);
        EncodeAllSnoc(front, Op(VerifyForm(code).value));
        bytes := bytes + [VerifyForm(code).value];
        last := VerifyForm(code);
        instrs := front + [Op(VerifyForm(code).value)];
      } else {
        PushOpcode(OP_VERIFY);
      }
    }
  }

  /** A pubkey-hash lock, built call by call. */
  method NewP2pkh(hash: Bytes) returns (script: Bytes)
    requires |hash| < MAX_PUSH
    ensures AllPrintable(P2pkhInstrs(hash))
    ensures script == EncodeAll(P2pkhInstrs(hash))
  {
    var b := new Builder();
    b.PushOpcode(OP_DUP);
    b.PushOpcode(OP_HASH160);
    b.PushSlice(hash);
    b.PushOpcode(OP_EQUALVERIFY);
    b.PushOpcode(OP_CHECKSIG);
    assert b.instrs == P2pkhInstrs(hash);
    script := b.bytes;
  }

  function P2pkhInstrs(hash: Bytes): seq<Instr> {
    [Op(OP_DUP), Op(OP_HASH160), Push(hash), Op(OP_EQUALVERIFY), Op(OP_CHECKSIG)]
  }

  /** One call on a builder that only makes minimal instructions. */
  datatype Piece = MinimalSlice(data: Bytes) | Int(n: int) | Opcode(code: Byte) {
    predicate Buildable() {
      match this
      case MinimalSlice(data) => |data| < MAX_PUSH
      case Int(n) => FitsI64(n) && n != -TWO_63
      case Opcode(code) => !CarriesData(code)
    }

    function Instruction(): Instr {
      match this
      case MinimalSlice(data) => SliceInstr(data)
      case Int(n) => IntInstr(n)
      case Opcode(code) => Op(code)
    }
  }

  lemma PieceMinimal(p: Piece)
    requires p.Buildable()
    ensures Minimal(p.Instruction())
  {
    if p.Int? { IntInstrMinimal(p.n); }
  }

  function PieceInstrs(pieces: seq<Piece>): seq<Instr> {
    if pieces == [] then []
    else PieceInstrs(pieces[..|pieces| - 1]) + [pieces[|pieces| - 1].Instruction()]
  }

  /** Whatever is built this way parses, under the minimality rule, to the
      instructions asked for. */
  method BuildPieces(pieces: seq<Piece>) returns (script: Bytes)
    requires forall i :: 0 <= i < |pieces| ==> pieces[i].Buildable()
    ensures ParseAll(script, true) == Ok(PieceInstrs(pieces))
  {
    var b := new Builder();
    for k := 0 to |pieces|
      invariant b.Valid()
      invariant b.instrs == PieceInstrs(pieces[..k])
      invariant AllMinimal(b.instrs)
    {
      var piece := pieces[k];
      PieceMinimal(piece);
      assert pieces[..k + 1][..k] == pieces[..k];
      BuildPiece(b, piece);
    }
    assert pieces[..|pieces|] == pieces;
    ParseAllPrinted(b.instrs, true);
    script := b.bytes;
  }

  method BuildPiece(b: Builder, piece: Piece)
    requires b.Valid() && piece.Buildable()
    modifies b
    ensures b.Valid() && b.instrs == old(b.instrs) + [piece.Instruction()]
  {
    match piece {
      case MinimalSlice(data) => b.PushSliceMinimal(data);
      case Int(n) => b.PushInt(n);
      case Opcode(code) => b.PushOpcode(code);
    }
  }
}
