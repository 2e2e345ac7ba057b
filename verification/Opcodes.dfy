/** Opcodes and their classification (script/src/opcodes.rs). */
module Opcodes {
  import opened Wrappers
  import opened ScriptNum

  datatype Ordinary =
    | Verify
    | TwoDrop | TwoDup | ThreeDup | TwoOver | TwoRot | TwoSwap
    | Drop | Dup | Nip | Over | Pick | Roll | Rot | Swap | Tuck
    | IfDup | Depth | Size
    | Equal | EqualVerify
    | OneAdd | OneSub | Negate | Abs | Not | ZeroNotEqual
    | Add | Sub | BoolAnd | BoolOr
    | NumEqual | NumEqualVerify | NumNotEqual | LessThan
    | GreaterThan | LessThanOrEqual | GreaterThanOrEqual
    | Min | Max | Within
    | Ripemd160 | Sha1 | Sha256 | Hash160 | Hash256
  {
    predicate IsVerify() {
      Verify? || EqualVerify? || NumEqualVerify?
    }
  }

  datatype ControlFlow = If | NotIf | Else | EndIf | CodeSeparator

  datatype AltStack = ToAltStack | FromAltStack

  datatype Signature = CheckSig | CheckSigVerify | CheckMultiSig | CheckMultiSigVerify {
    predicate IsVerify() {
      CheckSigVerify? || CheckMultiSigVerify?
    }
  }

  datatype TimeLock = CheckLockTime | CheckSequence

  /** The three pushes with an explicit length field. */
  datatype PushData = PushData1 | PushData2 | PushData4 {
    function SizeBytes(): nat {
      match this case PushData1 => 1 case PushData2 => 2 case PushData4 => 4
    }

    /** The shortest push for which the form is minimal. */
    function SizeMin(): nat {
      match this case PushData1 => 76 case PushData2 => 0x100 case PushData4 => 0x1_0000
    }
  }

  datatype Class =
    | PushNum(n: int)
    | PushBytes(count: nat)
    | PushDataOp(push: PushData)
    | ReturnOp
    | IllegalOpcode
    | NoOp
    | ControlFlowOp(flow: ControlFlow)
    | AltStackOp(alt: AltStack)
    | SignatureOp(sig: Signature)
    | TimeLockOp(lock: TimeLock)
    | OrdinaryOp(op: Ordinary)

  const OP_PUSHDATA1: Byte := 0x4c
  const OP_PUSHDATA2: Byte := 0x4d
  const OP_PUSHDATA4: Byte := 0x4e
  const OP_PUSHNUM_NEG1: Byte := 0x4f
  const OP_TRUE: Byte := 0x51
  const OP_VERIFY: Byte := 0x69
  const OP_DUP: Byte := 0x76
  const OP_EQUAL: Byte := 0x87
  const OP_EQUALVERIFY: Byte := 0x88
  const OP_NUMEQUAL: Byte := 0x9c
  const OP_NUMEQUALVERIFY: Byte := 0x9d
  const OP_HASH160: Byte := 0xa9
  const OP_CHECKSIG: Byte := 0xac
  const OP_CHECKSIGVERIFY: Byte := 0xad
  const OP_CHECKMULTISIG: Byte := 0xae
  const OP_CHECKMULTISIGVERIFY: Byte := 0xaf

  function OrdinaryOf(code: Byte): Option<Ordinary> {
    match code
    case 0x69 => Some(Verify)
    case 0x6d => Some(TwoDrop)
    case 0x6e => Some(TwoDup)
    case 0x6f => Some(ThreeDup)
    case 0x70 => Some(TwoOver)
    case 0x71 => Some(TwoRot)
    case 0x72 => Some(TwoSwap)
    case 0x73 => Some(IfDup)
    case 0x74 => Some(Depth)
    case 0x75 => Some(Drop)
    case 0x76 => Some(Dup)
    case 0x77 => Some(Nip)
    case 0x78 => Some(Over)
    case 0x79 => Some(Pick)
    case 0x7a => Some(Roll)
    case 0x7b => Some(Rot)
    case 0x7c => Some(Swap)
    case 0x7d => Some(Tuck)
    case 0x82 => Some(Size)
    case 0x87 => Some(Equal)
    case 0x88 => Some(EqualVerify)
    case 0x8b => Some(OneAdd)
    case 0x8c => Some(OneSub)
    case 0x8f => Some(Negate)
    case 0x90 => Some(Abs)
    case 0x91 => Some(Not)
    case 0x92 => Some(ZeroNotEqual)
    case 0x93 => Some(Add)
    case 0x94 => Some(Sub)
    case 0x9a => Some(BoolAnd)
    case 0x9b => Some(BoolOr)
    case 0x9c => Some(NumEqual)
    case 0x9d => Some(NumEqualVerify)
    case 0x9e => Some(NumNotEqual)
    case 0x9f => Some(LessThan)
    case 0xa0 => Some(GreaterThan)
    case 0xa1 => Some(LessThanOrEqual)
    case 0xa2 => Some(GreaterThanOrEqual)
    case 0xa3 => Some(Min)
    case 0xa4 => Some(Max)
    case 0xa5 => Some(Within)
    case 0xa6 => Some(Ripemd160)
    case 0xa7 => Some(Sha1)
    case 0xa8 => Some(Sha256)
    case 0xa9 => Some(Hash160)
    case 0xaa => Some(Hash256)
    case _ => None
  }

  /** The categories tried last, one after the other. */
  function CategoryOf(code: Byte): Option<Class> {
    var ordinary := OrdinaryOf(code);
    if ordinary.Some? then Some(OrdinaryOp(ordinary.value))
    else match code
      case 0x63 => Some(ControlFlowOp(If))
      case 0x64 => Some(ControlFlowOp(NotIf))
      case 0x67 => Some(ControlFlowOp(Else))
      case 0x68 => Some(ControlFlowOp(EndIf))
      case 0xab => Some(ControlFlowOp(CodeSeparator))
      case 0x4c => Some(PushDataOp(PushData1))
      case 0x4d => Some(PushDataOp(PushData2))
      case 0x4e => Some(PushDataOp(PushData4))
      case 0xac => Some(SignatureOp(CheckSig))
      case 0xad => Some(SignatureOp(CheckSigVerify))
      case 0xae => Some(SignatureOp(CheckMultiSig))
      case 0xaf => Some(SignatureOp(CheckMultiSigVerify))
      case 0x6b => Some(AltStackOp(ToAltStack))
      case 0x6c => Some(AltStackOp(FromAltStack))
      case _ => None
  }

  predicate Illegal(code: Byte) {
    code in {0x65, 0x66, 0x7e, 0x7f, 0x80, 0x81, 0x83, 0x84, 0x85, 0x86, 0x8d, 0x8e, 0x95, 0x96, 0x97, 0x98, 0x99}
  }

  /** Opcodes that carry data in the script after them. */
  predicate CarriesData(code: Byte) {
    code <= OP_PUSHDATA4
  }

  /** Classification follows the source's order of tests; its final expectation
      that some category matches always holds. */
  function Classify(code: Byte): (c: Class)
    ensures c.PushBytes? <==> code <= 75
    ensures c.PushBytes? ==> c.count == code
    ensures c.PushDataOp? <==> code in {OP_PUSHDATA1, OP_PUSHDATA2, OP_PUSHDATA4}
    ensures c.PushBytes? || c.PushDataOp? <==> CarriesData(code)
    ensures c.PushNum? <==> code == OP_PUSHNUM_NEG1 || 0x51 <= code <= 0x60
    ensures c.PushNum? ==> c.n == code - 0x50
    ensures c.IllegalOpcode? <==> Illegal(code)
  {
    if Illegal(code) then IllegalOpcode
    else if code == 0xb1 then TimeLockOp(CheckLockTime)
    else if code == 0xb2 then TimeLockOp(CheckSequence)
    else if code == 0x61 || 0xb0 <= code <= 0xb9 then NoOp
    else if code == 0x50 || code == 0x62 || code == 0x6a || code == 0x89 || code == 0x8a || code >= 0xba then ReturnOp
    else if code == 0x4f then PushNum(-1)
    else if 0x51 <= code <= 0x60 then PushNum(1 + code - 0x51)
    else if code <= 0x4b then PushBytes(code)
    else
      assert CategoryOf(code).Some?;
      CategoryOf(code).value
  }

  /** Which bytes each class takes. */
  lemma ClassesByByte(code: Byte)
    ensures var c := Classify(code);
            && (c == PushBytes(code) <==> code <= 75)
            && (c.PushDataOp? <==> 76 <= code <= 78)
            && (c.PushNum? <==> code == 79 || 81 <= code <= 96)
            && (c.IllegalOpcode? <==>
                  || code in {0x65, 0x66, 0x8d, 0x8e} || 0x7e <= code <= 0x81
                  || 0x83 <= code <= 0x86 || 0x95 <= code <= 0x99)
            && (c.TimeLockOp? <==> code in {0xb1, 0xb2})
            && (c.NoOp? <==> code == 0x61 || code == 0xb0 || 0xb3 <= code <= 0xb9)
            && (c.ReturnOp? <==> code in {0x50, 0x62, 0x6a, 0x89, 0x8a} || code >= 0xba)
            && (c.ControlFlowOp? <==> code in {0x63, 0x64, 0x67, 0x68, 0xab})
            && (c.AltStackOp? <==> code in {0x6b, 0x6c})
            && (c.SignatureOp? <==> 0xac <= code <= 0xaf)
            && (c.OrdinaryOp? <==>
                  || code in {0x69, 0x82, 0x87, 0x88, 0x8b, 0x8c}
                  || 0x6d <= code <= 0x7d || 0x8f <= code <= 0x94 || 0x9a <= code <= 0xaa)
  {
  }

  /** The byte an ordinary opcode is written with. */
  function CodeOfOrdinary(op: Ordinary): Byte {
    match op
    case Verify => 0x69 case TwoDrop => 0x6d case TwoDup => 0x6e case ThreeDup => 0x6f
    case TwoOver => 0x70 case TwoRot => 0x71 case TwoSwap => 0x72 case IfDup => 0x73
    case Depth => 0x74 case Drop => 0x75 case Dup => 0x76 case Nip => 0x77
    case Over => 0x78 case Pick => 0x79 case Roll => 0x7a case Rot => 0x7b
    case Swap => 0x7c case Tuck => 0x7d case Size => 0x82 case Equal => 0x87
    case EqualVerify => 0x88 case OneAdd => 0x8b case OneSub => 0x8c case Negate => 0x8f
    case Abs => 0x90 case Not => 0x91 case ZeroNotEqual => 0x92 case Add => 0x93
    case Sub => 0x94 case BoolAnd => 0x9a case BoolOr => 0x9b case NumEqual => 0x9c
    case NumEqualVerify => 0x9d case NumNotEqual => 0x9e case LessThan => 0x9f case GreaterThan => 0xa0
    case LessThanOrEqual => 0xa1 case GreaterThanOrEqual => 0xa2 case Min => 0xa3 case Max => 0xa4
    case Within => 0xa5 case Ripemd160 => 0xa6 case Sha1 => 0xa7 case Sha256 => 0xa8
    case Hash160 => 0xa9 case Hash256 => 0xaa
  }

  lemma OrdinaryNamed(op: Ordinary)
    ensures OrdinaryOf(CodeOfOrdinary(op)) == Some(op)
  {
    var code := CodeOfOrdinary(op);
    if code < 0x87 {
    } else if code < 0x9c {
    }
  }

  lemma OrdinaryWritten(code: Byte)
    ensures OrdinaryOf(code).Some? ==> CodeOfOrdinary(OrdinaryOf(code).value) == code
  {
  }

  lemma OrdinaryClass(code: Byte, op: Ordinary)
    ensures Classify(code) == OrdinaryOp(op) <==> OrdinaryOf(code) == Some(op)
  {
  }

  /** Every ordinary opcode is named by exactly one byte. */
  lemma OrdinaryByteUnique(op: Ordinary, code: Byte)
    ensures Classify(code) == OrdinaryOp(op) <==> code == CodeOfOrdinary(op)
  {
    hide Classify, OrdinaryOf, CodeOfOrdinary;
    OrdinaryNamed(op);
    OrdinaryWritten(code);
    OrdinaryClass(code, op);
  }
}
