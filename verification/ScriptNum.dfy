/** Script numbers: little-endian sign-magnitude byte strings
    (script/src/script.rs, build_scriptint to read_uint). */
module ScriptNum {
  import opened Wrappers

  type Byte = x: int | 0 <= x < 256

  type Bytes = seq<Byte>

  datatype ScriptError =
    | NonMinimalPush | EarlyEndOfScript | NumericOverflow | IllegalOp | UnbalancedIfElse
    | NotEnoughElementsOnStack | InvalidOperand | VerifyFail | StackNotClean | PubkeyFormat
    | PushSize | PushOnly | StackSize | ScriptSize | PubkeyCount | SigCount | TimeLockNotMet | NullDummy

  const TWO_63: int := 0x8000_0000_0000_0000

  predicate FitsI64(x: int) {
    -TWO_63 <= x < TWO_63
  }

  function Pow256(k: nat): (p: nat)
    ensures p > 0
  {
    if k == 0 then 1 else 256 * Pow256(k - 1)
  }

  // ---------- what a byte string means ----------

  /** The magnitude: the top bit of the last byte is the sign, not a digit. */
  function Magnitude(v: Bytes): nat
    requires v != []
  {
    if |v| == 1 then v[0] % 128 else v[0] + 256 * Magnitude(v[1..])
  }

  predicate Negative(v: Bytes)
    requires v != []
  {
    v[|v| - 1] >= 128
  }

  function Decode(v: Bytes): int {
    if v == [] then 0
    else
      var m: int := Magnitude(v);
      if Negative(v) then -m else m
  }

  // ---------- encoding ----------

  function EncodeMagnitude(a: nat, neg: bool): (v: Bytes)
    requires a > 0
    ensures v != []
  {
    var sign := if neg then 128 else 0;
    if a > 255 then [a % 256] + EncodeMagnitude(a / 256, neg)
    else if a >= 128 then [a, sign]
    else [a + sign]
  }

  function Encode(n: int): Bytes {
    if n == 0 then [] else EncodeMagnitude(if n < 0 then -n else n, n < 0)
  }

  /** build_scriptint. The most negative 64-bit number has no negation, so it
      is not accepted. */
  method BuildScriptInt(n: int) returns (v: Bytes)
    requires FitsI64(n) && n != -TWO_63
    ensures v == Encode(n)
  {
    if n == 0 {
      return [];
    }
    var neg := n < 0;
    var abs := if neg then -n else n;
    v := [];
    while abs > 0xFF
      invariant abs > 0
      invariant v + EncodeMagnitude(abs, neg) == Encode(n)
    {
      assert v + ([abs % 256] + EncodeMagnitude(abs / 256, neg)) == v + [abs % 256] + EncodeMagnitude(abs / 256, neg);
      v := v + [abs % 256];
      abs := abs / 256;
    }
    if abs >= 0x80 {
      v := v + [abs];
      v := v + [if neg then 0x80 else 0];
    } else {
      abs := abs + (if neg then 0x80 else 0);
      v := v + [abs];
    }
  }

  lemma {:induction false} MagnitudeOfEncoded(a: nat, neg: bool)
    requires a > 0
    ensures Magnitude(EncodeMagnitude(a, neg)) == a
    ensures Negative(EncodeMagnitude(a, neg)) <==> neg
    decreases a
  {
    var v := EncodeMagnitude(a, neg);
    if a > 255 {
      MagnitudeOfEncoded(a / 256, neg);
      var low, high := v[0], v[1..];
      assert v == [low] + high && high == EncodeMagnitude(a / 256, neg);
      hide EncodeMagnitude;
      assert a == low + 256 * (a / 256);
    } else if a >= 128 {
      assert v[1..] == [v[1]];
    }
  }

  lemma DecodeEncode(n: int)
    ensures Decode(Encode(n)) == n
  {
    if n != 0 {
      MagnitudeOfEncoded(if n < 0 then -n else n, n < 0);
    }
  }

  /** Absolute values below this fit in `k` bytes. */
  function Limit(k: nat): nat {
    if k == 0 then 1 else 128 * Pow256(k - 1)
  }

  lemma {:induction false} EncodedLength(a: nat, neg: bool, k: nat)
    requires a > 0
    ensures |EncodeMagnitude(a, neg)| <= k <==> a < Limit(k)
    decreases a
  {
    if k == 0 {
    } else if a > 255 {
      EncodedLength(a / 256, neg, k - 1);
      if k >= 2 {
        assert Pow256(k - 1) == 256 * Pow256(k - 2);
        DivBelow(a, 128 * Pow256(k - 2));
      } else {
        assert Pow256(0) == 1;
      }
    } else {
      LimitGrows(k);
      assert Pow256(0) == 1;
    }
  }

  lemma DivBelow(a: nat, p: nat)
    ensures a / 256 < p <==> a < 256 * p
  {
  }

  lemma {:induction false} LimitGrows(k: nat)
    ensures k >= 1 ==> Limit(k) >= 128
    ensures k >= 2 ==> Limit(k) >= 0x8000
    decreases k
  {
    if k == 2 {
      assert Pow256(1) == 256 * Pow256(0);
    } else if k > 2 {
      LimitGrows(k - 1);
      assert Pow256(k - 1) == 256 * Pow256(k - 2);
    }
  }

  /** No other byte string of the same or a smaller length decodes to `n`. */
  lemma EncodeIsShortest(n: int, v: Bytes)
    requires Decode(v) == n
    ensures |Encode(n)| <= |v|
    ensures |Encode(n)| == |v| ==> v == Encode(n)
  {
    if n != 0 {
      ShortestMagnitude(v);
    }
  }

  lemma {:induction false} ShortestMagnitude(v: Bytes)
    requires v != [] && Magnitude(v) > 0
    ensures var e := EncodeMagnitude(Magnitude(v), Negative(v));
            |e| <= |v| && (|e| == |v| ==> e == v)
    decreases |v|
  {
    var a := Magnitude(v);
    if |v| > 1 {
      var d := Magnitude(v[1..]);
      assert v == [v[0]] + v[1..];
      if d > 0 {
        ShortestMagnitude(v[1..]);
        LongerMagnitude(v[0], d, Negative(v));
      } else if |v| == 2 {
        assert v[1..] == [v[1]];
      }
    }
  }

  lemma LongerMagnitude(low: Byte, d: nat, neg: bool)
    requires d > 0
    ensures EncodeMagnitude(low + 256 * d, neg) == [low] + EncodeMagnitude(d, neg)
  {
    var a := low + 256 * d;
    assert a % 256 == low && a / 256 == d;
  }

  // ---------- decoding as the code does it, in 64-bit arithmetic ----------

  /** Two's complement: the low 64 bits read as a signed number. */
  function WrapI64(x: int): (r: int)
    ensures FitsI64(r)
  {
    var low := x % (2 * TWO_63);
    if low < TWO_63 then low else low - 2 * TWO_63
  }

  /** The sum of the shifted bytes. The addition traps on overflow, so it owes
      its range; the shift drops the high bits. */
  function FoldBytes(v: Bytes, count: nat): (acc: int)
    requires count <= |v| && count <= 8
    ensures count < 8 ==> acc == LittleEndian(v[..count]) < Pow256(count)
    ensures count == 8 ==> acc == WrapI64(LittleEndian(v[..count]))
    decreases count
  {
    if count == 0 then 0
    else
      var prior := FoldBytes(v, count - 1);
      var b := v[count - 1];
      var shifted := WrapI64(b * Pow256(count - 1));
      assert v[..count] == v[..count - 1] + [b];
      LittleEndianSnoc(v[..count - 1], b);
      FoldStep(prior, b, count);
      AddI64(prior, shifted)
  }

  function AddI64(x: int, y: int): int
    requires FitsI64(x + y)
  {
    x + y
  }

  lemma WrapSmall(x: nat)
    requires x < TWO_63
    ensures WrapI64(x) == x
  {
  }

  lemma ByteTimes(b: Byte, p: nat)
    ensures 0 <= b * p <= 255 * p
  {
  }

  lemma WrapBelow(prior: nat, b: Byte, p: nat)
    requires prior < p <= 0x1_0000_0000_0000
    ensures WrapI64(b * p) == b * p
    ensures FitsI64(prior + b * p) && prior + b * p < 256 * p
  {
    hide WrapI64;
    ByteTimes(b, p);
    WrapSmall(b * p);
  }

  lemma WrapTop(prior: nat, b: Byte)
    requires prior < 0x100_0000_0000_0000
    ensures FitsI64(prior + WrapI64(b * 0x100_0000_0000_0000))
    ensures prior + WrapI64(b * 0x100_0000_0000_0000) == WrapI64(prior + b * 0x100_0000_0000_0000)
  {
  }

  lemma FoldStep(prior: nat, b: Byte, count: nat)
    requires 1 <= count <= 8 && prior < Pow256(count - 1)
    ensures FitsI64(prior + WrapI64(b * Pow256(count - 1)))
    ensures count < 8 ==> prior + WrapI64(b * Pow256(count - 1)) == prior + b * Pow256(count - 1) < Pow256(count)
    ensures count == 8 ==> prior + WrapI64(b * Pow256(count - 1)) == WrapI64(prior + b * Pow256(count - 1))
  {
    var p := Pow256(count - 1);
    assert Pow256(count) == 256 * p;
    Pow256Values();
    hide Pow256, WrapI64;
    if count == 8 {
      WrapTop(prior, b);
    } else {
      assert p <= 0x1_0000_0000_0000;
      WrapBelow(prior, b, p);
    }
  }

  function LittleEndian(v: Bytes): nat {
    if v == [] then 0 else v[0] + 256 * LittleEndian(v[1..])
  }

  lemma Pow256Values()
    ensures Pow256(0) == 1 && Pow256(1) == 0x100 && Pow256(2) == 0x1_0000 && Pow256(3) == 0x100_0000
    ensures Pow256(4) == 0x1_0000_0000 && Pow256(5) == 0x100_0000_0000
    ensures Pow256(6) == 0x1_0000_0000_0000 && Pow256(7) == 0x100_0000_0000_0000
  {
    assert Pow256(1) == 256 * Pow256(0);
    assert Pow256(2) == 256 * Pow256(1);
    assert Pow256(3) == 256 * Pow256(2);
    assert Pow256(4) == 256 * Pow256(3);
    assert Pow256(5) == 256 * Pow256(4);
    assert Pow256(6) == 256 * Pow256(5);
    assert Pow256(7) == 256 * Pow256(6);
  }

  lemma {:induction false} LittleEndianSnoc(v: Bytes, b: Byte)
    ensures LittleEndian(v + [b]) == LittleEndian(v) + b * Pow256(|v|)
    ensures LittleEndian(v) < Pow256(|v|)
    decreases |v|
  {
    if v == [] {
      assert LittleEndian([b]) == b + 256 * LittleEndian([]);
    } else {
      LittleEndianSnoc(v[1..], b);
      assert (v + [b])[1..] == v[1..] + [b];
      Scale(b, |v|);
    }
  }

  /** read_scriptint_size. The size argument is asserted to be at most 8. */
  function ReadScriptIntSize(v: Bytes, maxSize: nat): Result<int, ScriptError>
    requires maxSize <= 8
  {
    var len := |v|;
    if len == 0 then Ok(0)
    else if len > maxSize then Err(NumericOverflow)
    else
      var ret := FoldBytes(v, len);
      if v[len - 1] >= 0x80 then
        Ok(-(ret % (128 * Pow256(len - 1))))  // the mask keeps all bits below the sign bit
      else Ok(ret)
  }

  function ReadScriptInt(v: Bytes): Result<int, ScriptError> {
    ReadScriptIntSize(v, 4)
  }

  lemma Scale(b: nat, n: nat)
    requires n > 0
    ensures b * Pow256(n) == 256 * (b * Pow256(n - 1))
  {
    var p := Pow256(n - 1);
    assert Pow256(n) == 256 * p;
    assert b * (256 * p) == 256 * (b * p);
  }

  lemma {:induction false} MagnitudeSplit(v: Bytes)
    requires v != []
    ensures var n := |v| - 1; Magnitude(v) == LittleEndian(v[..n]) + (v[n] % 128) * Pow256(n)
    decreases |v|
  {
    var n := |v| - 1;
    if n > 0 {
      MagnitudeSplit(v[1..]);
      assert v[1..][..n - 1] == v[..n][1..];
      assert v[1..][n - 1] == v[n];
      Scale(v[n] % 128, n);
    }
  }

  lemma ModAbsorbs(r: nat, d: nat, q: int)
    requires r < d
    ensures (r + q * d) % d == r
  {
    var x := r + q * d;
    var gap := x / d - q;
    assert x == (x / d) * d + x % d;
    assert (x / d) * d == q * d + gap * d;
    assert r - x % d == gap * d;
    if gap >= 1 { MulAtLeast(gap, d); }
    if gap <= -1 { MulAtLeast(-gap, d); }
  }

  lemma MulAtLeast(x: int, d: nat)
    requires x >= 1
    ensures x * d >= d
    ensures (-x) * d == -(x * d)
  {
  }

  /** The 64-bit decoder computes the meaning of the byte string, also where
      the eighth byte spills into the sign bit. */
  lemma ReadIsDecode(v: Bytes, maxSize: nat)
    requires |v| <= maxSize <= 8
    ensures ReadScriptIntSize(v, maxSize) == Ok(Decode(v))
    ensures FitsI64(Decode(v)) && Decode(v) != -TWO_63
  {
    if v != [] {
      MaskedFold(v);
    }
  }

  lemma MaskedFold(v: Bytes)
    requires v != [] && |v| <= 8
    ensures var ret := FoldBytes(v, |v|);
            Magnitude(v) == if Negative(v) then ret % (128 * Pow256(|v| - 1)) else ret
    ensures Magnitude(v) < TWO_63
  {
    var d := 128 * Pow256(|v| - 1);
    assert v[..|v|] == v;
    MagnitudeAndValue(v);
    SignBit(|v|);
    Mask(Magnitude(v), d, LittleEndian(v), FoldBytes(v, |v|), |v| == 8);
  }

  lemma SignBit(len: nat)
    requires 1 <= len <= 8
    ensures 128 * Pow256(len - 1) <= TWO_63
    ensures len == 8 ==> 128 * Pow256(len - 1) == TWO_63
  {
    Pow256Values();
  }

  lemma Mask(m: nat, d: nat, value: nat, ret: int, wrapped: bool)
    requires m < d <= TWO_63 && (wrapped ==> d == TWO_63)
    requires value == m || value == m + d
    requires ret == if wrapped then WrapI64(value) else value
    ensures value == m ==> ret == m
    ensures value == m + d ==> ret % d == m
  {
    if value == m + d {
      var q := if wrapped then -1 else 1;
      assert ret == m + q * d;
      ModAbsorbs(m, d, q);
    }
  }

  lemma MagnitudeAndValue(v: Bytes)
    requires v != []
    ensures var n := |v| - 1;
            && Magnitude(v) < 128 * Pow256(n)
            && LittleEndian(v) == Magnitude(v) + (if v[n] >= 128 then 128 * Pow256(n) else 0)
  {
    var n := |v| - 1;
    assert v == v[..n] + [v[n]];
    LittleEndianSnoc(v[..n], v[n]);
    MagnitudeSplit(v);
    MagnitudeBound(LittleEndian(v[..n]), v[n] % 128, Pow256(n));
  }

  lemma MagnitudeBound(low: nat, top: nat, p: nat)
    requires low < p && top < 128
    ensures low + top * p < 128 * p
    ensures (top + 128) * p == top * p + 128 * p
  {
    assert top * p <= 127 * p;
  }

  /** Reading back an encoded number with room for `k` bytes. */
  lemma ReadEncoded(n: int, k: nat)
    requires k <= 8
    ensures ReadScriptIntSize(Encode(n), k) ==
            if n < Limit(k) && -n < Limit(k) then Ok(n) else Err(NumericOverflow)
  {
    DecodeEncode(n);
    if n != 0 {
      EncodedLength(if n < 0 then -n else n, n < 0, k);
    }
    if |Encode(n)| <= k {
      ReadIsDecode(Encode(n), k);
    }
  }

  // ---------- booleans ----------

  function ReadScriptBool(v: Bytes): bool {
    !(v == [] ||
      ((v[|v| - 1] == 0 || v[|v| - 1] == 0x80) && forall i :: 0 <= i < |v| - 1 ==> v[i] == 0))
  }

  /** A byte string is true exactly when it denotes a non-zero number, whatever
      its length. */
  lemma {:induction false} BoolIsNonZero(v: Bytes)
    ensures ReadScriptBool(v) <==> Decode(v) != 0
    decreases |v|
  {
    if |v| > 1 {
      BoolIsNonZero(v[1..]);
      assert forall i :: 0 <= i < |v[1..]| ==> v[1..][i] == v[i + 1];
      assert ReadScriptBool(v) <==> v[0] != 0 || ReadScriptBool(v[1..]);
    }
  }

  lemma EncodeBool(b: bool)
    ensures Encode(if b then 1 else 0) == if b then [1] else []
    ensures ReadScriptBool(Encode(if b then 1 else 0)) <==> b
  {
  }

  // ---------- unsigned length fields ----------

  /** read_uint: the first `size` bytes, least significant first. */
  method ReadUint(data: Bytes, size: nat) returns (r: Result<nat, ScriptError>)
    ensures |data| < size ==> r == Err(EarlyEndOfScript)
    ensures |data| >= size ==> r == Ok(LittleEndian(data[..size]))
  {
    if |data| < size {
      return Err(EarlyEndOfScript);
    }
    var ret := 0;
    for i := 0 to size
      invariant ret == LittleEndian(data[..i])
    {
      LittleEndianSnoc(data[..i], data[i]);
      assert data[..i + 1] == data[..i] + [data[i]];
      ret := ret + data[i] * Pow256(i);
    }
    r := Ok(ret);
  }
}
