/** The price of a fill and what a run of fills receives
    (orders-accounting/src/price_calculation.rs). */
module OrderPrice {
  import opened Wrappers
  import opened Deltas

  /** The price is the greatest amount in the ratio of give to ask. The product
      is formed in 256 bits, where it cannot overflow; there is no price for an
      empty ask, or where the price would leave 128 bits. */
  function CalculateFilledAmount(ask: Amount, give: Amount, fill: Amount): (r: Option<Amount>)
    ensures r.Some? <==> ask > 0 && give * fill < (U128_MAX + 1) * ask
    ensures r.Some? ==> r.value * ask <= give * fill < (r.value + 1) * ask
  {
    if ask == 0 then None
    else
      var result := give * fill / ask;
      DivNonNegative(give * fill, ask);
      FloorBounds(give * fill, ask);
      FloorBelow(give * fill, ask, U128_MAX + 1);
      if result <= U128_MAX then Some(result) else None
  }

  lemma FloorBelow(x: nat, d: nat, n: nat)
    requires d > 0
    ensures x / d < n <==> x < n * d
  {
    var q := x / d;
    FloorBounds(x, d);
    if q < n { MulRight(n, q + 1, d); } else { MulRight(q, n, d); }
  }

  lemma DivNonNegative(x: int, d: int)
    requires d > 0 && x >= 0
    ensures x / d >= 0
  {
  }

  lemma ProductFits(give: Amount, fill: Amount)
    ensures give * fill < 0x1_0000_0000_0000_0000_0000_0000_0000_0000 * 0x1_0000_0000_0000_0000_0000_0000_0000_0000
  {
    MulMonotone(give, U128_MAX, fill, U128_MAX);
  }

  lemma MulMonotone(a: nat, b: nat, c: nat, d: nat)
    requires a <= b && c <= d
    ensures a * c <= b * d
  {
    assert a * c <= b * c;
    assert b * c <= b * d;
  }

  /** Floor division, stated by multiplication. */
  lemma FloorBounds(x: nat, d: nat)
    requires d > 0
    ensures (x / d) * d <= x < (x / d + 1) * d
  {
    var q := x / d;
    assert x == q * d + x % d;
    assert (q + 1) * d == q * d + d;
  }

  /** The share of a part is at most the whole, and the share of all is all. */
  lemma ShareOfPart(ask: nat, give: nat, fill: nat)
    requires 0 < ask && fill <= ask
    ensures give * fill / ask <= give
    ensures fill == ask ==> give * fill / ask == give
  {
    MulLeft(give, fill, ask);
    Distribute'(give, 1, ask);
    FloorBetween(give * fill, ask, if fill == ask then give else 0, if fill == ask then 1 else give + 1);
  }

  /** A fill within the asked amount always has a price, and never pays out
      more than there is to give; a fill of everything pays out everything. */
  lemma FillHasPrice(ask: Amount, give: Amount, fill: Amount)
    requires 0 < ask && fill <= ask
    ensures CalculateFilledAmount(ask, give, fill).Some?
    ensures CalculateFilledAmount(ask, give, fill).value <= give
    ensures fill == ask ==> CalculateFilledAmount(ask, give, fill).value == give
  {
    ShareOfPart(ask, give, fill);
  }

  // ---------- any number of fills ----------

  /** What is left of an order. */
  datatype Book = Book(ask: nat, give: nat)

  function Price(b: Book, fill: nat): nat
    requires b.ask > 0
  {
    b.give * fill / b.ask
  }

  /** The order after fills in turn, and the amount paid out in all. */
  function Fills(b: Book, fills: seq<nat>): Option<(Book, nat)> {
    if fills == [] then Some((b, 0))
    else
      var n := |fills| - 1;
      var prior := Fills(b, fills[..n]);
      if prior.None? then None
      else
        var (b', paid) := prior.value;
        if b'.ask == 0 || fills[n] > b'.ask then None
        else
          ShareOfPart(b'.ask, b'.give, fills[n]);
          var got := Price(b', fills[n]);
          Some((Book(b'.ask - fills[n], b'.give - got), paid + got))
  }

  lemma PriceBounds(b: Book, fill: nat)
    requires b.ask > 0 && fill <= b.ask
    ensures Price(b, fill) * b.ask <= b.give * fill < (Price(b, fill) + 1) * b.ask
    ensures Price(b, fill) <= b.give
    ensures fill == b.ask ==> Price(b, fill) == b.give
  {
    FloorBounds(b.give * fill, b.ask);
    ShareOfPart(b.ask, b.give, fill);
  }

  lemma NoFills(b: Book)
    ensures Fills(b, []) == Some((b, 0))
  {
  }

  /** One more fill of an order with some ask left. */
  lemma FillsSnoc(b: Book, fills: seq<nat>, f: nat)
    requires Fills(b, fills).Some?
    requires 0 < Fills(b, fills).value.0.ask && f <= Fills(b, fills).value.0.ask
    ensures var (b', paid) := Fills(b, fills).value;
            && Price(b', f) <= b'.give
            && Fills(b, fills + [f]) ==
               Some((Book(b'.ask - f, b'.give - Price(b', f)), paid + Price(b', f)))
  {
    hide Price;
    assert (fills + [f])[..|fills|] == fills;
    PriceAtMost(Fills(b, fills).value.0, f);
  }

  lemma PriceAtMost(b: Book, fill: nat)
    requires b.ask > 0 && fill <= b.ask
    ensures Price(b, fill) <= b.give
  {
    PriceBounds(b, fill);
  }

  function Sum(s: seq<nat>): nat {
    if s == [] then 0 else Sum(s[..|s| - 1]) + s[|s| - 1]
  }

  /** One more fill keeps the ratio from falling. */
  lemma RatioKept(g0: nat, a0: nat, a: nat, g: nat, f: nat, r: nat)
    requires a > 0 && f <= a && r <= g
    requires r * a <= g * f
    requires g * a0 >= g0 * a
    ensures (g - r) * a0 >= g0 * (a - f)
  {
    assert (g - r) * a >= g * (a - f) by {
      Distribute(g, r, a);
      Distribute(a, f, g);
    }
    calc {
      ((g - r) * a0) * a;
    == { Swap(g - r, a0, a); }
      ((g - r) * a) * a0;
    >= { MulRight((g - r) * a, g * (a - f), a0); }
      (g * (a - f)) * a0;
    == { Swap(g, a - f, a0); }
      (g * a0) * (a - f);
    >= { MulRight(g * a0, g0 * a, a - f); }
      (g0 * a) * (a - f);
    == { Swap(g0, a, a - f); }
      (g0 * (a - f)) * a;
    }
    Cancel((g - r) * a0, g0 * (a - f), a);
  }

  /** One more fill loses less than one unit against the first ratio. */
  lemma LossBelowOne(g0: nat, a0: nat, a: nat, g: nat, f: nat, r: nat)
    requires a > 0 && a0 > 0
    requires g * f < (r + 1) * a
    requires g * a0 >= g0 * a
    ensures g0 * f < (r + 1) * a0
  {
    calc {
      (g0 * f) * a;
    == { Swap(g0, f, a); }
      (g0 * a) * f;
    <= { MulRight(g * a0, g0 * a, f); }
      (g * a0) * f;
    == { Swap(g, a0, f); }
      (g * f) * a0;
    < { MulRight((r + 1) * a, g * f + 1, a0); Distribute'(g * f, 1, a0); }
      ((r + 1) * a) * a0;
    == { Swap(r + 1, a, a0); }
      ((r + 1) * a0) * a;
    }
    if g0 * f >= (r + 1) * a0 { MulRight(g0 * f, (r + 1) * a0, a); }
  }

  lemma Swap(x: int, y: int, z: int)
    ensures (x * y) * z == (x * z) * y
  {
  }

  lemma Distribute(x: int, y: int, c: int)
    ensures (x - y) * c == x * c - y * c
    ensures c * (x - y) == c * x - c * y
    ensures x * c == c * x && y * c == c * y
  {
  }

  lemma Distribute'(x: int, y: int, c: int)
    ensures (x + y) * c == x * c + y * c
  {
  }

  lemma MulRight(x: int, y: int, c: nat)
    requires x >= y
    ensures x * c >= y * c
  {
  }

  lemma MulLeft(c: nat, x: int, y: int)
    requires x <= y
    ensures c * x <= c * y
  {
  }

  lemma Cancel(x: int, y: int, c: nat)
    requires c > 0 && x * c >= y * c
    ensures x >= y
  {
    if x < y {
      MulRight(y, x + 1, c);
      Distribute'(x, 1, c);
      assert false;
    }
  }

  /** Over any run of fills, for a payment of `F` in `n` fills: the give/ask
      ratio has not fallen, the amount received is at most the exact share of
      `F` and less than `n` below it, and an order filled to the end has paid
      out everything. */
  lemma {:induction false} FillsAreFair(b: Book, fills: seq<nat>)
    requires b.ask > 0 && Fills(b, fills).Some?
    ensures var (b', paid) := Fills(b, fills).value;
            var F, n := Sum(fills), |fills|;
            && b'.ask == b.ask - F && b'.give == b.give - paid
            && b'.give * b.ask >= b.give * b'.ask
            && paid * b.ask <= b.give * F <= (paid + n) * b.ask
            && (n > 0 ==> b.give * F < (paid + n) * b.ask)
            && (b'.ask == 0 ==> paid == b.give)
    decreases |fills|
  {
    hide Price;
    if fills == [] {
      assert b.give * Sum(fills) == 0;
    } else {
      var n := |fills| - 1;
      FillsAreFair(b, fills[..n]);
      var (b', paid) := Fills(b, fills[..n]).value;
      var f := fills[n];
      var r := Price(b', f);
      PriceBounds(b', f);
      RatioKept(b.give, b.ask, b'.ask, b'.give, f, r);
      LossBelowOne(b.give, b.ask, b'.ask, b'.give, f, r);
      FairAlgebra(b.ask, b.give, b'.ask, b'.give, paid, Sum(fills[..n]), n, f, r);
    }
  }

  lemma FairAlgebra(A: nat, G: nat, a: nat, g: nat, paid: nat, F: nat, n: nat, f: nat, r: nat)
    requires a == A - F && g == G - paid
    requires f <= a && r <= g
    requires (g - r) * A >= G * (a - f)
    requires G * f < (r + 1) * A
    requires G * F <= (paid + n) * A
    ensures (paid + r) * A <= G * (F + f) < (paid + r + (n + 1)) * A
  {
    Distribute(G, paid + r, A);
    Distribute(A, F + f, G);
    Distribute'(F, f, G);
    Distribute'(paid + n, r + 1, A);
    assert G * (F + f) == (F + f) * G == F * G + f * G == G * F + G * f;
  }

  /** Splitting a payment into several fills never receives more than a single
      fill of the total would, and at most one unit less for each extra fill. */
  lemma SplittingNeverPays(b: Book, fills: seq<nat>)
    requires b.ask > 0 && Fills(b, fills).Some? && fills != []
    ensures var paid := Fills(b, fills).value.1;
            paid <= Price(b, Sum(fills)) <= paid + |fills| - 1
  {
    hide Fills, Sum, Price;
    FillsAreFair(b, fills);
    PriceBetween(b, Sum(fills), Fills(b, fills).value.1, |fills|);
  }

  lemma PriceBetween(b: Book, fill: nat, lo: nat, n: nat)
    requires b.ask > 0 && lo * b.ask <= b.give * fill < (lo + n) * b.ask
    ensures lo <= Price(b, fill) < lo + n
  {
    FloorBetween(b.give * fill, b.ask, lo, n);
  }

  lemma FloorBetween(x: nat, d: nat, lo: nat, n: nat)
    requires d > 0 && lo * d <= x < (lo + n) * d
    ensures lo <= x / d < lo + n
  {
    FloorBounds(x, d);
    var q := x / d;
    if lo > q { MulRight(lo, q + 1, d); }
    if q >= lo + n { MulRight(q, lo + n, d); }
  }
}
