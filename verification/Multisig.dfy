/** The greedy signature matcher finds an assignment whenever there is one. */
module Multisig {
  import opened Wrappers
  import opened ScriptNum
  import opened Machine

  /** The key is of a kind kept for the future, or it is a key for which the
      bytes are a signature that verifies. */
  ghost predicate Fits(ctx: Context, key: Bytes, sig: Bytes, subscript: Bytes, codesep: nat) {
    var k := ctx.parsePubkey(key);
    || k.Reserved?
    || (k.Parsed? &&
        exists d :: ctx.parseSignature(k.value, sig) == Some(d) && ctx.verifySignature(d, subscript, codesep))
  }

  lemma FitsIsAccepts(ctx: Context, key: Bytes, sig: Bytes, subscript: Bytes, codesep: nat)
    ensures Fits(ctx, key, sig, subscript, codesep) == Accepts(ctx, key, sig, subscript, codesep)
  {
  }

  /** `f` gives signature `i` to key `f[i]`, in the order of the keys. */
  ghost predicate Assignment(
    ctx: Context, sigs: seq<Bytes>, keys: seq<Bytes>, subscript: Bytes, codesep: nat, f: seq<nat>)
  {
    && |f| == |sigs|
    && (forall i, j :: 0 <= i < j < |f| ==> f[i] < f[j])
    && (forall i :: 0 <= i < |f| ==> f[i] < |keys| && Fits(ctx, keys[f[i]], sigs[i], subscript, codesep))
  }

  lemma {:induction false} IncreasingFits(f: seq<nat>, bound: nat)
    requires forall i, j :: 0 <= i < j < |f| ==> f[i] < f[j]
    requires forall i :: 0 <= i < |f| ==> f[i] < bound
    ensures |f| <= bound
    decreases |f|
  {
    if f == [] {
    } else {
      var n := |f| - 1;
      IncreasingFits(f[..n], f[n]);
    }
  }

  function Shift(f: seq<nat>): seq<nat>
    requires forall i :: 0 <= i < |f| ==> f[i] > 0
  {
    seq(|f|, i requires 0 <= i < |f| => f[i] - 1)
  }

  /** With an assignment at hand the matcher never answers no; in particular
      its early cut-off by length loses nothing. */
  lemma {:induction false} AssignmentIsFound(
    ctx: Context, sigs: seq<Bytes>, keys: seq<Bytes>, subscript: Bytes, codesep: nat, f: seq<nat>)
    requires Assignment(ctx, sigs, keys, subscript, codesep, f)
    ensures CheckMultisig(ctx, sigs, keys, subscript, codesep) != Ok(false)
    decreases |keys|
  {
    hide Accepts, Fits;
    if sigs == [] {
    } else {
      FitsIsAccepts(ctx, keys[f[0]], sigs[0], subscript, codesep);
      IncreasingFits(f, |keys|);
      if !ctx.parsePubkey(keys[0]).Malformed? {
        if Accepts(ctx, keys[0], sigs[0], subscript, codesep) {
          var g := Shift(f[1..]);
          forall i | 0 <= i < |g| ensures keys[1..][g[i]] == keys[f[i + 1]] && sigs[1..][i] == sigs[i + 1] {
          }
          AssignmentIsFound(ctx, sigs[1..], keys[1..], subscript, codesep, g);
        } else {
          assert f[0] != 0;
          var g := Shift(f);
          forall i | 0 <= i < |g| ensures keys[1..][g[i]] == keys[f[i]] {
          }
          AssignmentIsFound(ctx, sigs, keys[1..], subscript, codesep, g);
        }
      }
    }
  }

  function Unshift(f: seq<nat>): seq<nat> {
    seq(|f|, i requires 0 <= i < |f| => f[i] + 1)
  }

  /** A yes comes with an assignment. */
  lemma {:induction false} FoundIsAssignment(
    ctx: Context, sigs: seq<Bytes>, keys: seq<Bytes>, subscript: Bytes, codesep: nat) returns (f: seq<nat>)
    requires CheckMultisig(ctx, sigs, keys, subscript, codesep) == Ok(true)
    ensures Assignment(ctx, sigs, keys, subscript, codesep, f)
    decreases |keys|
  {
    hide Accepts, Fits, Unshift;
    if sigs == [] {
      return [];
    }
    FitsIsAccepts(ctx, keys[0], sigs[0], subscript, codesep);
    if Accepts(ctx, keys[0], sigs[0], subscript, codesep) {
      var g := FoundIsAssignment(ctx, sigs[1..], keys[1..], subscript, codesep);
      f := [0] + Unshift(g);
      UnshiftAt(g);
      forall i | 0 < i < |f| ensures keys[f[i]] == keys[1..][g[i - 1]] && sigs[i] == sigs[1..][i - 1] {
      }
    } else {
      var g := FoundIsAssignment(ctx, sigs, keys[1..], subscript, codesep);
      f := Unshift(g);
      UnshiftAt(g);
      forall i | 0 <= i < |f| ensures keys[f[i]] == keys[1..][g[i]] {
      }
    }
  }

  lemma UnshiftAt(f: seq<nat>)
    ensures |Unshift(f)| == |f| && forall i :: 0 <= i < |f| ==> Unshift(f)[i] == f[i] + 1
  {
  }

  lemma {:induction false} OnlyMalformedFails(
    ctx: Context, sigs: seq<Bytes>, keys: seq<Bytes>, subscript: Bytes, codesep: nat)
    ensures CheckMultisig(ctx, sigs, keys, subscript, codesep).Err? ==>
              && CheckMultisig(ctx, sigs, keys, subscript, codesep).error == PubkeyFormat
              && exists i :: 0 <= i < |keys| && ctx.parsePubkey(keys[i]).Malformed?
    decreases |keys|
  {
    if sigs != [] && |keys| >= |sigs| && !ctx.parsePubkey(keys[0]).Malformed? {
      OnlyMalformedFails(ctx, sigs[1..], keys[1..], subscript, codesep);
      OnlyMalformedFails(ctx, sigs, keys[1..], subscript, codesep);
      if i :| 0 <= i < |keys[1..]| && ctx.parsePubkey(keys[1..][i]).Malformed? {
        assert ctx.parsePubkey(keys[i + 1]).Malformed?;
      }
    }
  }

  /** The matcher decides: it answers yes exactly when an order-preserving
      assignment exists and no exactly when none does; an error means a key
      that cannot be parsed, and without such a key there is no error. */
  lemma MatcherDecides(ctx: Context, sigs: seq<Bytes>, keys: seq<Bytes>, subscript: Bytes, codesep: nat)
    ensures var r := CheckMultisig(ctx, sigs, keys, subscript, codesep);
            && (r.Ok? ==> (r.value <==> exists f :: Assignment(ctx, sigs, keys, subscript, codesep, f)))
            && (r.Err? ==> r.error == PubkeyFormat)
            && ((forall i :: 0 <= i < |keys| ==> !ctx.parsePubkey(keys[i]).Malformed?) ==> r.Ok?)
  {
    var r := CheckMultisig(ctx, sigs, keys, subscript, codesep);
    OnlyMalformedFails(ctx, sigs, keys, subscript, codesep);
    if r == Ok(true) {
      var f := FoundIsAssignment(ctx, sigs, keys, subscript, codesep);
    }
    if f :| Assignment(ctx, sigs, keys, subscript, codesep, f) {
      AssignmentIsFound(ctx, sigs, keys, subscript, codesep, f);
    }
  }

  // ---------- a key that cannot be parsed ----------

  /** The first `i` signatures can be assigned to the keys. */
  ghost predicate CanTake(ctx: Context, sigs: seq<Bytes>, i: nat, keys: seq<Bytes>, subscript: Bytes, codesep: nat) {
    i <= |sigs| && exists f :: Assignment(ctx, sigs[..i], keys, subscript, codesep, f)
  }

  predicate AllParse(ctx: Context, keys: seq<Bytes>) {
    forall i :: 0 <= i < |keys| ==> !ctx.parsePubkey(keys[i]).Malformed?
  }

  /** How many signatures the matcher has placed once it has been through the
      keys. */
  function Placed(ctx: Context, sigs: seq<Bytes>, keys: seq<Bytes>, subscript: Bytes, codesep: nat): (n: nat)
    ensures n <= |sigs| && n <= |keys|
    decreases |keys|
  {
    if sigs == [] || keys == [] then 0
    else if Accepts(ctx, keys[0], sigs[0], subscript, codesep) then
      1 + Placed(ctx, sigs[1..], keys[1..], subscript, codesep)
    else Placed(ctx, sigs, keys[1..], subscript, codesep)
  }

  /** The matcher over keys that parse, in front of others: it is done, or it
      has run out of keys, or it goes on with what is left of both. */
  lemma {:induction false} MatcherGoesOn(
    ctx: Context, sigs: seq<Bytes>, front: seq<Bytes>, back: seq<Bytes>, subscript: Bytes, codesep: nat)
    requires AllParse(ctx, front)
    ensures var n := Placed(ctx, sigs, front, subscript, codesep);
            CheckMultisig(ctx, sigs, front + back, subscript, codesep) ==
            if n == |sigs| then Ok(true)
            else if |back| < |sigs| - n then Ok(false)
            else CheckMultisig(ctx, sigs[n..], back, subscript, codesep)
    decreases |front|
  {
    hide Accepts;
    var all := front + back;
    if front == [] {
      assert all == back && sigs[0..] == sigs;
    } else if sigs != [] {
      assert all[0] == front[0] && all[1..] == front[1..] + back;
      assert AllParse(ctx, front[1..]) by {
        forall i | 0 <= i < |front[1..]| ensures !ctx.parsePubkey(front[1..][i]).Malformed? {
          assert front[1..][i] == front[i + 1];
        }
      }
      if Accepts(ctx, front[0], sigs[0], subscript, codesep) {
        MatcherGoesOn(ctx, sigs[1..], front[1..], back, subscript, codesep);
        var n := Placed(ctx, sigs[1..], front[1..], subscript, codesep);
        assert sigs[1..][n..] == sigs[n + 1..];
      } else {
        MatcherGoesOn(ctx, sigs, front[1..], back, subscript, codesep);
      }
    }
  }

  /** It places as many as any assignment could: the first `i` signatures can
      be assigned to keys that parse exactly when it places at least `i`. */
  lemma PlacedIsMost(ctx: Context, sigs: seq<Bytes>, keys: seq<Bytes>, subscript: Bytes, codesep: nat, i: nat)
    requires AllParse(ctx, keys) && i <= |sigs|
    ensures i <= Placed(ctx, sigs, keys, subscript, codesep) <==> CanTake(ctx, sigs, i, keys, subscript, codesep)
  {
    hide CheckMultisig, Accepts;
    MatcherDecides(ctx, sigs[..i], keys, subscript, codesep);
    MatcherGoesOn(ctx, sigs[..i], keys, [], subscript, codesep);
    assert keys + [] == keys;
    PlacedOfPrefix(ctx, sigs, keys, subscript, codesep, i);
    if Placed(ctx, sigs[..i], keys, subscript, codesep) < i { assert |sigs[..i]| == i; }
  }

  lemma {:induction false} PlacedOfPrefix(
    ctx: Context, sigs: seq<Bytes>, keys: seq<Bytes>, subscript: Bytes, codesep: nat, i: nat)
    requires i <= |sigs|
    ensures var n := Placed(ctx, sigs, keys, subscript, codesep);
            Placed(ctx, sigs[..i], keys, subscript, codesep) == if n < i then n else i
    decreases |keys|
  {
    hide Accepts;
    if sigs == [] || keys == [] || i == 0 {
    } else {
      assert sigs[..i][0] == sigs[0] && sigs[..i][1..] == sigs[1..][..i - 1];
      if Accepts(ctx, keys[0], sigs[0], subscript, codesep) {
        PlacedOfPrefix(ctx, sigs[1..], keys[1..], subscript, codesep, i - 1);
      } else {
        PlacedOfPrefix(ctx, sigs, keys[1..], subscript, codesep, i);
      }
    }
  }

  /** Exactly when a key that cannot be parsed makes the matcher fail: if the
      keys in front of the first such key can take some of the signatures but
      not one more, and those left over are no more than the keys left. */
  lemma MalformedKeyFailsIff(
    ctx: Context, sigs: seq<Bytes>, front: seq<Bytes>, bad: Bytes, back: seq<Bytes>, subscript: Bytes, codesep: nat)
    requires AllParse(ctx, front) && ctx.parsePubkey(bad).Malformed?
    ensures CheckMultisig(ctx, sigs, front + ([bad] + back), subscript, codesep).Err? <==>
            exists i: nat ::
              && i < |sigs| <= i + 1 + |back|
              && CanTake(ctx, sigs, i, front, subscript, codesep)
              && !CanTake(ctx, sigs, i + 1, front, subscript, codesep)
  {
    hide Accepts, CanTake;
    var rest := [bad] + back;
    MatcherGoesOn(ctx, sigs, front, rest, subscript, codesep);
    var n := Placed(ctx, sigs, front, subscript, codesep);
    forall i: nat | i <= |sigs|
      ensures i <= n <==> CanTake(ctx, sigs, i, front, subscript, codesep)
    {
      PlacedIsMost(ctx, sigs, front, subscript, codesep, i);
    }
    if n < |sigs| {
      assert sigs[n..] != [] && rest[0] == bad;
      assert CanTake(ctx, sigs, n, front, subscript, codesep) && !CanTake(ctx, sigs, n + 1, front, subscript, codesep);
    }
  }
}
