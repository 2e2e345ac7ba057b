/** Runs of operations that hand out undos, and undoing them last first. */
module Runs {
  import opened Wrappers

  /** A run of operations that all succeed, and their undos in order. */
  function ApplyAll<S, O, U, E>(apply: (S, O) -> Result<(S, U), E>, s: S, ops: seq<O>): Result<(S, seq<U>), E>
    decreases |ops|
  {
    if ops == [] then Ok((s, []))
    else
      var (s', u) :- apply(s, ops[0]);
      var (s'', us) :- ApplyAll(apply, s', ops[1..]);
      Ok((s'', [u] + us))
  }

  /** The undos, last first. */
  function UndoAll<S, U, E>(undo: (S, U) -> Result<S, E>, s: S, us: seq<U>): Result<S, E>
    decreases |us|
  {
    if us == [] then Ok(s)
    else
      var s' :- UndoAll(undo, s, us[1..]);
      undo(s', us[0])
  }

  /** A run with earlier undos put in front of its own. */
  function Prepend<S, U, E>(before: seq<U>, r: Result<(S, seq<U>), E>): Result<(S, seq<U>), E> {
    if r.Err? then r else Ok((r.value.0, before + r.value.1))
  }

  lemma PrependStep<S, O, U, E>(apply: (S, O) -> Result<(S, U), E>, s: S, before: seq<U>, ops: seq<O>)
    requires ops != []
    ensures Prepend(before, ApplyAll(apply, s, ops)) ==
            if apply(s, ops[0]).Err? then Err(apply(s, ops[0]).error)
            else
              var (s', u) := apply(s, ops[0]).value;
              Prepend(before + [u], ApplyAll(apply, s', ops[1..]))
  {
    if ApplyAll(apply, s, ops).Ok? {
      var (s', u) := apply(s, ops[0]).value;
      var us := ApplyAll(apply, s', ops[1..]).value.1;
      assert before + ([u] + us) == (before + [u]) + us;
    }
  }

  /** An undo that fails ends the whole. */
  lemma {:induction false} UndoStops<S, U, E>(undo: (S, U) -> Result<S, E>, s: S, us: seq<U>, i: nat)
    requires i <= |us| && UndoAll(undo, s, us[i..]).Err?
    ensures UndoAll(undo, s, us) == UndoAll(undo, s, us[i..])
    decreases i
  {
    if i == 0 {
      assert us[0..] == us;
    } else {
      assert us[i - 1..][1..] == us[i..];
      UndoStops(undo, s, us, i - 1);
    }
  }
}
