/** Iterative depth-first post-order traversal of a DAG
    (utils/src/graph_traversals.rs). */
module PostOrder {
  import opened Wrappers

  /** A node with the children that are still to be looked at. */
  datatype Frame<T> = Frame(pending: seq<T>, item: T)

  /** The graph as the caller gives it, by its children; the finite set of
      nodes it lives in takes no part in the traversal. */
  datatype Graph<!T(==)> = Graph(children: T -> seq<T>, ghost nodes: set<T>)

  /** The nodes are closed under children, and no edge lies on a cycle. */
  ghost predicate FiniteDag<T(!new)>(g: Graph<T>) {
    forall x, c :: x in g.nodes && c in g.children(x) ==> c in g.nodes && !Reach(g, c, x)
  }

  // ---------- reachability and the promised order ----------

  ghost predicate IsPath<T(!new)>(g: Graph<T>, p: seq<T>) {
    forall i :: 0 <= i < |p| - 1 ==> p[i + 1] in g.children(p[i])
  }

  ghost predicate PathFromTo<T(!new)>(g: Graph<T>, p: seq<T>, x: T, y: T) {
    p != [] && p[0] == x && p[|p| - 1] == y && IsPath(g, p)
  }

  ghost predicate Reach<T(!new)>(g: Graph<T>, x: T, y: T) {
    exists p :: PathFromTo(g, p, x, y)
  }

  lemma ReachSelf<T(!new)>(g: Graph<T>, x: T)
    ensures Reach(g, x, x)
  {
    assert PathFromTo(g, [x], x, x);
  }

  lemma ReachStep<T(!new)>(g: Graph<T>, x: T, y: T, c: T)
    requires Reach(g, x, y) && c in g.children(y)
    ensures Reach(g, x, c)
  {
    var p :| PathFromTo(g, p, x, y);
    var q := p + [c];
    forall i | 0 <= i < |q| - 1 ensures q[i + 1] in g.children(q[i]) {
      if i < |p| - 1 { assert q[i] == p[i] && q[i + 1] == p[i + 1]; }
    }
    assert PathFromTo(g, q, x, c);
  }

  lemma ReachFrom<T(!new)>(g: Graph<T>, x: T, c: T, y: T)
    requires c in g.children(x) && Reach(g, c, y)
    ensures Reach(g, x, y)
  {
    var p :| PathFromTo(g, p, c, y);
    var q := [x] + p;
    forall i | 0 <= i < |q| - 1 ensures q[i + 1] in g.children(q[i]) {
      if i > 0 { assert q[i] == p[i - 1] && q[i + 1] == p[i]; }
    }
    assert PathFromTo(g, q, x, y);
  }

  /** How many nodes can be reached: a topological numbering of a DAG. */
  ghost function Rank<T(!new)>(g: Graph<T>, x: T): nat {
    |set y | y in g.nodes && Reach(g, x, y)|
  }

  lemma RankDrops<T(!new)>(g: Graph<T>, x: T, c: T)
    requires FiniteDag(g) && x in g.nodes && c in g.children(x)
    ensures Rank(g, c) < Rank(g, x)
  {
    var below, all := set y | y in g.nodes && Reach(g, c, y), set y | y in g.nodes && Reach(g, x, y);
    forall y | y in below ensures y in all {
      ReachFrom(g, x, c, y);
    }
    ReachSelf(g, x);
    SubsetSmaller(below, all - {x});
  }

  lemma {:induction false} SubsetSmaller<T>(a: set<T>, b: set<T>)
    requires a <= b
    ensures |a| <= |b|
    decreases a
  {
    if a == {} {
    } else {
      var x :| x in a;
      SubsetSmaller(a - {x}, b - {x});
    }
  }

  ghost predicate Distinct<T>(s: seq<T>) {
    forall i, j :: 0 <= i < j < |s| ==> s[i] != s[j]
  }

  /** Every element stands after all of its children. */
  ghost predicate ChildrenFirst<T(!new)>(g: Graph<T>, out: seq<T>) {
    forall i, c :: 0 <= i < |out| && c in g.children(out[i]) ==> c in out[..i]
  }

  /** No root can be reached from an earlier one (so no root comes twice). */
  ghost predicate RootsOrdered<T(!new)>(g: Graph<T>, roots: seq<T>) {
    forall i, j :: 0 <= i < j < |roots| ==> !Reach(g, roots[i], roots[j])
  }

  ghost predicate FromRoots<T(!new)>(g: Graph<T>, roots: seq<T>, x: T) {
    exists i :: 0 <= i < |roots| && Reach(g, roots[i], x)
  }

  // ---------- the state of a traversal ----------

  /** What has been emitted, the stack with the node in hand on top, and how
      many roots have been emitted as roots, at which positions. */
  datatype Config<!T> = Config(out: seq<T>, stack: seq<Frame<T>>, done: nat, at: seq<nat>)

  ghost function Visited<T>(c: Config<T>): set<T> {
    (set x | x in c.out) + (set i | 0 <= i < |c.stack| :: c.stack[i].item)
  }

  /** How many children of a frame have been looked at. */
  ghost function Looked<T>(g: Graph<T>, f: Frame<T>): int {
    |g.children(f.item)| - |f.pending|
  }

  /** Roots not yet emitted lie at the bottom, the last one lowest; all but the
      uppermost of them are untouched, and above it lies a path. */
  ghost predicate Shape<T(!new)>(g: Graph<T>, roots: seq<T>, c: Config<T>) {
    var left := |roots| - c.done;
    && 0 <= left <= |c.stack|
    && (left == 0 ==> c.stack == [])
    && (forall i :: 0 <= i < left ==> c.stack[i].item == roots[|roots| - 1 - i])
    && (forall i :: 0 <= i < left - 1 ==> c.stack[i].pending == g.children(c.stack[i].item))
    && (forall i :: 0 <= i < |c.stack| ==> FrameOk(g, c.stack[i]))
  }

  /** What is pending are the last children. */
  ghost predicate FrameOk<T>(g: Graph<T>, f: Frame<T>) {
    0 <= Looked(g, f) && f.pending == g.children(f.item)[Looked(g, f)..]
  }

  /** The path in hand starts at the current root and goes down in rank. */
  ghost predicate OnPath<T(!new)>(g: Graph<T>, roots: seq<T>, c: Config<T>)
    requires Shape(g, roots, c)
  {
    var low := |roots| - c.done - 1;
    && (forall i :: 0 <= low <= i < |c.stack| ==> Reach(g, roots[c.done], c.stack[i].item))
    && (forall i, j :: 0 <= low <= i < j < |c.stack| ==> Rank(g, c.stack[j].item) < Rank(g, c.stack[i].item))
  }

  /** Whatever was looked at has been visited, and everything visited can be
      reached from a root. */
  ghost predicate Coverage<T(!new)>(g: Graph<T>, roots: seq<T>, c: Config<T>) {
    && (forall r :: r in roots ==> r in Visited(c))
    && (forall x :: x in Visited(c) ==> FromRoots(g, roots, x))
    && (forall x, y :: x in c.out && y in g.children(x) ==> y in Visited(c))
    && LookedIn(g, c, Visited(c))
  }

  ghost predicate LookedIn<T(!new)>(g: Graph<T>, c: Config<T>, s: set<T>) {
    forall i, k :: 0 <= i < |c.stack| && 0 <= k < Looked(g, c.stack[i]) && k < |g.children(c.stack[i].item)| ==>
      g.children(c.stack[i].item)[k] in s
  }

  /** Roots are emitted in their own order. */
  ghost predicate RootTrace<T>(roots: seq<T>, c: Config<T>) {
    && |c.at| == c.done <= |roots|
    && (forall i :: 0 <= i < c.done ==> c.at[i] < |c.out| && c.out[c.at[i]] == roots[i])
    && (forall i, j :: 0 <= i < j < c.done ==> c.at[i] < c.at[j])
  }

  ghost predicate Inv<T(!new)>(g: Graph<T>, roots: seq<T>, c: Config<T>) {
    && Shape(g, roots, c)
    && OnPath(g, roots, c)
    && Coverage(g, roots, c)
    && RootTrace(roots, c)
  }

  /** With ordered roots, a child that was looked at is out already, unless it
      is the next node of the path. */
  ghost predicate Settled<T(!new)>(g: Graph<T>, c: Config<T>) {
    && ChildrenFirst(g, c.out)
    && Distinct(c.out)
    && (forall i :: 0 <= i < |c.stack| ==> c.stack[i].item !in c.out)
    && (forall i, j :: 0 <= i < j < |c.stack| ==> c.stack[i].item != c.stack[j].item)
    && (forall i :: 0 <= i < |c.stack| ==> LookedSettled(g, c, i))
  }

  ghost predicate LookedSettled<T(!new)>(g: Graph<T>, c: Config<T>, i: nat)
    requires i < |c.stack|
  {
    forall k :: 0 <= k < Looked(g, c.stack[i]) && k < |g.children(c.stack[i].item)| ==>
      var y := g.children(c.stack[i].item)[k];
      y in c.out || (i + 1 < |c.stack| && y == c.stack[i + 1].item)
  }

  // ---------- the three moves ----------

  ghost function Top<T>(c: Config<T>): Frame<T>
    requires c.stack != []
  {
    c.stack[|c.stack| - 1]
  }

  /** The next child was visited before: leave it. */
  ghost function Skip<T>(c: Config<T>): Config<T>
    requires c.stack != [] && Top(c).pending != []
  {
    c.(stack := c.stack[|c.stack| - 1 := Frame(Top(c).pending[1..], Top(c).item)])
  }

  /** The next child is new: put it on top. */
  ghost function Descend<T>(g: Graph<T>, c: Config<T>): Config<T>
    requires c.stack != [] && Top(c).pending != []
  {
    var x := Top(c).pending[0];
    Skip(c).(stack := Skip(c).stack + [Frame(g.children(x), x)])
  }

  /** No children left: emit the node. */
  ghost function Emit<T>(roots: seq<T>, c: Config<T>): Config<T>
    requires c.stack != [] && c.done <= |roots|
  {
    var rest := c.stack[..|c.stack| - 1];
    if |c.stack| == |roots| - c.done then
      Config(c.out + [Top(c).item], rest, c.done + 1, c.at + [|c.out|])
    else
      Config(c.out + [Top(c).item], rest, c.done, c.at)
  }

  /** The moves, for a stack given as its lower part and the node in hand. */
  lemma Moves<T>(g: Graph<T>, roots: seq<T>, c: Config<T>, below: seq<Frame<T>>, f: Frame<T>)
    requires c.stack == below + [f] && c.done <= |roots|
    ensures Top(c) == f
    ensures f.pending != [] ==>
              && Skip(c) == c.(stack := below + [Frame(f.pending[1..], f.item)])
              && Descend(g, c) == c.(stack := below + [Frame(f.pending[1..], f.item)]
                                              + [Frame(g.children(f.pending[0]), f.pending[0])])
    ensures Emit(roots, c).stack == below && Emit(roots, c).out == c.out + [f.item]
  {
  }

  lemma InVisited<T>(c: Config<T>, x: T)
    ensures x in Visited(c) <==> x in c.out || exists i :: 0 <= i < |c.stack| && c.stack[i].item == x
  {
  }

  lemma VisitedSkip<T>(c: Config<T>)
    requires c.stack != [] && Top(c).pending != []
    ensures Visited(Skip(c)) == Visited(c)
  {
    forall x ensures x in Visited(Skip(c)) <==> x in Visited(c) {
      InVisited(c, x);
      InVisited(Skip(c), x);
      forall i | 0 <= i < |c.stack| ensures Skip(c).stack[i].item == c.stack[i].item {
      }
    }
  }

  lemma VisitedDescend<T>(g: Graph<T>, c: Config<T>)
    requires c.stack != [] && Top(c).pending != []
    ensures Visited(Descend(g, c)) == Visited(c) + {Top(c).pending[0]}
  {
    VisitedSkip(c);
    var c1, c2 := Skip(c), Descend(g, c);
    var n := |c1.stack|;
    forall x ensures x in Visited(c2) <==> x in Visited(c1) || x == Top(c).pending[0] {
      InVisited(c1, x);
      InVisited(c2, x);
      assert c2.stack[n].item == Top(c).pending[0];
      forall i | 0 <= i < n ensures c2.stack[i] == c1.stack[i] {
      }
    }
  }

  lemma VisitedEmit<T>(roots: seq<T>, c: Config<T>)
    requires c.stack != [] && c.done <= |roots|
    ensures Visited(Emit(roots, c)) == Visited(c)
  {
    var c1 := Emit(roots, c);
    var n := |c1.stack|;
    forall x ensures x in Visited(c1) <==> x in Visited(c) {
      InVisited(c, x);
      InVisited(c1, x);
      assert c.stack[n].item == Top(c).item;
      forall i | 0 <= i < n ensures c1.stack[i] == c.stack[i] {
      }
      assert x in c1.out <==> x in c.out || x == Top(c).item;
    }
  }

  lemma NextChild<T>(g: Graph<T>, f: Frame<T>)
    requires FrameOk(g, f) && f.pending != []
    ensures var k := Looked(g, f);
            && 0 <= k < |g.children(f.item)| && g.children(f.item)[k] == f.pending[0]
            && var f' := Frame(f.pending[1..], f.item);
            && FrameOk(g, f') && Looked(g, f') == k + 1
  {
    var k, kids := Looked(g, f), g.children(f.item);
    assert kids[k..][1..] == kids[k + 1..];
  }

  lemma ShapeSkip<T(!new)>(g: Graph<T>, roots: seq<T>, c: Config<T>)
    requires Shape(g, roots, c) && c.stack != [] && Top(c).pending != []
    ensures Shape(g, roots, Skip(c))
  {
    hide FrameOk;
    NextChild(g, Top(c));
  }

  lemma ShapeDescend<T(!new)>(g: Graph<T>, roots: seq<T>, c: Config<T>)
    requires Shape(g, roots, c) && c.stack != [] && Top(c).pending != []
    ensures Shape(g, roots, Descend(g, c))
  {
    ShapeSkip(g, roots, c);
    var c1, c2 := Skip(c), Descend(g, c);
    var n := |c1.stack|;
    assert FrameOk(g, c2.stack[n]);
    hide FrameOk;
    forall i | 0 <= i < n ensures c2.stack[i] == c1.stack[i] {
    }
  }

  lemma ShapeEmit<T(!new)>(g: Graph<T>, roots: seq<T>, c: Config<T>)
    requires Shape(g, roots, c) && c.stack != [] && Top(c).pending == []
    ensures Shape(g, roots, Emit(roots, c))
  {
    hide FrameOk;
  }

  lemma OnPathSkip<T(!new)>(g: Graph<T>, roots: seq<T>, c: Config<T>)
    requires Shape(g, roots, c) && OnPath(g, roots, c) && c.stack != [] && Top(c).pending != []
    ensures Shape(g, roots, Skip(c)) && OnPath(g, roots, Skip(c))
  {
    hide FrameOk;
    ShapeSkip(g, roots, c);
    NextChild(g, Top(c));
    var c1 := Skip(c);
    forall i | 0 <= i < |c.stack| ensures c1.stack[i].item == c.stack[i].item {
    }
  }

  lemma OnPathDescend<T(!new)>(g: Graph<T>, roots: seq<T>, c: Config<T>)
    requires FiniteDag(g)
    requires Shape(g, roots, c) && OnPath(g, roots, c) && c.stack != [] && Top(c).pending != []
    requires Top(c).item in g.nodes
    ensures Shape(g, roots, Descend(g, c)) && OnPath(g, roots, Descend(g, c))
  {
    hide FrameOk;
    ShapeDescend(g, roots, c);
    NextChild(g, Top(c));
    var c1 := Descend(g, c);
    var low, n := |roots| - c.done - 1, |c.stack|;
    var x, y := Top(c).item, Top(c).pending[0];
    assert y in g.children(x);
    RankDrops(g, x, y);
    forall i | 0 <= i < n ensures c1.stack[i].item == c.stack[i].item {
    }
    assert c1.stack[n].item == y && c.stack[n - 1].item == x;
    assert Reach(g, roots[c.done], c.stack[n - 1].item);
    ReachStep(g, roots[c.done], x, y);
    forall i, j | 0 <= low <= i < j < |c1.stack| ensures Rank(g, c1.stack[j].item) < Rank(g, c1.stack[i].item) {
      if j == n && i < n - 1 {
        assert Rank(g, c.stack[n - 1].item) < Rank(g, c.stack[i].item);
      }
    }
  }

  lemma OnPathEmit<T(!new)>(g: Graph<T>, roots: seq<T>, c: Config<T>)
    requires Shape(g, roots, c) && OnPath(g, roots, c) && c.stack != [] && Top(c).pending == []
    ensures Shape(g, roots, Emit(roots, c)) && OnPath(g, roots, Emit(roots, c))
  {
    hide FrameOk;
    ShapeEmit(g, roots, c);
    var c1 := Emit(roots, c);
    forall i | 0 <= i < |c1.stack| ensures c1.stack[i] == c.stack[i] {
    }
    if c1.done > c.done && c1.stack != [] {
      var low := |roots| - c1.done - 1;
      assert c1.stack[low].item == roots[c1.done];
      ReachSelf(g, roots[c1.done]);
    }
  }

  lemma CoverageSkip<T(!new)>(g: Graph<T>, roots: seq<T>, c: Config<T>)
    requires Shape(g, roots, c) && Coverage(g, roots, c) && c.stack != [] && Top(c).pending != []
    requires Top(c).pending[0] in Visited(c)
    ensures Coverage(g, roots, Skip(c))
  {
    hide FrameOk;
    NextChild(g, Top(c));
    VisitedSkip(c);
    LookedAfterSkip(g, roots, c);
    assert Visited(c) + {Top(c).pending[0]} == Visited(c);
  }

  /** After the next child was visited, all looked at are visited. */
  lemma LookedAfterSkip<T(!new)>(g: Graph<T>, roots: seq<T>, c: Config<T>)
    requires Shape(g, roots, c) && c.stack != [] && Top(c).pending != []
    requires LookedIn(g, c, Visited(c))
    ensures LookedIn(g, Skip(c), Visited(c) + {Top(c).pending[0]})
  {
    hide FrameOk;
    NextChild(g, Top(c));
    var c1 := Skip(c);
    forall i, k | 0 <= i < |c1.stack| && 0 <= k < Looked(g, c1.stack[i]) && k < |g.children(c1.stack[i].item)|
      ensures g.children(c1.stack[i].item)[k] in Visited(c) + {Top(c).pending[0]}
    {
      assert c1.stack[i].item == c.stack[i].item;
      if k < Looked(g, c.stack[i]) {
        assert g.children(c.stack[i].item)[k] in Visited(c);
      }
    }
  }

  lemma CoverageDescend<T(!new)>(g: Graph<T>, roots: seq<T>, c: Config<T>)
    requires Shape(g, roots, c) && Coverage(g, roots, c) && c.stack != [] && Top(c).pending != []
    ensures Coverage(g, roots, Descend(g, c))
  {
    hide FrameOk;
    NextChild(g, Top(c));
    VisitedDescend(g, c);
    LookedAfterSkip(g, roots, c);
    var c1 := Descend(g, c);
    var n := |c.stack|;
    var x, y := Top(c).item, Top(c).pending[0];
    forall i, k | 0 <= i < |c1.stack| && 0 <= k < Looked(g, c1.stack[i]) && k < |g.children(c1.stack[i].item)|
      ensures g.children(c1.stack[i].item)[k] in Visited(c1)
    {
      if i < n {
        assert c1.stack[i] == Skip(c).stack[i];
      }
    }
    assert FromRoots(g, roots, y) by {
      assert x == c.stack[n - 1].item;
      InVisited(c, x);
      var r :| 0 <= r < |roots| && Reach(g, roots[r], x);
      ReachStep(g, roots[r], x, y);
    }
  }

  lemma CoverageEmit<T(!new)>(g: Graph<T>, roots: seq<T>, c: Config<T>)
    requires Shape(g, roots, c) && Coverage(g, roots, c) && c.stack != [] && Top(c).pending == []
    ensures Coverage(g, roots, Emit(roots, c))
  {
    hide FrameOk, FromRoots, Visited;
    VisitedEmit(roots, c);
    var c1 := Emit(roots, c);
    var top := |c.stack| - 1;
    forall i | 0 <= i < top ensures c1.stack[i] == c.stack[i] {
    }
    forall x, y | x in c1.out && y in g.children(x) ensures y in Visited(c1) {
      if x !in c.out {
        assert x == c.stack[top].item;
        var k :| 0 <= k < |g.children(x)| && g.children(x)[k] == y;
        assert k < Looked(g, c.stack[top]);
      }
    }
  }

  lemma TraceKept<T(!new)>(g: Graph<T>, roots: seq<T>, c: Config<T>)
    requires Shape(g, roots, c) && RootTrace(roots, c) && c.stack != []
    ensures RootTrace(roots, Emit(roots, c))
  {
    hide FrameOk;
    var c1 := Emit(roots, c);
    forall i | 0 <= i < c.done ensures c1.out[c.at[i]] == roots[i] {
    }
  }

  // ---------- the order, for ordered roots ----------

  /** A visited child of the node in hand has been emitted. */
  lemma VisitedChildIsOut<T(!new)>(g: Graph<T>, roots: seq<T>, c: Config<T>, y: T)
    requires FiniteDag(g) && RootsOrdered(g, roots)
    requires Shape(g, roots, c) && OnPath(g, roots, c) && c.stack != []
    requires Top(c).item in g.nodes && y in g.children(Top(c).item) && y in Visited(c)
    ensures y in c.out
  {
    hide FrameOk;
    InVisited(c, y);
    var low, n := |roots| - c.done - 1, |c.stack|;
    var x := c.stack[n - 1].item;
    assert Reach(g, roots[c.done], c.stack[n - 1].item);
    ReachStep(g, roots[c.done], x, y);
    RankDrops(g, x, y);
    forall j | 0 <= j < n ensures c.stack[j].item != y {
      if j < low {
        assert c.stack[j].item == roots[|roots| - 1 - j];
        assert !Reach(g, roots[c.done], roots[|roots| - 1 - j]);
      } else if j < n - 1 {
        assert Rank(g, c.stack[n - 1].item) < Rank(g, c.stack[j].item);
      }
    }
  }

  lemma SettledSkip<T(!new)>(g: Graph<T>, roots: seq<T>, c: Config<T>)
    requires Shape(g, roots, c) && Settled(g, c) && c.stack != [] && Top(c).pending != []
    requires Top(c).pending[0] in c.out
    ensures Shape(g, roots, Skip(c)) && Settled(g, Skip(c))
  {
    hide FrameOk;
    ShapeSkip(g, roots, c);
    NextChild(g, Top(c));
    var c1 := Skip(c);
    var top := |c.stack| - 1;
    forall i | 0 <= i < |c.stack| ensures c1.stack[i].item == c.stack[i].item {
    }
    forall i | 0 <= i < |c1.stack| ensures LookedSettled(g, c1, i) {
      assert LookedSettled(g, c, i);
    }
  }

  lemma SettledDescend<T(!new)>(g: Graph<T>, roots: seq<T>, c: Config<T>)
    requires Shape(g, roots, c) && Settled(g, c) && c.stack != [] && Top(c).pending != []
    requires Top(c).pending[0] !in Visited(c)
    ensures Shape(g, roots, Descend(g, c)) && Settled(g, Descend(g, c))
  {
    hide FrameOk;
    ShapeDescend(g, roots, c);
    NextChild(g, Top(c));
    var c1 := Descend(g, c);
    var n, y := |c.stack|, Top(c).pending[0];
    InVisited(c, y);
    forall i | 0 <= i < n ensures c1.stack[i].item == c.stack[i].item != y {
    }
    assert c1.stack[n].item == y;
    forall i | 0 <= i < |c1.stack| ensures LookedSettled(g, c1, i) {
      if i < n { assert LookedSettled(g, c, i); }
    }
  }

  lemma SettledEmit<T(!new)>(g: Graph<T>, roots: seq<T>, c: Config<T>)
    requires Shape(g, roots, c) && Settled(g, c) && c.stack != [] && Top(c).pending == []
    ensures Shape(g, roots, Emit(roots, c)) && Settled(g, Emit(roots, c))
  {
    hide FrameOk;
    ShapeEmit(g, roots, c);
    var c1 := Emit(roots, c);
    var top := |c.stack| - 1;
    var x := c.stack[top].item;
    forall i | 0 <= i < top ensures c1.stack[i] == c.stack[i] {
    }
    assert LookedSettled(g, c, top);
    forall i, y | 0 <= i < |c1.out| && y in g.children(c1.out[i]) ensures y in c1.out[..i] {
      if i < |c.out| {
        assert c1.out[..i] == c.out[..i];
      } else {
        assert c1.out[..i] == c.out;
        var k :| 0 <= k < |g.children(x)| && g.children(x)[k] == y;
        assert k < Looked(g, c.stack[top]);
      }
    }
    forall i | 0 <= i < top ensures LookedSettled(g, c1, i) {
      assert LookedSettled(g, c, i);
    }
  }

  // ---------- finished traversals ----------

  lemma {:induction false} ClosedContainsPath<T(!new)>(g: Graph<T>, out: seq<T>, p: seq<T>)
    requires p != [] && IsPath(g, p) && p[0] in out
    requires forall x, y :: x in out && y in g.children(x) ==> y in out
    ensures p[|p| - 1] in out
    decreases |p|
  {
    if |p| > 1 {
      var q := p[1..];
      assert p[1] in g.children(p[0]);
      forall i | 0 <= i < |q| - 1 ensures q[i + 1] in g.children(q[i]) {
        assert q[i] == p[i + 1] && q[i + 1] == p[i + 2];
      }
      ClosedContainsPath(g, out, q);
    }
  }

  /** A finished traversal has emitted exactly the nodes reachable from the
      roots, whatever the roots are. */
  lemma FinishedCovers<T(!new)>(g: Graph<T>, roots: seq<T>, c: Config<T>)
    requires Inv(g, roots, c) && c.stack == []
    ensures forall x :: x in c.out <==> FromRoots(g, roots, x)
  {
    hide FrameOk;
    assert forall x :: x in Visited(c) <==> x in c.out;
    forall x ensures x in c.out <==> FromRoots(g, roots, x) {
      if FromRoots(g, roots, x) {
        var i :| 0 <= i < |roots| && Reach(g, roots[i], x);
        var p :| PathFromTo(g, p, roots[i], x);
        assert roots[i] in roots;
        ClosedContainsPath(g, c.out, p);
      }
    }
  }

  /** In an order with children first, whatever can be reached comes earlier. */
  lemma {:induction false} ReachedIsEarlier<T(!new)>(g: Graph<T>, out: seq<T>, p: seq<T>, at: nat) returns (j: nat)
    requires ChildrenFirst(g, out) && p != [] && IsPath(g, p)
    requires at < |out| && out[at] == p[0]
    ensures j <= at && out[j] == p[|p| - 1]
    decreases |p|
  {
    if |p| == 1 {
      return at;
    }
    assert p[1] in g.children(p[0]);
    var k :| 0 <= k < |out[..at]| && out[..at][k] == p[1];
    var q := p[1..];
    forall i | 0 <= i < |q| - 1 ensures q[i + 1] in g.children(q[i]) {
      assert q[i] == p[i + 1] && q[i + 1] == p[i + 2];
    }
    j := ReachedIsEarlier(g, out, q, k);
  }

  /** The order comes out right only for ordered roots. */
  lemma OrderNeedsOrderedRoots<T(!new)>(g: Graph<T>, roots: seq<T>, c: Config<T>)
    requires Inv(g, roots, c) && c.stack == []
    requires ChildrenFirst(g, c.out) && Distinct(c.out)
    ensures RootsOrdered(g, roots)
  {
    hide FrameOk;
    assert c.done == |roots|;
    forall i, j | 0 <= i < j < |roots| ensures !Reach(g, roots[i], roots[j]) {
      if Reach(g, roots[i], roots[j]) {
        var p :| PathFromTo(g, p, roots[i], roots[j]);
        var k := ReachedIsEarlier(g, c.out, p, c.at[i]);
        assert false;
      }
    }
  }

  /** Roots 0 and 1, where 1 is the child of 0. The traversal starts with both
      on the stack and visited, so it skips the child of 0 and emits 0 before
      1. */
  lemma ChildRootExample()
    ensures var g := Graph((x: nat) => if x == 0 then [1] else [], {0, 1});
            var roots := [0, 1];
            var start := Config([], [Frame([], 1), Frame([1], 0)], 0, []);
            var end := Emit(roots, Emit(roots, Skip(start)));
            && FiniteDag(g) && !RootsOrdered(g, roots)
            && Top(start).pending[0] in Visited(start)
            && end.stack == [] && end.out == [0, 1] && !ChildrenFirst(g, end.out)
  {
    var g := Graph((x: nat) => if x == 0 then [1] else [], {0, 1});
    forall x, c | x in g.nodes && c in g.children(x) ensures c in g.nodes && !Reach(g, c, x) {
      forall p ensures !PathFromTo(g, p, c, x) {
        if |p| > 1 && p[0] == 1 { assert p[0 + 1] !in g.children(p[0]); }
      }
    }
    assert PathFromTo(g, [0, 1], 0, 1);
    var start := Config([], [Frame([], 1), Frame([1], 0)], 0, []);
    InVisited(start, 1);
    assert start.stack[0].item == 1;
    assert 1 in g.children(0);
  }

  // ---------- the recursive order ----------

  /** Children of nodes are nodes. */
  ghost predicate Closed<T(!new)>(g: Graph<T>) {
    forall x, c :: x in g.nodes && c in g.children(x) ==> c in g.nodes
  }

  ghost predicate Inside<T(!new)>(g: Graph<T>, xs: seq<T>) {
    forall x :: x in xs ==> x in g.nodes
  }

  /** Depth-first post-order by recursion: what is emitted for a list of
      children, given the nodes seen before, and the nodes seen then. */
  ghost function Visit<T(!new)>(g: Graph<T>, xs: seq<T>, seen: set<T>): (r: (seq<T>, set<T>))
    requires Closed(g) && Inside(g, xs)
    ensures seen <= r.1
    decreases |g.nodes - seen|, |xs|
  {
    if xs == [] then ([], seen)
    else if xs[0] in seen then Visit(g, xs[1..], seen)
    else
      SmallerRest(g.nodes, seen, xs[0]);
      var (under, seen1) := Visit(g, g.children(xs[0]), seen + {xs[0]});
      SubsetSmaller(g.nodes - seen1, g.nodes - (seen + {xs[0]}));
      var (after, seen2) := Visit(g, xs[1..], seen1);
      (under + [xs[0]] + after, seen2)
  }

  ghost function VisitRoots<T(!new)>(g: Graph<T>, roots: seq<T>, seen: set<T>): seq<T>
    requires Closed(g) && Inside(g, roots)
  {
    if roots == [] then []
    else
      var (under, seen1) := Visit(g, g.children(roots[0]), seen);
      under + [roots[0]] + VisitRoots(g, roots[1..], seen1)
  }

  /** The roots in turn, all of them seen from the start. */
  ghost function DepthFirst<T(!new)>(g: Graph<T>, roots: seq<T>): seq<T>
    requires Closed(g) && Inside(g, roots)
  {
    VisitRoots(g, roots, set r | r in roots)
  }

  ghost predicate StackInside<T(!new)>(g: Graph<T>, stack: seq<Frame<T>>) {
    forall i :: 0 <= i < |stack| ==> Inside(g, stack[i].pending)
  }

  /** What the recursion still has to emit for a stack. */
  ghost function Unwind<T(!new)>(g: Graph<T>, stack: seq<Frame<T>>, seen: set<T>): seq<T>
    requires Closed(g) && StackInside(g, stack)
  {
    if stack == [] then []
    else
      var n := |stack| - 1;
      var (under, seen1) := Visit(g, stack[n].pending, seen);
      under + [stack[n].item] + Unwind(g, stack[..n], seen1)
  }

  lemma UnwindTop<T(!new)>(g: Graph<T>, below: seq<Frame<T>>, f: Frame<T>, seen: set<T>)
    requires Closed(g) && StackInside(g, below) && Inside(g, f.pending)
    ensures StackInside(g, below + [f])
    ensures var (under, seen1) := Visit(g, f.pending, seen);
            Unwind(g, below + [f], seen) == under + [f.item] + Unwind(g, below, seen1)
  {
    hide Visit, Inside;
    var stack := below + [f];
    assert forall i :: 0 <= i < |stack| ==> stack[i] == if i < |below| then below[i] else f;
    assert stack[..|stack| - 1] == below;
  }

  /** Leaving a child that was seen, going down to one that was not, and emitting
      a node: the moves of the iterator are the steps of the recursion. */
  lemma UnwindSkip<T(!new)>(g: Graph<T>, below: seq<Frame<T>>, f: Frame<T>, seen: set<T>)
    requires Closed(g) && StackInside(g, below) && Inside(g, f.pending) && f.pending != [] && f.pending[0] in seen
    ensures Inside(g, f.pending[1..])
    ensures StackInside(g, below + [f]) && StackInside(g, below + [Frame(f.pending[1..], f.item)])
    ensures Unwind(g, below + [f], seen) == Unwind(g, below + [Frame(f.pending[1..], f.item)], seen)
  {
    hide Unwind;
    UnwindTop(g, below, f, seen);
    UnwindTop(g, below, Frame(f.pending[1..], f.item), seen);
  }

  lemma UnwindDescend<T(!new)>(g: Graph<T>, below: seq<Frame<T>>, f: Frame<T>, seen: set<T>)
    requires Closed(g) && StackInside(g, below) && Inside(g, f.pending) && f.pending != [] && f.pending[0] !in seen
    ensures var x := f.pending[0];
            var next := below + [Frame(f.pending[1..], f.item)];
            && StackInside(g, next) && Inside(g, g.children(x))
            && StackInside(g, below + [f]) && StackInside(g, next + [Frame(g.children(x), x)])
            && Unwind(g, below + [f], seen) == Unwind(g, next + [Frame(g.children(x), x)], seen + {x})
  {
    hide Unwind;
    var x, rest := f.pending[0], Frame(f.pending[1..], f.item);
    var next := below + [rest];
    UnwindTop(g, below, f, seen);
    var (under, seen1) := Visit(g, g.children(x), seen + {x});
    UnwindTop(g, below, rest, seen1);
    UnwindTop(g, next, Frame(g.children(x), x), seen + {x});
    var (after, seen2) := Visit(g, rest.pending, seen1);
    assert Visit(g, f.pending, seen) == (under + [x] + after, seen2);
    var tail := [f.item] + Unwind(g, below, seen2);
    assert under + [x] + after + tail == under + [x] + (after + tail);
  }

  lemma {:induction false} UnwindRoots<T(!new)>(g: Graph<T>, roots: seq<T>, stack: seq<Frame<T>>, seen: set<T>)
    requires Closed(g) && Inside(g, roots) && |stack| == |roots|
    requires forall i :: 0 <= i < |roots| ==>
               stack[i] == Frame(g.children(roots[|roots| - 1 - i]), roots[|roots| - 1 - i])
    ensures StackInside(g, stack)
    ensures Unwind(g, stack, seen) == VisitRoots(g, roots, seen)
    decreases |roots|
  {
    forall i | 0 <= i < |stack| ensures Inside(g, stack[i].pending) {
      assert roots[|roots| - 1 - i] in roots;
    }
    if roots == [] {
    } else {
      var (under, seen1) := Visit(g, g.children(roots[0]), seen);
      UnwindRoots(g, roots[1..], stack[..|stack| - 1], seen1);
    }
  }

  // ---------- the iterator ----------

  /** The traversal as an iterator that owns its stack and visited set. */
  class Traversal<T(!new, ==)> {
    const children: T -> seq<T>
    var stack: seq<Frame<T>>
    var visited: set<T>

    ghost const g: Graph<T>
    ghost const roots: seq<T>
    ghost var out: seq<T>
    ghost var done: nat
    ghost var at: seq<nat>

    ghost function State(): Config<T>
      reads this
    {
      Config(out, stack, done, at)
    }

    ghost predicate Valid()
      reads this
    {
      && g.children == children
      && FiniteDag(g)
      && visited == Visited(State())
      && visited <= g.nodes
      && Inv(g, roots, State())
      && (RootsOrdered(g, roots) ==> Settled(g, State()))
      && Closed(g) && Inside(g, roots) && StackInside(g, stack)
      && out + Unwind(g, stack, visited) == DepthFirst(g, roots)
    }

    constructor (roots: seq<T>, children: T -> seq<T>, ghost g: Graph<T>)
      requires g.children == children && FiniteDag(g)
      requires forall r :: r in roots ==> r in g.nodes
      ensures Valid() && out == [] && this.roots == roots && this.g == g
    {
      hide Inv, Settled, Visited, RootsOrdered, Unwind, VisitRoots, Visit, StackInside;
      this.children := children;
      this.g := g;
      this.roots := roots;
      var n := |roots|;
      stack := seq(n, i requires 0 <= i < n => Frame(children(roots[n - 1 - i]), roots[n - 1 - i]));
      visited := set r | r in roots;
      out, done, at := [], 0, [];
      new;
      Started(g, roots, State());
      UnwindRoots(g, roots, stack, visited);
    }

    /** Visited nodes that are still on the stack, plus nodes not yet seen:
        each call uses one up. */
    ghost function Remaining(): nat
      reads this
    {
      |stack| + |g.nodes - visited|
    }

    /** The next node: goes down until a node has no unvisited children. */
    method Next() returns (r: Option<T>)
      requires Valid()
      modifies this
      ensures Valid()
      ensures old(stack) == [] ==> r == None && out == old(out) && stack == []
      ensures old(stack) != [] ==> r.Some? && out == old(out) + [r.value] && Remaining() < old(Remaining())
    {
      hide Inv, Settled, Visited, FiniteDag, RootsOrdered, Top, Skip, Descend, Emit;
      hide Unwind, DepthFirst, Closed, Inside, StackInside;
      if stack == [] {
        return None;
      }
      InvBounds(g, roots, State());
      var top := stack[|stack| - 1];
      stack := stack[..|stack| - 1];
      var pending, item := top.pending, top.item;
      ghost var c := old(State());
      assert stack + [top] == old(stack);
      StackParts(g, stack, top);
      while pending != []
        invariant c == Config(out, stack + [Frame(pending, item)], done, at)
        invariant out == old(out) && done <= |roots|
        invariant visited == Visited(c) <= g.nodes
        invariant Inv(g, roots, c)
        invariant RootsOrdered(g, roots) ==> Settled(g, c)
        invariant |stack| + 1 + |g.nodes - visited| == old(Remaining())
        invariant StackInside(g, stack) && Inside(g, pending) && StackInside(g, stack + [Frame(pending, item)])
        invariant out + Unwind(g, stack + [Frame(pending, item)], visited) == DepthFirst(g, roots)
        decreases |g.nodes - visited|, |pending|
      {
        Moves(g, roots, c, stack, Frame(pending, item));
        var x := pending[0];
        if x in visited {
          UnwindSkip(g, stack, Frame(pending, item), visited);
        } else {
          UnwindDescend(g, stack, Frame(pending, item), visited);
        }
        pending := pending[1..];
        if x in visited {
          SkipKeeps(g, roots, c);
          c := Skip(c);
          continue;
        }
        DescendKeeps(g, roots, c);
        c := Descend(g, c);
        SmallerRest(g.nodes, visited, x);
        stack := stack + [Frame(pending, item)];
        visited := visited + {x};
        item := x;
        pending := children(item);
      }
      Moves(g, roots, c, stack, Frame(pending, item));
      EmitKeeps(g, roots, c);
      UnwindTop(g, stack, Frame(pending, item), visited);
      c := Emit(roots, c);
      out, done, at := c.out, c.done, c.at;
      assert c == State();
      r := Some(item);
    }
  }

  lemma StackParts<T(!new)>(g: Graph<T>, below: seq<Frame<T>>, f: Frame<T>)
    requires StackInside(g, below + [f])
    ensures StackInside(g, below) && Inside(g, f.pending)
  {
    var stack := below + [f];
    assert stack[|below|] == f;
    forall i | 0 <= i < |below| ensures Inside(g, below[i].pending) {
      assert stack[i] == below[i];
    }
  }

  lemma InvBounds<T(!new)>(g: Graph<T>, roots: seq<T>, c: Config<T>)
    requires Inv(g, roots, c)
    ensures c.done <= |roots|
  {
  }

  lemma SmallerRest<T>(nodes: set<T>, visited: set<T>, x: T)
    requires x in nodes && x !in visited
    ensures |nodes - (visited + {x})| + 1 == |nodes - visited|
  {
    assert nodes - visited == (nodes - (visited + {x})) + {x};
  }

  lemma Started<T(!new)>(g: Graph<T>, roots: seq<T>, c: Config<T>)
    requires c.out == [] && c.done == 0 && c.at == [] && |c.stack| == |roots|
    requires forall i :: 0 <= i < |roots| ==>
               c.stack[i] == Frame(g.children(roots[|roots| - 1 - i]), roots[|roots| - 1 - i])
    ensures Inv(g, roots, c) && Visited(c) == set r | r in roots
    ensures RootsOrdered(g, roots) ==> Settled(g, c)
  {
    var n := |roots|;
    forall x ensures x in Visited(c) <==> x in roots {
      InVisited(c, x);
      if x in roots {
        var k :| 0 <= k < n && roots[k] == x;
        assert c.stack[n - 1 - k].item == x;
      }
    }
    forall x | x in Visited(c) ensures FromRoots(g, roots, x) {
      var k :| 0 <= k < n && roots[k] == x;
      ReachSelf(g, x);
    }
    if n > 0 { ReachSelf(g, roots[0]); }
    if RootsOrdered(g, roots) {
      forall i, j | 0 <= i < j < n ensures c.stack[i].item != c.stack[j].item {
        ReachSelf(g, roots[n - 1 - j]);
        assert !Reach(g, roots[n - 1 - j], roots[n - 1 - i]);
      }
    }
  }

  lemma TopInHand<T(!new)>(g: Graph<T>, roots: seq<T>, c: Config<T>)
    requires Shape(g, roots, c) && c.stack != [] && Top(c).pending != []
    ensures Top(c).item in Visited(c)
    ensures Top(c).pending[0] in g.children(Top(c).item)
  {
    hide FrameOk;
    InVisited(c, Top(c).item);
    NextChild(g, Top(c));
  }

  lemma SkipKeeps<T(!new)>(g: Graph<T>, roots: seq<T>, c: Config<T>)
    requires FiniteDag(g) && Inv(g, roots, c) && c.stack != [] && Top(c).pending != []
    requires Top(c).pending[0] in Visited(c) && Visited(c) <= g.nodes
    requires RootsOrdered(g, roots) ==> Settled(g, c)
    ensures Inv(g, roots, Skip(c)) && Visited(Skip(c)) == Visited(c)
    ensures RootsOrdered(g, roots) ==> Settled(g, Skip(c))
  {
    hide Shape, OnPath, Coverage, Settled, RootsOrdered, Visited, FiniteDag;
    TopInHand(g, roots, c);
    OnPathSkip(g, roots, c);
    CoverageSkip(g, roots, c);
    VisitedSkip(c);
    if RootsOrdered(g, roots) {
      VisitedChildIsOut(g, roots, c, Top(c).pending[0]);
      SettledSkip(g, roots, c);
    }
  }

  lemma DescendKeeps<T(!new)>(g: Graph<T>, roots: seq<T>, c: Config<T>)
    requires FiniteDag(g) && Inv(g, roots, c) && c.stack != [] && Top(c).pending != []
    requires Top(c).pending[0] !in Visited(c) && Visited(c) <= g.nodes
    requires RootsOrdered(g, roots) ==> Settled(g, c)
    ensures Inv(g, roots, Descend(g, c)) && Visited(Descend(g, c)) == Visited(c) + {Top(c).pending[0]}
    ensures Top(c).pending[0] in g.nodes
    ensures RootsOrdered(g, roots) ==> Settled(g, Descend(g, c))
  {
    hide Shape, OnPath, Coverage, Settled, RootsOrdered, Visited;
    TopInHand(g, roots, c);
    OnPathDescend(g, roots, c);
    CoverageDescend(g, roots, c);
    VisitedDescend(g, c);
    assert Top(c).pending[0] in g.children(Top(c).item);
    if RootsOrdered(g, roots) {
      SettledDescend(g, roots, c);
    }
  }

  lemma EmitKeeps<T(!new)>(g: Graph<T>, roots: seq<T>, c: Config<T>)
    requires Inv(g, roots, c) && c.stack != [] && c.done <= |roots| && Top(c).pending == []
    requires RootsOrdered(g, roots) ==> Settled(g, c)
    ensures Inv(g, roots, Emit(roots, c)) && Visited(Emit(roots, c)) == Visited(c)
    ensures RootsOrdered(g, roots) ==> Settled(g, Emit(roots, c))
  {
    hide OnPath, Coverage, Settled, RootsOrdered, Visited;
    OnPathEmit(g, roots, c);
    CoverageEmit(g, roots, c);
    TraceKept(g, roots, c);
    VisitedEmit(roots, c);
    if RootsOrdered(g, roots) {
      SettledEmit(g, roots, c);
    }
  }

  /** Draining the iterator of a finite DAG terminates. It yields what the
      recursive depth-first order yields, in that order. It yields exactly the
      nodes reachable from the roots; and it yields each of them once, after
      all its children, exactly when no root is reachable from an earlier
      one. */
  method PostOrderMultiroot<T(!new, ==)>(roots: seq<T>, children: T -> seq<T>, ghost g: Graph<T>) returns (out: seq<T>)
    requires g.children == children && FiniteDag(g)
    requires forall r :: r in roots ==> r in g.nodes
    ensures forall x :: x in out <==> FromRoots(g, roots, x)
    ensures Distinct(out) && ChildrenFirst(g, out) <==> RootsOrdered(g, roots)
    ensures Closed(g) && out == DepthFirst(g, roots)
  {
    var t := new Traversal(roots, children, g);
    out := [];
    while t.stack != []
      invariant t.Valid() && t.g == g && t.roots == roots && t.out == out
      decreases t.Remaining()
    {
      var x := t.Next();
      out := out + [x.value];
    }
    ghost var c := t.State();
    FinishedCovers(g, roots, c);
    if ChildrenFirst(g, c.out) && Distinct(c.out) {
      OrderNeedsOrderedRoots(g, roots, c);
    }
  }

  /** From a single root: every reachable node once, children first, and the
      root at the very end. */
  method PostOrderFrom<T(!new, ==)>(root: T, children: T -> seq<T>, ghost g: Graph<T>) returns (out: seq<T>)
    requires g.children == children && FiniteDag(g) && root in g.nodes
    ensures forall x :: x in out <==> Reach(g, root, x)
    ensures Distinct(out) && ChildrenFirst(g, out)
    ensures out != [] && out[|out| - 1] == root
    ensures Closed(g) && out == DepthFirst(g, [root])
  {
    out := PostOrderMultiroot([root], children, g);
    assert forall x :: FromRoots(g, [root], x) <==> Reach(g, [root][0], x);
    ReachSelf(g, root);
    var k :| 0 <= k < |out| && out[k] == root;
    ghost var last := out[|out| - 1];
    assert Reach(g, root, last);
    ghost var p :| PathFromTo(g, p, root, last);
    ghost var j := ReachedIsEarlier(g, out, p, k);
  }
}
