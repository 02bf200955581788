/** The caller tree of a method, unfolded from a cyclic caller graph. */
module CallerGraph {

  import opened Model

  /** The callers of each method, in order; a method without an entry has no list. */
  type Graph = map<Sig, seq<Sig>>

  datatype Tree = Node(method_: Sig, depth: nat, callers: seq<Tree>) | Loop(depth: nat)

  function CallersOf(g: Graph, m: Sig): seq<Sig> {
    if m in g then g[m] else []
  }

  // ---------- chains of callers ----------

  ghost predicate IsWalk(g: Graph, w: seq<Sig>) {
    |w| > 0 && forall i :: 0 <= i < |w| - 1 ==> w[i] in g && w[i + 1] in g[w[i]]
  }

  /** A chain of callers from the start method that does not return to it. */
  ghost predicate IsChain(g: Graph, start: Sig, w: seq<Sig>) {
    IsWalk(g, w) && w[0] == start && forall i :: 0 < i < |w| ==> w[i] != start
  }

  ghost predicate Distinct(w: seq<Sig>) {
    forall i, j :: 0 <= i < j < |w| ==> w[i] != w[j]
  }

  /** Every cycle that the start method can reach passes through the start method. */
  ghost predicate CyclesPass(g: Graph, start: Sig) {
    forall w :: IsChain(g, start, w) ==> Distinct(w)
  }

  /** In particular, this holds when every cycle of the whole graph passes through the start. */
  lemma AllCyclesPass(g: Graph, start: Sig)
    requires forall w :: IsWalk(g, w) && |w| > 1 && w[0] == w[|w| - 1] ==> start in w
    ensures CyclesPass(g, start)
  {
    forall w, i, j | IsChain(g, start, w) && 0 <= i < j < |w|
      ensures w[i] != w[j]
    {
      var c := w[i..j + 1];
      assert forall k :: 0 <= k < |c| ==> c[k] == w[i + k];
      assert IsWalk(g, c) && c[0] == w[i] && c[|c| - 1] == w[j];
      assert start in c ==> i == 0;
    }
  }

  /** A chain of distinct methods is no longer than the graph, but for its last method. */
  lemma ChainBounded(g: Graph, start: Sig, w: seq<Sig>)
    requires IsChain(g, start, w) && Distinct(w)
    ensures |w| <= |g| + 1
  {
    var init := w[..|w| - 1];
    forall x | x in init
      ensures x in g
    {
      var i :| 0 <= i < |init| && init[i] == x;
      assert w[i + 1] in CallersOf(g, w[i]);
    }
    DistinctWithin(init, g.Keys);
    assert |g.Keys| == |g|;
  }

  lemma {:induction false} DistinctWithin(w: seq<Sig>, s: set<Sig>)
    requires Distinct(w) && forall x :: x in w ==> x in s
    ensures |w| <= |s|
  {
    if w != [] {
      DistinctWithin(w[1..], s - {w[0]});
    }
  }

  lemma Extend(g: Graph, start: Sig, w: seq<Sig>, c: Sig)
    requires IsChain(g, start, w) && c in CallersOf(g, w[|w| - 1]) && c != start
    ensures IsChain(g, start, w + [c])
  {
  }

  // ---------- the tree ----------

  /** The tree lists, below each method, its callers in order, and stops at the start method. */
  ghost predicate Unfolds(g: Graph, start: Sig, t: Tree, m: Sig, depth: nat) {
    && t.Node? && t.method_ == m && t.depth == depth
    && (m !in g ==> t.callers == [])
    && (m in g ==>
         && |t.callers| == |g[m]|
         && forall i :: 0 <= i < |g[m]| ==>
              if g[m][i] == start then t.callers[i] == Loop(depth + 1)
              else Unfolds(g, start, t.callers[i], g[m][i], depth + 1))
  }

  ghost function Unfolding(g: Graph, start: Sig, w: seq<Sig>): (t: Tree)
    requires CyclesPass(g, start) && IsChain(g, start, w)
    ensures Unfolds(g, start, t, w[|w| - 1], |w| - 1)
    decreases |g| + 1 - |w|
  {
    var m := w[|w| - 1];
    var cs := CallersOf(g, m);
    Tree.Node(m, |w| - 1, seq(|cs|, i requires 0 <= i < |cs| =>
      if cs[i] == start then Loop(|w|) else
        Extend(g, start, w, cs[i]);
        ChainBounded(g, start, w + [cs[i]]);
        Unfolding(g, start, w + [cs[i]])))
  }

  /** `path` is the chain of calls in progress: it only shows that the recursion ends. */
  method FindCaller(g: Graph, m: Sig, depth: nat, root: Sig, ghost path: seq<Sig>) returns (cfg: Tree)
    requires CyclesPass(g, root) && IsChain(g, root, path) && path[|path| - 1] == m && depth == |path| - 1
    ensures cfg == Unfolding(g, root, path)
    decreases |g| + 1 - |path|
  {
    var callers, subs := CallersOf(g, m), [];
    ghost var all := Unfolding(g, root, path).callers;
    for i := 0 to |callers|
      invariant subs == all[..i]
    {
      if callers[i] != root {
        Extend(g, root, path, callers[i]);
        ChainBounded(g, root, path + [callers[i]]);
        var sub := FindCaller(g, callers[i], depth + 1, root, path + [callers[i]]);
        subs := subs + [sub];
      } else {
        subs := subs + [Loop(depth + 1)];
      }
    }
    return Tree.Node(m, depth, subs);
  }

  /** The call from outside: the start method is its own root, at depth 0. */
  method CallerTree(g: Graph, start: Sig) returns (cfg: Tree)
    requires CyclesPass(g, start)
    ensures Unfolds(g, start, cfg, start, 0)
  {
    cfg := FindCaller(g, start, 0, start, [start]);
  }

  // ---------- what the tree enumerates ----------

  function At(t: Tree, addr: seq<nat>): Option<Tree> {
    if addr == [] then Some(t)
    else if t.Node? && addr[0] < |t.callers| then At(t.callers[addr[0]], addr[1..])
    else None
  }

  /** The chain of callers chosen by the positions in `addr`. */
  function Follow(g: Graph, m: Sig, addr: seq<nat>): (w: Option<seq<Sig>>)
    ensures w.Some? ==> |w.value| == |addr| + 1
    decreases |addr|
  {
    if addr == [] then Some([m])
    else if m in g && addr[0] < |g[m]| then
      match Follow(g, g[m][addr[0]], addr[1..])
      case Some(w) => Some([m] + w)
      case None => None
    else None
  }

  /** Positions name walks, and every walk has positions. */
  lemma {:induction false} FollowIsWalk(g: Graph, m: Sig, addr: seq<nat>)
    ensures var w := Follow(g, m, addr);
      w.Some? ==> IsWalk(g, w.value) && w.value[0] == m
    decreases |addr|
  {
    if addr != [] && addr[0] < |CallersOf(g, m)| {
      FollowIsWalk(g, CallersOf(g, m)[addr[0]], addr[1..]);
    }
  }

  lemma {:induction false} WalkHasAddress(g: Graph, w: seq<Sig>)
    requires IsWalk(g, w)
    ensures exists addr :: Follow(g, w[0], addr) == Some(w)
  {
    if |w| == 1 {
      assert w == [w[0]];
      assert Follow(g, w[0], []) == Some(w);
    } else {
      WalkHasAddress(g, w[1..]);
      var rest :| Follow(g, w[1..][0], rest) == Some(w[1..]);
      assert w[0] in g && w[0 + 1] in g[w[0]];
      var i: nat :| i < |g[w[0]]| && g[w[0]][i] == w[1];
      var addr := [i] + rest;
      assert addr[1..] == rest && w == [w[0]] + w[1..];
      assert Follow(g, w[0], addr) == Some(w);
    }
  }

  ghost predicate Avoids(w: seq<Sig>, start: Sig) {
    forall i :: 0 < i < |w| ==> w[i] != start
  }

  lemma AvoidsCons(m: Sig, v: seq<Sig>, start: Sig)
    ensures Avoids([m] + v, start) <==> v == [] || (v[0] != start && Avoids(v, start))
  {
    var w := [m] + v;
    assert forall i :: 0 <= i < |v| ==> w[i + 1] == v[i];
  }

  /** A place of the tree holds a method exactly when the chain chosen by its address does not
      return to the start, and a loop mark exactly when the chain returns there with its last
      call; the depth is the length of the chain. */
  lemma {:induction false} Enumerates(g: Graph, start: Sig, t: Tree, m: Sig, depth: nat, addr: seq<nat>)
    requires Unfolds(g, start, t, m, depth)
    ensures var w, at := Follow(g, m, addr), At(t, addr);
      && (at.Some? && at.value.Node? <==> w.Some? && Avoids(w.value, start))
      && (at.Some? && at.value.Loop? <==>
            w.Some? && addr != [] && w.value[|addr|] == start && Avoids(w.value[..|addr|], start))
      && (at.Some? ==> at.value.depth == depth + |addr|)
      && (at.Some? && at.value.Node? ==> at.value.method_ == w.value[|addr|])
  {
    FollowIsWalk(g, m, addr);
    var cs := CallersOf(g, m);
    if addr != [] && addr[0] < |cs| {
      var c, rest := cs[addr[0]], addr[1..];
      FollowIsWalk(g, c, rest);
      if Follow(g, c, rest).Some? {
        var v := Follow(g, c, rest).value;
        var w := [m] + v;
        assert Follow(g, m, addr) == Some(w);
        AvoidsCons(m, v, start);
        AvoidsCons(m, v[..|rest|], start);
        assert w[..|addr|] == [m] + v[..|rest|];
      }
      if c != start {
        Enumerates(g, start, t.callers[addr[0]], c, depth + 1, rest);
      } else {
        assert At(t, addr) == if rest == [] then Some(Loop(depth + 1)) else None;
      }
    }
  }

  // ---------- when the unfolding is finite ----------

  ghost function Height(t: Tree): nat {
    match t
    case Loop(_) => 0
    case Node(_, _, cs) => 1 + MaxHeight(cs)
  }

  ghost function MaxHeight(ts: seq<Tree>): nat {
    if ts == [] then 0 else
      var h, rest := Height(ts[0]), MaxHeight(ts[1..]);
      if h > rest then h else rest
  }

  lemma {:induction false} HeightBelow(ts: seq<Tree>, i: nat)
    requires i < |ts|
    ensures Height(ts[i]) <= MaxHeight(ts)
  {
    if i > 0 {
      HeightBelow(ts[1..], i - 1);
    }
  }

  lemma {:induction false} ChainFits(g: Graph, start: Sig, t: Tree, w: seq<Sig>, depth: nat)
    requires IsWalk(g, w) && Avoids(w, start) && Unfolds(g, start, t, w[0], depth)
    ensures |w| <= Height(t)
  {
    if |w| > 1 {
      assert w[0 + 1] in CallersOf(g, w[0]);
      var i: nat :| i < |CallersOf(g, w[0])| && CallersOf(g, w[0])[i] == w[1];
      ChainFits(g, start, t.callers[i], w[1..], depth + 1);
      HeightBelow(t.callers, i);
    }
  }

  /** A chain that meets a method twice can be made longer than any bound. */
  lemma {:induction false} Pump(g: Graph, start: Sig, w: seq<Sig>, i: nat, j: nat, n: nat) returns (v: seq<Sig>)
    requires IsChain(g, start, w) && i < j < |w| && w[i] == w[j]
    ensures IsChain(g, start, v) && |v| > n
    decreases n - |w|
  {
    if |w| > n {
      v := w;
    } else {
      v := w[..j] + w[i..];
      assert forall k :: 0 <= k < |v| ==> v[k] == if k < j then w[k] else w[k - j + i];
      v := Pump(g, start, v, i, j, n);
    }
  }

  /** A finite caller tree exists if and only if every reachable cycle passes through the start. */
  lemma FiniteIff(g: Graph, start: Sig)
    ensures (exists t :: Unfolds(g, start, t, start, 0)) <==> CyclesPass(g, start)
  {
    if CyclesPass(g, start) {
      assert Unfolds(g, start, Unfolding(g, start, [start]), start, 0);
    }
    if t :| Unfolds(g, start, t, start, 0) {
      forall w, i, j | IsChain(g, start, w) && 0 <= i < j < |w|
        ensures w[i] != w[j]
      {
        if w[i] == w[j] {
          var v := Pump(g, start, w, i, j, Height(t));
          ChainFits(g, start, t, v, 0);
        }
      }
    }
  }
}
