/** What a run of the cross-reference pass means: how often each method is mapped, which calls reach
    the indexed node, and when callers and uses agree; all told from the graph before the pass. */
module Passes {
  import opened Model
  import opened Resolver
  import opened Steps
  import opened Ledgers
  import opened XRef

  // ---------- the graphs of a pass ----------

  lemma {:induction false} StatesGrow(r: Round, u: Tour, p: Progress, a: nat, b: nat, stale: set<Sig>)
    requires Passed(r, u, p, stale) && a <= b <= |p.ms| && |p.states| == |p.ms| + 1
    requires p.states[a].Consistent({}, stale)
    ensures p.states[b].Consistent({}, stale) && Extends(p.states[a], p.states[b])
  {
    hide Path, Resolving, Toured, Graph.Consistent, Extends;
    if a < b {
      StatesGrow(r, u, p, a, b - 1, stale);
      assert WalkedAt(p, b - 1, stale);
      PathGrows(p.states[b - 1], p.steps[b - 1], p.states[b], stale);
      ExtendsTwice(p.states[a], p.states[b - 1], p.states[b]);
    } else {
      SameExtends(p.states[a]);
    }
  }

  lemma StateOf(r: Round, u: Tour, p: Progress, a: nat, stale: set<Sig>)
    requires Passed(r, u, p, stale) && a <= |p.ms|
    ensures |p.states| == |p.ms| + 1 && p.states[0].Consistent({}, stale) && p.states[a].Consistent({}, stale)
    ensures Extends(p.states[0], p.states[a]) && Extends(p.states[a], p.states[|p.ms|])
  {
    hide Walked, Toured, Graph.Consistent, Extends;
    TourSizes(r, u, p.ms, p.states, |r.batch|, 0);
    StatesGrow(r, u, p, 0, a, stale);
    StatesGrow(r, u, p, a, |p.ms|, stale);
  }

  /** An own member of a class is the indexed one, and is named after the class. */
  lemma OwnMember(r: Round, j: nat, g: Graph, k: Key, stale: set<Sig>)
    requires j < |r.batch| == |r.own| && g.Consistent({}, stale) && Placed(g, r.batch[j], r.own[j])
    requires k in r.Held(j, g).at && k.Signature?
    ensures k in g.methods && r.Held(j, g).at[k] == g.methods[k] && g.methods[k].sig == k.sig
    ensures k.sig.fqcn == r.batch[j].name
  {
    hide Graph.MembersIndexed, Graph.ClassShape;
    var v := r.batch[j];
    EntrySigs(g, stale);
    if g.HasClass(v) {
      StoredMember(g, v.name, k, stale);
      MemberNamed(g, v.name, k);
    }
  }

  lemma MemberNamed(g: Graph, n: string, k: Key)
    requires g.Shaped() && n in g.classes && k in g.classes[n].methods.at
    ensures if k.Signature? then k.sig.fqcn == n else k == ByFqcn(n)
  {
    assert g.ClassShape(n);
  }

  /** A class stays placed, and keeps its own members. */
  lemma PlacedStays(r: Round, j: nat, g: Graph, h: Graph, stale: set<Sig>)
    requires j < |r.batch| == |r.own| && g.Consistent({}, stale) && h.Consistent({}, stale) && Extends(g, h)
    requires Placed(g, r.batch[j], r.own[j])
    ensures Placed(h, r.batch[j], r.own[j]) && (h.HasClass(r.batch[j]) ==> g.HasClass(r.batch[j]))
    ensures r.Held(j, g).Valid() && r.Held(j, h).Valid() && r.Held(j, g).at.Keys <= r.Held(j, h).at.Keys
  {
    hide Graph.Consistent, Table.Valid;
    var v := r.batch[j];
    if g.HasClass(v) {
      TableStays(g, g, v.name, stale);
      TableStays(g, h, v.name, stale);
    } else {
      StaysIndexed(r.own[j].at, v.name, g, h);
    }
  }

  /** What is known of class number `j` in graph number `a`. */
  lemma HeldAt(r: Round, u: Tour, p: Progress, j: nat, a: nat, stale: set<Sig>)
    requires Passed(r, u, p, stale) && j < |r.batch| && a <= |p.ms|
    ensures |p.states| == |p.ms| + 1 && |r.batch| == |r.own| && p.states[a].Consistent({}, stale)
    ensures Placed(p.states[0], r.batch[j], r.own[j]) && Placed(p.states[a], r.batch[j], r.own[j])
    ensures r.Held(j, p.states[a]).Valid() && Extends(p.states[0], p.states[a])
    ensures r.Held(j, p.states[0]).at.Keys <= r.Held(j, p.states[a]).at.Keys
    ensures p.states[a].HasClass(r.batch[j]) <==> p.states[0].HasClass(r.batch[j])
  {
    hide Walked, Toured, Graph.Consistent, Placed, Round.Held, Extends;
    StateOf(r, u, p, a, stale);
    TourSizes(r, u, p.ms, p.states, |r.batch|, 0);
    PlacedStays(r, j, p.states[0], p.states[a], stale);
    NodeStays(p.states[0], p.states[a], r.batch[j]);
  }

  lemma NodeStays(g: Graph, h: Graph, v: ModelClass)
    requires Extends(g, h)
    ensures g.HasClass(v) ==> h.HasClass(v)
  {
  }

  lemma Sizes(r: Round, u: Tour, p: Progress, stale: set<Sig>)
    requires Passed(r, u, p, stale)
    ensures |r.batch| == |r.own| && |u.keys| == |u.turn| == |p.ms| == |p.logs| == |p.steps| && |p.states| == |p.ms| + 1
  {
  }

  // ---------- how often a method is mapped ----------

  /** The classes of the batch have distinct names. */
  ghost predicate NamedApart(batch: seq<ModelClass>) {
    forall i, j :: 0 <= i < j < |batch| ==> batch[i].name != batch[j].name
  }

  /** How many of the first `n` visits mapped `m` under a signature, or under a class name. */
  ghost function Visits(u: Tour, ms: seq<ModelMethod>, m: ModelMethod, slot: bool, n: nat): nat
    requires n <= |ms| == |u.keys|
  {
    if n == 0 then 0
    else Visits(u, ms, m, slot, n - 1) + if ms[n - 1] == m && u.keys[n - 1].ByFqcn? == slot then 1 else 0
  }

  lemma {:induction false} VisitsAll(u: Tour, ms: seq<ModelMethod>, m: ModelMethod, n: nat)
    requires n <= |ms| == |u.keys|
    ensures Occurrences(ms[..n], m) == Visits(u, ms, m, false, n) + Visits(u, ms, m, true, n)
  {
    if n > 0 {
      VisitsAll(u, ms, m, n - 1);
      assert ms[..n] == ms[..n - 1] + [ms[n - 1]];
    }
  }

  lemma {:induction false} VisitsOnly(u: Tour, ms: seq<ModelMethod>, m: ModelMethod, slot: bool, n: nat, a: nat)
    requires a < |ms| == |u.keys| && n <= |ms| && ms[a] == m && u.keys[a].ByFqcn? == slot
    requires forall b :: 0 <= b < |ms| && ms[b] == m && u.keys[b].ByFqcn? == slot ==> b == a
    ensures Visits(u, ms, m, slot, n) == if a < n then 1 else 0
  {
    if n > 0 {
      VisitsOnly(u, ms, m, slot, n - 1, a);
    }
  }

  lemma {:induction false} VisitsSome(u: Tour, ms: seq<ModelMethod>, m: ModelMethod, slot: bool, n: nat)
    requires n <= |ms| == |u.keys|
    ensures Visits(u, ms, m, slot, n) > 0 <==> exists b :: 0 <= b < n && ms[b] == m && u.keys[b].ByFqcn? == slot
  {
    if n > 0 {
      VisitsSome(u, ms, m, slot, n - 1);
    }
  }

  /** One visit: its key is one that its class had when its turn began. */
  lemma VisitOf(r: Round, u: Tour, p: Progress, a: nat, stale: set<Sig>) returns (j: nat, b: nat)
    requires Passed(r, u, p, stale) && a < |p.ms|
    ensures |p.states| == |p.ms| + 1 && |u.keys| == |u.turn| == |p.ms| && |r.batch| == |r.own|
    ensures j < |r.batch| && j < |u.begins| && b == u.begins[j] <= a < b + |r.Held(j, p.states[b]).keys|
    ensures j == u.turn[a] && u.keys[a] == r.Held(j, p.states[b]).keys[a - b]
    ensures u.keys[a] in r.Held(j, p.states[b]).at && u.keys[a] in r.Held(j, p.states[a]).at
    ensures p.ms[a] == r.Held(j, p.states[a]).at[u.keys[a]]
  {
    hide Walked, Graph.Consistent, Placed, Round.Held;
    assert VisitAt(r, u, p.ms, p.states, a);
    j := u.turn[a];
    b := u.begins[j];
    HeldAt(r, u, p, j, b, stale);
    assert u.keys[a] in r.Held(j, p.states[b]).keys;
  }

  /** A visit under a signature maps the own method of that signature; the class is named in it. */
  lemma OwnVisit(r: Round, u: Tour, p: Progress, a: nat, stale: set<Sig>)
    requires Passed(r, u, p, stale) && a < |p.ms|
    ensures |u.keys| == |u.turn| == |p.ms| && u.turn[a] < |r.batch|
    ensures u.keys[a].Signature? ==> p.ms[a].sig == u.keys[a].sig && u.keys[a].sig.fqcn == r.batch[u.turn[a]].name
    ensures !u.keys[a].ObjectText?
  {
    hide Passed, Graph.Consistent, Placed, Round.Held;
    var j, b := VisitOf(r, u, p, a, stale);
    HeldAt(r, u, p, j, a, stale);
    HeldKey(r, j, p.states[a], u.keys[a], stale);
    if u.keys[a].Signature? {
      OwnMember(r, j, p.states[a], u.keys[a], stale);
    }
  }

  lemma HeldKey(r: Round, j: nat, g: Graph, k: Key, stale: set<Sig>)
    requires j < |r.batch| == |r.own| && g.Consistent({}, stale) && Placed(g, r.batch[j], r.own[j])
    requires k in r.Held(j, g).at
    ensures k.Signature? || (k == ByFqcn(r.batch[j].name) && g.HasClass(r.batch[j]))
  {
    if g.HasClass(r.batch[j]) {
      MemberNamed(g, r.batch[j].name, k);
    }
  }

  /** Two visits under one signature are the same visit. */
  lemma OneVisit(r: Round, u: Tour, p: Progress, a: nat, b: nat, stale: set<Sig>)
    requires Passed(r, u, p, stale) && NamedApart(r.batch) && a < |p.ms| && b < |p.ms|
    requires |u.keys| == |p.ms| && u.keys[a] == u.keys[b] && u.keys[a].Signature?
    ensures a == b
  {
    hide Passed, Graph.Consistent, Placed, Round.Held;
    OwnVisit(r, u, p, a, stale);
    OwnVisit(r, u, p, b, stale);
    var j, c := VisitOf(r, u, p, a, stale);
    var i, d := VisitOf(r, u, p, b, stale);
    assert i == j;
    HeldAt(r, u, p, j, c, stale);
  }

  /** Each own method of a class is visited under its signature. */
  lemma OwnVisited(r: Round, u: Tour, p: Progress, j: nat, k: Key, stale: set<Sig>) returns (a: nat)
    requires Passed(r, u, p, stale) && j < |r.batch| && |r.batch| == |r.own| && |p.states| > 0
    requires k in r.Held(j, p.states[0]).at && k.Signature?
    ensures a < |p.ms| == |u.keys| && u.keys[a] == k && p.ms[a] == r.Held(j, p.states[0]).at[k]
  {
    hide Walked, Graph.Consistent, Placed, Round.Held;
    assert TurnDone(r, u, p.states, j);
    var b := u.begins[j];
    HeldAt(r, u, p, j, b, stale);
    assert k in r.Held(j, p.states[b]).keys;
    var i :| 0 <= i < |r.Held(j, p.states[b]).keys| && r.Held(j, p.states[b]).keys[i] == k;
    a := b + i;
    assert VisitAt(r, u, p.ms, p.states, a);
    HeldAt(r, u, p, j, a, stale);
    OwnMember(r, j, p.states[0], k, stale);
    OwnMember(r, j, p.states[a], k, stale);
    IndexedSame(p.states[0], p.states[a], k);
  }

  lemma IndexedSame(g: Graph, h: Graph, k: Key)
    requires Extends(g, h) && k in g.methods && k.Signature?
    ensures k in h.methods && h.methods[k] == g.methods[k]
  {
  }

  /** An own method of a batch of distinct names is mapped once for its signature, and once more for
      each slot that holds it when it is visited. */
  lemma MappedTimes(r: Round, u: Tour, p: Progress, j: nat, k: Key, stale: set<Sig>)
    requires Passed(r, u, p, stale) && NamedApart(r.batch) && j < |r.batch| && |r.batch| == |r.own| && |p.states| > 0
    requires k in r.Held(j, p.states[0]).at && k.Signature?
    ensures |u.keys| == |p.ms|
    ensures var m := r.Held(j, p.states[0]).at[k]; Occurrences(p.ms, m) == 1 + Visits(u, p.ms, m, true, |p.ms|)
  {
    hide Passed, Graph.Consistent, Placed, Round.Held;
    var a := OwnVisited(r, u, p, j, k, stale);
    var m := p.ms[a];
    OwnVisit(r, u, p, a, stale);
    forall b | 0 <= b < |p.ms| && p.ms[b] == m && !u.keys[b].ByFqcn?
      ensures b == a
    {
      OwnVisit(r, u, p, b, stale);
      OneVisit(r, u, p, a, b, stale);
    }
    VisitsAll(u, p.ms, m, |p.ms|);
    assert p.ms[..|p.ms|] == p.ms;
    VisitsOnly(u, p.ms, m, false, |p.ms|, a);
  }

  /** Class number `j` holds `m` in its slot when the slot is visited. */
  ghost predicate SlotMaps(r: Round, u: Tour, p: Progress, j: nat, m: ModelMethod, a: nat)
    requires |r.batch| == |r.own| && |u.keys| == |u.turn| == |p.ms| == |p.states| - 1
  {
    && a < |p.ms| && j < |r.batch| && u.turn[a] == j && u.keys[a] == ByFqcn(r.batch[j].name)
    && p.states[a].HasClass(r.batch[j]) && u.keys[a] in r.Held(j, p.states[a]).at
    && r.Held(j, p.states[a]).at[u.keys[a]] == m
  }

  /** It is mapped exactly once if and only if no class of the batch holds it in its slot when that
      slot is visited. */
  lemma MappedOnceIff(r: Round, u: Tour, p: Progress, j: nat, k: Key, stale: set<Sig>)
    requires Passed(r, u, p, stale) && NamedApart(r.batch) && j < |r.batch| && |r.batch| == |r.own| && |p.states| > 0
    requires k in r.Held(j, p.states[0]).at && k.Signature?
    ensures |u.keys| == |u.turn| == |p.ms| == |p.states| - 1
    ensures var m := r.Held(j, p.states[0]).at[k];
      Occurrences(p.ms, m) == 1 <==> !exists i: nat, a: nat :: SlotMaps(r, u, p, i, m, a)
  {
    hide Passed, Graph.Consistent, Placed, Round.Held, Visits;
    var m := r.Held(j, p.states[0]).at[k];
    Sizes(r, u, p, stale);
    MappedTimes(r, u, p, j, k, stale);
    VisitsSome(u, p.ms, m, true, |p.ms|);
    if b: nat :| b < |p.ms| && p.ms[b] == m && u.keys[b].ByFqcn? {
      var i, c := VisitOf(r, u, p, b, stale);
      HeldAt(r, u, p, i, b, stale);
      HeldKey(r, i, p.states[b], u.keys[b], stale);
      assert SlotMaps(r, u, p, i, m, b);
    }
    if i: nat, a: nat :| SlotMaps(r, u, p, i, m, a) {
      var l, c := VisitOf(r, u, p, a, stale);
      assert p.ms[a] == m;
    }
  }

  /** A class has a slot by then if and only if it had one before the pass, or an earlier call of the
      pass inherited for it. */
  lemma {:induction false} SlotByThenIff(r: Round, u: Tour, p: Progress, n: string, a: nat, stale: set<Sig>)
    requires Passed(r, u, p, stale) && a <= |p.ms| == |p.steps| && |p.states| == |p.ms| + 1
    ensures ByFqcn(n) in TableNamed(p.states[a], n).at <==>
      ByFqcn(n) in TableNamed(p.states[0], n).at || exists b, x :: 0 <= b < a && x in p.steps[b] && Inherits(x, n)
  {
    hide Path, Toured, Graph.Consistent, Placed, Resolving, Inherits;
    if a > 0 {
      SlotByThenIff(r, u, p, n, a - 1, stale);
      assert WalkedAt(p, a - 1, stale);
      SlotIff(p.states[a - 1], p.steps[a - 1], p.states[a], n, stale);
    }
  }

  // ---------- what the pass creates ----------

  /** The call number `i` of mapping `a`, in the code that the method had at the start, made the node. */
  ghost predicate CreatedBy(p: Progress, a: nat, i: nat, m: ModelMethod)
    requires |p.ms| == |p.steps|
  {
    && a < |p.ms| && i < |p.steps[a]| && MadeBy(p.steps[a][i], m) && p.ms[a] in p.start
    && var calls := Calling(p.start[p.ms[a]].instr, |p.start[p.ms[a]].instr|);
       |calls| == |p.steps[a]| && m.sig == calls[i].ref && m.isStatic == calls[i].isStatic
  }

  /** Each node that the index gains in the pass is a missing method, made by a call in the code that some
      method had at the start: it has the signature that the call refers to, and is static exactly if the
      call is. */
  lemma {:induction false} Created(r: Round, u: Tour, p: Progress, a: nat, m: ModelMethod, stale: set<Sig>)
    requires Passed(r, u, p, stale) && a <= |p.ms| == |p.steps| && |p.states| == |p.ms| + 1
    requires m in p.states[a].methods.Values && m !in p.start
    ensures m.missing && exists b: nat, i: nat :: CreatedBy(p, b, i, m)
  {
    hide Path, Toured, Graph.Consistent, Placed, Calling, MadeBy;
    var b := a - 1;
    if m in p.states[b].methods.Values {
      Created(r, u, p, b, m, stale);
    } else {
      assert WalkedAt(p, b, stale);
      PathMakes(p.states[b], p.steps[b], p.states[a], stale);
      var x :| x in p.steps[b] && MadeBy(x, m);
      var i: nat :| i < |p.steps[b]| && p.steps[b][i] == x;
      MadeParts(x, m);
      if !(p.ms[b] in p.start && p.ms[b] !in p.ms[..b]) {
        StateOf(r, u, p, b, stale);
        PathStill(p.states[b], p.steps[b], p.states[a], stale);
        assert false;
      }
      assert CreatedBy(p, b, i, m);
    }
  }

  lemma MadeParts(x: Step, m: ModelMethod)
    requires MadeBy(x, m)
    ensures m.missing && m.sig == x.ref && m.isStatic == x.isStatic && Signature(x.ref) !in x.g.methods
  {
  }

  // ---------- told before the pass ----------

  /** The name is that of a class of the batch which the graph holds. */
  ghost predicate NamesStored(r: Round, g: Graph, n: string) {
    exists i :: 0 <= i < |r.batch| && r.batch[i].name == n && g.HasClass(r.batch[i])
  }

  /** The calls of that code refer to indexed methods, or name no stored class of the batch. */
  ghost predicate CallsElsewhere(r: Round, g: Graph, instr: seq<seq<Instr>>) {
    forall c :: c in Calling(instr, |instr|) ==> Signature(c.ref) in g.methods || !NamesStored(r, g, c.ref.fqcn)
  }

  /** So do the calls of all that the classes of the batch hold. */
  ghost predicate Settled(r: Round, g: Graph, start: map<ModelMethod, Rec>)
    requires |r.batch| == |r.own|
  {
    forall j, k :: 0 <= j < |r.batch| && k in r.Held(j, g).at ==>
      var m := r.Held(j, g).at[k]; m in start && CallsElsewhere(r, g, start[m].instr)
  }

  /** One mapping leaves the tables of the batch alone. */
  lemma TableKept(r: Round, u: Tour, p: Progress, a: nat, j: nat, stale: set<Sig>)
    requires Passed(r, u, p, stale) && a < |p.ms| && j < |r.batch|
    requires |r.batch| == |r.own| && |p.states| == |p.ms| + 1
    requires p.ms[a] in p.start && CallsElsewhere(r, p.states[0], p.start[p.ms[a]].instr)
    ensures r.Held(j, p.states[a + 1]) == r.Held(j, p.states[a])
  {
    hide Path, Toured, Graph.Consistent, Placed, Calling;
    HeldAt(r, u, p, j, a, stale);
    HeldAt(r, u, p, j, a + 1, stale);
    assert WalkedAt(p, a, stale);
    var g, h, xs := p.states[a], p.states[a + 1], p.steps[a];
    if g.HasClass(r.batch[j]) {
      var n := r.batch[j].name;
      forall x | x in xs && x.ref.fqcn == n
        ensures Signature(x.ref) in g.methods
      {
        RefOfStep(r, u, p, a, x, stale);
        if Signature(x.ref) in p.states[0].methods {
          IndexedSame(p.states[0], g, Signature(x.ref));
        }
      }
      AvoidedStays(g, xs, h, n, stale);
    }
  }

  /** A reference that a mapping resolves is indexed by then, or is that of a call which the method
      had at the start. */
  lemma RefOfStep(r: Round, u: Tour, p: Progress, a: nat, x: Step, stale: set<Sig>)
    requires Passed(r, u, p, stale) && a < |p.ms| == |p.steps| && |p.states| == |p.ms| + 1 && x in p.steps[a]
    ensures Signature(x.ref) in p.states[a].methods ||
      (p.ms[a] in p.start && exists c ::
        c in Calling(p.start[p.ms[a]].instr, |p.start[p.ms[a]].instr|) && c.ref == x.ref)
  {
    hide Path, Toured, Graph.Consistent, Placed, Calling;
    assert WalkedAt(p, a, stale);
    var i :| 0 <= i < |p.steps[a]| && p.steps[a][i] == x;
    if Signature(x.ref) !in p.states[a].methods {
      var calls := Calling(p.start[p.ms[a]].instr, |p.start[p.ms[a]].instr|);
      assert calls[i] in calls;
    }
  }

  /** The tables of the batch stay as they are. */
  lemma {:induction false} TablesKept(r: Round, u: Tour, p: Progress, a: nat, stale: set<Sig>)
    requires Passed(r, u, p, stale) && a <= |p.ms| && |r.batch| == |r.own| && |p.states| == |p.ms| + 1
    requires Settled(r, p.states[0], p.start)
    ensures forall j :: 0 <= j < |r.batch| ==> r.Held(j, p.states[a]) == r.Held(j, p.states[0])
  {
    hide Passed, Round.Held, CallsElsewhere;
    if a > 0 {
      TablesKept(r, u, p, a - 1, stale);
      var i, b := VisitOf(r, u, p, a - 1, stale);
      forall j | 0 <= j < |r.batch|
        ensures r.Held(j, p.states[a]) == r.Held(j, p.states[a - 1])
      {
        TableKept(r, u, p, a - 1, j, stale);
      }
    }
  }

  /** A class of the batch holds `m` in its slot. */
  ghost predicate SlotHolds(r: Round, g: Graph, i: nat, m: ModelMethod)
    requires |r.batch| == |r.own|
  {
    && i < |r.batch| && g.HasClass(r.batch[i]) && ByFqcn(r.batch[i].name) in r.Held(i, g).at
    && r.Held(i, g).at[ByFqcn(r.batch[i].name)] == m
  }

  /** A slot that is there before the pass, and that no call is going to touch, is visited. */
  lemma SlotVisited(r: Round, u: Tour, p: Progress, i: nat, m: ModelMethod, stale: set<Sig>) returns (a: nat)
    requires Passed(r, u, p, stale) && |r.batch| == |r.own| && |p.states| == |p.ms| + 1
    requires |u.keys| == |u.turn| == |p.ms|
    requires Settled(r, p.states[0], p.start) && SlotHolds(r, p.states[0], i, m)
    ensures SlotMaps(r, u, p, i, m, a)
  {
    hide Walked, Graph.Consistent, Placed, Round.Held, Settled;
    var k := ByFqcn(r.batch[i].name);
    assert TurnDone(r, u, p.states, i);
    var b := u.begins[i];
    HeldAt(r, u, p, i, b, stale);
    assert k in r.Held(i, p.states[b]).keys;
    var l :| 0 <= l < |r.Held(i, p.states[b]).keys| && r.Held(i, p.states[b]).keys[l] == k;
    a := b + l;
    assert VisitAt(r, u, p.ms, p.states, a);
    TablesKept(r, u, p, a, stale);
    HeldAt(r, u, p, i, a, stale);
  }

  /** Where no call of what the batch holds is left to resolve in one of its stored classes, an own
      method is mapped exactly once if and only if no slot of the batch holds it before the pass. */
  lemma OnceBeforeIff(r: Round, u: Tour, p: Progress, j: nat, k: Key, stale: set<Sig>)
    requires Passed(r, u, p, stale) && NamedApart(r.batch) && j < |r.batch| && |r.batch| == |r.own| && |p.states| > 0
    requires k in r.Held(j, p.states[0]).at && k.Signature?
    requires Settled(r, p.states[0], p.start)
    ensures var m := r.Held(j, p.states[0]).at[k];
      Occurrences(p.ms, m) == 1 <==> !exists i: nat :: SlotHolds(r, p.states[0], i, m)
  {
    hide Passed, Graph.Consistent, Placed, Round.Held, Settled;
    var m := r.Held(j, p.states[0]).at[k];
    Sizes(r, u, p, stale);
    MappedOnceIff(r, u, p, j, k, stale);
    if i: nat, a: nat :| SlotMaps(r, u, p, i, m, a) {
      TablesKept(r, u, p, a, stale);
      HeldAt(r, u, p, i, a, stale);
      assert SlotHolds(r, p.states[0], i, m);
    }
    if i: nat :| SlotHolds(r, p.states[0], i, m) {
      var a := SlotVisited(r, u, p, i, m, stale);
    }
  }

  // ---------- which calls reach the indexed node ----------

  /** No call of an indexed method that is left to resolve names a class which has a slot already. */
  ghost predicate AllClear(g: Graph, start: map<ModelMethod, Rec>) {
    forall m, c :: m in start && c in Calling(start[m].instr, |start[m].instr|) ==> Clear(g, c.ref)
  }

  lemma {:induction false} PassAlike(r: Round, u: Tour, p: Progress, a: nat, stale: set<Sig>)
    requires Passed(r, u, p, stale) && a <= |p.ms| && |p.states| == |p.ms| + 1 && |p.steps| == |p.ms|
    requires AllClear(p.states[0], p.start)
    ensures p.states[0].Shaped() && Alike(p.states[0], p.states[a], stale)
    ensures forall b, x :: 0 <= b < a && x in p.steps[b] ==>
      && Signature(x.callee.sig) in p.states[a].methods
      && (p.states[a].HasMethod(x.callee) <==> CurrentRef(p.states[0], x.ref))
  {
    hide Path, Toured, Graph.Consistent, Graph.Shaped, Placed, Calling, Alike, CurrentRef, Graph.HasMethod, Clear;
    hide Resolving, Extends;
    var g := p.states[0];
    ShapedOf(g, {}, stale);
    if a == 0 {
      AlikeSelf(g, stale);
    } else {
      PassAlike(r, u, p, a - 1, stale);
      var h, k := p.states[a - 1], p.states[a];
      forall x | x in p.steps[a - 1]
        ensures Signature(x.ref) in h.methods || Clear(g, x.ref)
      {
        RefOfStep(r, u, p, a - 1, x, stale);
      }
      assert WalkedAt(p, a - 1, stale);
      PathAlike(g, h, p.steps[a - 1], k, stale);
      StateOf(r, u, p, a - 1, stale);
      PathGrows(h, p.steps[a - 1], k, stale);
      forall b, x | 0 <= b < a - 1 && x in p.steps[b]
        ensures Signature(x.callee.sig) in k.methods && (k.HasMethod(x.callee) <==> h.HasMethod(x.callee))
      {
        IndexedStays(h, k, x.callee);
      }
    }
  }

  /** Each logged call, at the end of the pass, is of the indexed node of its signature if and only if
      its reference denoted, before the pass, such a node or nothing. */
  lemma CalleesCurrentIff(r: Round, u: Tour, p: Progress, a: nat, i: nat, stale: set<Sig>)
    requires Passed(r, u, p, stale) && a < |p.ms| == |p.logs| == |p.steps| && |p.states| == |p.ms| + 1
    requires AllClear(p.states[0], p.start) && i < |p.logs[a]|
    ensures i < |p.steps[a]| && p.steps[a][i].callee == p.logs[a][i].callee && p.states[0].Shaped()
    ensures IndexedIn(p.states[|p.ms|].methods, p.logs[a][i].callee) <==>
      CurrentRef(p.states[0], p.steps[a][i].ref)
  {
    hide Path, Toured, Graph.Consistent, Graph.Shaped, Placed, Calling, Alike, CurrentRef, AllClear;
    assert WalkedAt(p, a, stale);
    PassAlike(r, u, p, |p.ms|, stale);
    assert p.steps[a][i] in p.steps[a];
  }

  /** A method that is mapped again calls only indexed nodes the second time. */
  lemma SecondTimeCurrent(r: Round, u: Tour, p: Progress, a: nat, i: nat, stale: set<Sig>)
    requires Passed(r, u, p, stale) && a < |p.ms| == |p.logs| && |p.states| == |p.ms| + 1
    requires p.ms[a] in p.ms[..a] && i < |p.logs[a]|
    ensures IndexedIn(p.states[|p.ms|].methods, p.logs[a][i].callee)
  {
    hide Toured, Graph.Consistent, Placed;
    assert WalkedAt(p, a, stale);
    StateOf(r, u, p, a, stale);
    PathStill(p.states[a], p.steps[a], p.states[a + 1], stale);
    var x := p.steps[a][i];
    assert x in p.steps[a];
    ShapedOf(p.states[a], {}, stale);
    IndexedMethod(p.states[a], x.ref, stale);
    IndexedStays(p.states[a], p.states[|p.ms|], x.callee);
  }

  // ---------- callers against uses ----------

  /** No call in that code denotes a replaced node. */
  ghost predicate CallsCurrent(g: Graph, instr: seq<seq<Instr>>)
    requires g.Shaped()
  {
    forall c :: c in Calling(instr, |instr|) ==> CurrentRef(g, c.ref)
  }

  /** Calls of one name denote replaced nodes all together, or not at all. */
  ghost predicate NamesAgree(g: Graph, instr: seq<seq<Instr>>)
    requires g.Shaped()
  {
    forall c, d :: c in Calling(instr, |instr|) && d in Calling(instr, |instr|) && c.ref.name == d.ref.name ==>
      (CurrentRef(g, c.ref) <==> CurrentRef(g, d.ref))
  }

  /** The log of the first mapping of a method has one site for each call in its code. */
  lemma FirstLog(r: Round, u: Tour, p: Progress, a: nat, i: nat, stale: set<Sig>)
    requires Passed(r, u, p, stale) && a < |p.ms| == |p.logs| == |p.steps| && |p.states| == |p.ms| + 1
    requires p.ms[a] in p.start && p.ms[a] !in p.ms[..a]
    ensures var calls := Calling(p.start[p.ms[a]].instr, |p.start[p.ms[a]].instr|);
      && |calls| == |p.logs[a]| == |p.steps[a]|
      && (i < |calls| ==>
            && calls[i] in calls && p.steps[a][i].ref == calls[i].ref
            && p.logs[a][i].callee.sig.name == calls[i].ref.name)
  {
    hide Toured, Graph.Consistent, Placed, Calling;
    assert WalkedAt(p, a, stale);
    StateOf(r, u, p, a, stale);
    if i < |p.steps[a]| {
      assert p.steps[a][i] in p.steps[a];
      PathNames(p.states[a], p.steps[a], p.states[a + 1], p.steps[a][i], stale);
    }
  }

  lemma {:induction false} PathNames(g: Graph, xs: seq<Step>, h: Graph, x: Step, stale: set<Sig>)
    requires Path(g, xs, h, stale) && x in xs
    ensures x.callee.sig.name == x.ref.name
  {
    hide Taken;
    var n := |xs| - 1;
    if x == xs[n] {
      StepCurrent(x, stale);
    } else {
      assert xs == xs[..n] + [xs[n]];
      PathNames(g, xs[..n], xs[n].g, x, stale);
    }
  }

  /** Some mapping of the method calls `s` through the indexed node. */
  ghost predicate CallsAt(p: Progress, m: ModelMethod, s: Sig, b: nat)
    requires |p.logs| == |p.ms| && |p.states| > |p.ms|
  {
    b < |p.ms| && p.ms[b] == m && Calls(p.logs[b], s, p.states[|p.ms|].methods)
  }

  /** If all logged calls of one mapping are of indexed nodes, each signature that the method uses is
      called through one. */
  lemma CurrentLogCalls(p: Progress, b: nat, m: ModelMethod, blocks: seq<seq<Instr>>, s: Sig)
    requires |p.logs| == |p.ms| && |p.states| > |p.ms| && b < |p.ms| && p.ms[b] == m
    requires SameTrace(p.logs[b], blocks) && Positions(blocks, s) != []
    requires forall i :: 0 <= i < |p.logs[b]| ==> IndexedIn(p.states[|p.ms|].methods, p.logs[b][i].callee)
    ensures CallsAt(p, m, s, b)
  {
    hide Positions, PositionsOf, IndexedIn;
    KeysHavePositions(p.logs[b], s);
    var x :| x in p.logs[b] && x.callee.sig == s;
  }

  /** Where a method occurs first, and where again. */
  lemma {:induction false} OccursAt(ms: seq<ModelMethod>, m: ModelMethod) returns (a: nat, b: nat)
    requires m in ms
    ensures a < |ms| && ms[a] == m && m !in ms[..a]
    ensures if Occurrences(ms, m) > 1 then b < |ms| && ms[b] == m && m in ms[..b]
            else forall c :: 0 <= c < |ms| && ms[c] == m ==> c == a
  {
    var n := |ms| - 1;
    assert ms == ms[..n] + [ms[n]];
    if m in ms[..n] {
      a, b := OccursAt(ms[..n], m);
      assert ms[..n][..a] == ms[..a];
      if ms[n] == m {
        b := n;
      } else if Occurrences(ms, m) > 1 {
        assert ms[..n][..b] == ms[..b];
      }
    } else {
      a, b := n, 0;
    }
  }

  /** What callers-are-uses takes, for one method of a pass. */
  ghost predicate Alone(p: Progress, m: ModelMethod) {
    && m in p.ms && m in p.start && (forall x :: x in p.ms && x.sig == m.sig ==> x == m)
    && NowhereListed(p.ledger.callers, m.sig)
  }

  ghost predicate SameTraces(p: Progress, m: ModelMethod, blocks: seq<seq<Instr>>)
    requires |p.logs| == |p.ms|
  {
    forall a :: 0 <= a < |p.ms| && p.ms[a] == m ==> SameTrace(p.logs[a], blocks)
  }

  ghost predicate UsedIsCalled(p: Progress, m: ModelMethod, blocks: seq<seq<Instr>>)
    requires |p.logs| == |p.ms| && |p.states| > |p.ms|
  {
    forall s :: Positions(blocks, s) != [] <==> SomeIndexed(p.ms, p.logs, p.states[|p.ms|].methods, s, m.sig)
  }

  lemma SomeCallerAt(p: Progress, m: ModelMethod, blocks: seq<seq<Instr>>, s: Sig)
    requires |p.logs| == |p.ms| && |p.states| > |p.ms| && Alone(p, m) && SameTraces(p, m, blocks)
    ensures SomeIndexed(p.ms, p.logs, p.states[|p.ms|].methods, s, m.sig) <==> exists b: nat :: CallsAt(p, m, s, b)
    ensures SomeIndexed(p.ms, p.logs, p.states[|p.ms|].methods, s, m.sig) ==> Positions(blocks, s) != []
  {
    hide Positions, PositionsOf, IndexedIn;
    var index := p.states[|p.ms|].methods;
    if SomeIndexed(p.ms, p.logs, index, s, m.sig) {
      var b: nat :| b < |p.ms| && p.ms[b].sig == m.sig && Calls(p.logs[b], s, index);
      assert p.ms[b] in p.ms && CallsAt(p, m, s, b);
      KeysHavePositions(p.logs[b], s);
    }
  }

  /** The one direction: some mapping of the method calls indexed nodes only. */
  lemma CurrentMapping(p: Progress, m: ModelMethod, blocks: seq<seq<Instr>>, b: nat)
    requires |p.logs| == |p.ms| && |p.states| > |p.ms| && Alone(p, m) && SameTraces(p, m, blocks)
    requires b < |p.ms| && p.ms[b] == m
    requires forall i :: 0 <= i < |p.logs[b]| ==> IndexedIn(p.states[|p.ms|].methods, p.logs[b][i].callee)
    ensures UsedIsCalled(p, m, blocks)
  {
    hide Positions, IndexedIn, SomeIndexed, Alone;
    forall s
      ensures Positions(blocks, s) != [] <==> SomeIndexed(p.ms, p.logs, p.states[|p.ms|].methods, s, m.sig)
    {
      SomeCallerAt(p, m, blocks, s);
      if Positions(blocks, s) != [] {
        CurrentLogCalls(p, b, m, blocks, s);
      }
    }
  }

  /** The other direction: a method that is mapped once, and has a call through a replaced node. */
  lemma OldCall(r: Round, u: Tour, p: Progress, m: ModelMethod, blocks: seq<seq<Instr>>, a: nat, c: Call,
      stale: set<Sig>)
    requires Passed(r, u, p, stale) && AllClear(p.states[0], p.start)
    requires |p.logs| == |p.ms| == |p.steps| && |p.states| == |p.ms| + 1 && p.states[0].Shaped()
    requires Alone(p, m) && SameTraces(p, m, blocks) && NamesAgree(p.states[0], p.start[m].instr)
    requires a < |p.ms| && p.ms[a] == m && m !in p.ms[..a] && forall b :: 0 <= b < |p.ms| && p.ms[b] == m ==> b == a
    requires c in Calling(p.start[m].instr, |p.start[m].instr|) && !CurrentRef(p.states[0], c.ref)
    ensures !UsedIsCalled(p, m, blocks)
  {
    hide Passed, AllClear, Positions, PositionsOf, CurrentRef, Graph.Shaped, SomeIndexed, Calling, Alone, IndexedIn;
    AloneStarts(p, m);
    var calls, log := Calling(p.start[m].instr, |p.start[m].instr|), p.logs[a];
    var i: nat :| i < |calls| && calls[i] == c;
    FirstLog(r, u, p, a, i, stale);
    CalleesCurrentIff(r, u, p, a, i, stale);
    var s := log[i].callee.sig;
    assert log[i] in log;
    KeysHavePositions(log, s);
    SomeCallerAt(p, m, blocks, s);
    if b: nat :| CallsAt(p, m, s, b) {
      var x :| x in log && x.callee.sig == s && IndexedIn(p.states[|p.ms|].methods, x.callee);
      var k: nat :| k < |log| && log[k] == x;
      FirstLog(r, u, p, a, k, stale);
      CalleesCurrentIff(r, u, p, a, k, stale);
      assert false;
    }
  }

  lemma AloneStarts(p: Progress, m: ModelMethod)
    requires Alone(p, m)
    ensures m in p.start && m in p.ms
  {
  }

  /** A method that has recorded nothing before, alone of its signature, whose calls of one name agree,
      is afterwards a caller of exactly the methods it uses if and only if it was mapped more than once
      or none of its calls denoted a replaced node before the pass. */
  lemma UsesAreCallsIff(r: Round, u: Tour, p: Progress, m: ModelMethod, use: map<Sig, seq<Pos>>,
      blocks: seq<seq<Instr>>, stale: set<Sig>)
    requires Passed(r, u, p, stale) && AllClear(p.states[0], p.start)
    requires |p.logs| == |p.ms| && |p.states| == |p.ms| + 1 && p.states[0].Shaped()
    requires Alone(p, m) && SameTraces(p, m, blocks) && Recorded(map[], use, blocks, Occurrences(p.ms, m))
    requires NamesAgree(p.states[0], p.start[m].instr)
    ensures (forall s :: s in use <==>
        m in ListAt(CalledAll(p.ledger.callers, p.ms, p.logs), p.states[|p.ms|].methods, s))
      <==> Occurrences(p.ms, m) > 1 || CallsCurrent(p.states[0], p.start[m].instr)
  {
    hide Passed, AllClear, Positions, CurrentRef, Graph.Shaped, SomeIndexed, Calling, CalledAll, Recorded, SameTrace;
    hide Unlisted, IndexedIn;
    var index := p.states[|p.ms|].methods;
    Sizes(r, u, p, stale);
    KeyedAt(r, u, p, stale);
    CallersAreUses(p.ledger.callers, p.ms, p.logs, index, m, use, blocks);
    assert UsedIsCalled(p, m, blocks) <==>
      forall s :: Positions(blocks, s) != [] <==> SomeIndexed(p.ms, p.logs, index, s, m.sig);
    var a, b := OccursAt(p.ms, m);
    if Occurrences(p.ms, m) > 1 {
      forall i | 0 <= i < |p.logs[b]|
        ensures IndexedIn(index, p.logs[b][i].callee)
      {
        SecondTimeCurrent(r, u, p, b, i, stale);
      }
      CurrentMapping(p, m, blocks, b);
    } else if CallsCurrent(p.states[0], p.start[m].instr) {
      forall i | 0 <= i < |p.logs[a]|
        ensures IndexedIn(index, p.logs[a][i].callee)
      {
        FirstLog(r, u, p, a, i, stale);
        CalleesCurrentIff(r, u, p, a, i, stale);
      }
      CurrentMapping(p, m, blocks, a);
    } else {
      var c :| c in Calling(p.start[m].instr, |p.start[m].instr|) && !CurrentRef(p.states[0], c.ref);
      OldCall(r, u, p, m, blocks, a, c, stale);
    }
  }

  /** The caller lists under the signatures, at the end of a pass. */
  lemma CallerIndexIs(db: AnalyzerDatabase, p: Progress, stale: set<Sig>)
    requires CrossReferenced(db, p, stale)
    ensures |p.logs| == |p.ms|
    ensures var lists := CalledAll(p.ledger.callers, p.ms, p.logs);
      forall s :: Get(CallerIndex(db), Signature(s)) == ListAt(lists, db.methods, s)
  {
    hide Recorded, FullyLinked, AllKnown, SameTrace, CalledAll, Entries;
    CallerLists(db, p);
    assert forall s :: Signature(s) in db.methods ==> db.methods[Signature(s)] in db.methods.Values;
  }

  lemma KeyedAt(r: Round, u: Tour, p: Progress, stale: set<Sig>)
    requires Passed(r, u, p, stale)
    ensures |p.states| == |p.ms| + 1 && Keyed(p.states[|p.ms|].methods)
  {
    hide Passed, Graph.Consistent;
    Sizes(r, u, p, stale);
    StateOf(r, u, p, |p.ms|, stale);
    ShapedOf(p.states[|p.ms|], {}, stale);
    EntrySigs(p.states[|p.ms|], stale);
  }

  // ---------- a batch of fresh methods ----------

  /** What is mapped is in the index at the end. */
  lemma MappedIndexed(r: Round, u: Tour, p: Progress, a: nat, stale: set<Sig>)
    requires Passed(r, u, p, stale) && a < |p.ms| && |p.states| == |p.ms| + 1
    ensures Signature(p.ms[a].sig) in p.states[|p.ms|].methods
    ensures stale == {} ==> p.states[|p.ms|].HasMethod(p.ms[a])
  {
    hide Passed, Graph.Consistent, Placed, Round.Held;
    var j, b := VisitOf(r, u, p, a, stale);
    HeldAt(r, u, p, j, a, stale);
    HeldIndexed(r, j, p.states[a], u.keys[a], stale);
    StateOf(r, u, p, a, stale);
    IndexedStays(p.states[a], p.states[|p.ms|], p.ms[a]);
  }

  lemma HeldIndexed(r: Round, j: nat, g: Graph, k: Key, stale: set<Sig>)
    requires j < |r.batch| == |r.own| && g.Consistent({}, stale) && Placed(g, r.batch[j], r.own[j])
    requires k in r.Held(j, g).at
    ensures var m := r.Held(j, g).at[k];
      m in g.methods.Values && Signature(m.sig) in g.methods && (stale == {} ==> g.HasMethod(m))
  {
    var v := r.batch[j];
    EntrySigs(g, stale);
    if g.HasClass(v) {
      assert g.MembersIndexed(v.name, stale) && g.Indexed(g.classes[v.name].methods.at[k], k, stale);
      StoredMember(g, v.name, k, stale);
    }
  }

  /** An own method of the batch, before and after the pass. */
  lemma OwnRecorded(db: AnalyzerDatabase, r: Round, u: Tour, p: Progress, j: nat, k: Key, stale: set<Sig>)
    requires Passed(r, u, p, stale) && CrossReferenced(db, p, stale) && j < |r.batch| && |r.batch| == |r.own|
    requires |p.states| == |p.ms| + 1 && k in r.Held(j, p.states[0]).at && k.Signature?
    ensures |p.logs| == |p.ms|
    ensures var m := r.Held(j, p.states[0]).at[k];
      && m in p.ms && m in p.start && m.sig == k.sig && SameTraces(p, m, m.instr) && FullyLinked(db.methods, m.instr)
      && Recorded(p.start[m].note.uses, m.useMethod, m.instr, Occurrences(p.ms, m))
      && NoteOf(m).excess == p.start[m].note.excess
  {
    hide Toured, Walked, Graph.Consistent, Placed, Round.Held, Recorded, FullyLinked, SameTrace, AllKnown, CalledAll;
    hide CallerIndex;
    var a := OwnVisited(r, u, p, j, k, stale);
    HeldAt(r, u, p, j, 0, stale);
    HeldIndexed(r, j, p.states[0], k, stale);
    OwnMember(r, j, p.states[0], k, stale);
  }

  /** After a pass over a graph without replaced methods, an own method of the batch that had recorded
      nothing, and that no caller list has, is a caller of exactly the methods it uses. */
  lemma FreshCallers(db: AnalyzerDatabase, r: Round, u: Tour, p: Progress, j: nat, k: Key)
    requires Passed(r, u, p, {}) && CrossReferenced(db, p, {}) && p.states[|p.ms|] == db.View()
    requires j < |r.batch| && k in r.Held(j, p.states[0]).at && k.Signature?
    requires var m := r.Held(j, p.states[0]).at[k];
      && m in p.start && p.start[m].note.uses == map[] && NowhereListed(p.ledger.callers, m.sig)
    ensures var m := r.Held(j, p.states[0]).at[k];
      forall s :: s in m.useMethod <==> m in Get(CallerIndex(db), Signature(s))
  {
    hide Passed, Graph.Consistent, Placed, Round.Held, Recorded, SameTrace, AllKnown, CalledAll, CallerIndex;
    hide Unlisted, FullyLinked;
    Sizes(r, u, p, {});
    var m := r.Held(j, p.states[0]).at[k];
    OwnRecorded(db, r, u, p, j, k, {});
    OnlyOfSignature(r, u, p, m);
    KeyedAt(r, u, p, {});
    CallerIndexIs(db, p, {});
    CurrentCallersAreUses(p.ledger.callers, p.ms, p.logs, db.methods, m, m.useMethod, m.instr);
  }

  lemma OnlyOfSignature(r: Round, u: Tour, p: Progress, m: ModelMethod)
    requires Passed(r, u, p, {}) && m in p.ms
    ensures forall x :: x in p.ms && x.sig == m.sig ==> x == m
  {
    hide Passed, Graph.Consistent;
    Sizes(r, u, p, {});
    var b :| 0 <= b < |p.ms| && p.ms[b] == m;
    MappedIndexed(r, u, p, b, {});
    forall x | x in p.ms && x.sig == m.sig
      ensures x == m
    {
      var a :| 0 <= a < |p.ms| && p.ms[a] == x;
      MappedIndexed(r, u, p, a, {});
    }
  }

  /** What the index holds in a pass is what it held at the start, or new under its signature. */
  lemma {:induction false} PassSigned(r: Round, u: Tour, p: Progress, a: nat, stale: set<Sig>)
    requires Passed(r, u, p, stale) && a <= |p.ms| && |p.states| == |p.ms| + 1
    ensures NewSigned(p.states[0], p.states[a])
  {
    hide Path, Toured, Graph.Consistent, Placed, Resolving, Extends, NewSigned;
    if a > 0 {
      PassSigned(r, u, p, a - 1, stale);
      StateOf(r, u, p, a - 1, stale);
      assert WalkedAt(p, a - 1, stale);
      PathSigned(p.states[0], p.states[a - 1], p.steps[a - 1], p.states[a], stale);
    } else {
      SelfSigned(p.states[0]);
    }
  }

  lemma SelfSigned(g: Graph)
    ensures NewSigned(g, g)
  {
  }

  /** If at the start no other node has the signature of `m`, then `m` is the only one of it to be mapped. */
  lemma AloneFrom(r: Round, u: Tour, p: Progress, m: ModelMethod, stale: set<Sig>)
    requires Passed(r, u, p, stale) && m in p.ms && m in p.start
    requires forall x :: x in p.start && x.sig == m.sig ==> x == m
    requires NowhereListed(p.ledger.callers, m.sig)
    ensures Alone(p, m)
  {
    hide Toured, Walked, Graph.Consistent, Placed, Round.Held, Unlisted;
    Sizes(r, u, p, stale);
    StartSigned(p.states[0], m, stale);
    forall x | x in p.ms && x.sig == m.sig
      ensures x == m
    {
      var a :| 0 <= a < |p.ms| && p.ms[a] == x;
      var j, b := VisitOf(r, u, p, a, stale);
      HeldAt(r, u, p, j, a, stale);
      HeldIndexed(r, j, p.states[a], u.keys[a], stale);
      PassSigned(r, u, p, a, stale);
    }
  }

  lemma StartSigned(g: Graph, m: ModelMethod, stale: set<Sig>)
    requires g.Consistent({}, stale) && m in g.methods.Values
    ensures Signature(m.sig) in g.methods
  {
    var k :| k in g.methods && g.methods[k] == m;
    assert g.MethodEntry(k, stale);
  }

  /** An own method of the batch that had recorded nothing, that no list had, and whose signature no other
      node has, and whose calls of one name agree: if no call left to resolve names a class that has a
      slot already, then it is a caller of exactly the methods it uses if and only if it was mapped more
      than once or none of its calls denoted a replaced node before the pass. */
  lemma OwnUsesIff(db: AnalyzerDatabase, r: Round, u: Tour, p: Progress, j: nat, k: Key, stale: set<Sig>)
    requires Passed(r, u, p, stale) && CrossReferenced(db, p, stale) && p.states[|p.ms|] == db.View()
    requires AllClear(p.states[0], p.start) && p.states[0].Shaped()
    requires j < |r.batch| && k in r.Held(j, p.states[0]).at && k.Signature?
    requires var m := r.Held(j, p.states[0]).at[k];
      && m in p.start && p.start[m].note.uses == map[] && NowhereListed(p.ledger.callers, m.sig)
      && (forall x :: x in p.start && x.sig == m.sig ==> x == m) && NamesAgree(p.states[0], p.start[m].instr)
    ensures var m := r.Held(j, p.states[0]).at[k];
      (forall s :: s in m.useMethod <==> m in Get(CallerIndex(db), Signature(s))) <==>
        Occurrences(p.ms, m) > 1 || CallsCurrent(p.states[0], p.start[m].instr)
  {
    hide Passed, Graph.Consistent, Graph.Shaped, Placed, Round.Held, Recorded, SameTrace, AllKnown, CalledAll;
    hide CallerIndex, Unlisted, FullyLinked, NamesAgree, CallsCurrent, AllClear, Alone;
    Sizes(r, u, p, stale);
    var m := r.Held(j, p.states[0]).at[k];
    OwnRecorded(db, r, u, p, j, k, stale);
    AloneFrom(r, u, p, m, stale);
    CallerIndexIs(db, p, stale);
    UsesAreCallsIff(r, u, p, m, m.useMethod, m.instr, stale);
  }

  /** The code makes no call if and only if none is recorded. */
  lemma NoCallsIff(r: Round, u: Tour, p: Progress, m: ModelMethod, blocks: seq<seq<Instr>>, stale: set<Sig>)
    requires Passed(r, u, p, stale) && |p.logs| == |p.ms| && m in p.ms && m in p.start && SameTraces(p, m, blocks)
    ensures Calling(p.start[m].instr, |p.start[m].instr|) == [] <==> forall s :: Positions(blocks, s) == []
  {
    hide Passed, Calling, Positions, PositionsOf;
    Sizes(r, u, p, stale);
    var a, b := OccursAt(p.ms, m);
    FirstLog(r, u, p, a, 0, stale);
    var log := p.logs[a];
    forall s
      ensures PositionsOf(log, s) == Positions(blocks, s)
      ensures (exists x :: x in log && x.callee.sig == s) <==> PositionsOf(log, s) != []
    {
      KeysHavePositions(log, s);
    }
    if log != [] {
      assert log[0] in log;
      assert Positions(blocks, log[0].callee.sig) != [];
    }
  }

  /** A method that had recorded nothing before has exact uses if and only if it is mapped once, or has
      no call. */
  lemma ExactIff(index: map<Key, ModelMethod>, use: map<Sig, seq<Pos>>, blocks: seq<seq<Instr>>, c: nat)
    requires Recorded(map[], use, blocks, c) && c > 0 && FullyLinked(index, blocks)
    ensures ExactUses(blocks, use) <==> c == 1 || forall s :: Positions(blocks, s) == []
  {
    hide Positions, FullyLinked, Recorded, ExactUses, NoRepeats;
    OnceIff(use, blocks, c);
    if c == 1 {
      MappedMethod(index, use, blocks);
    } else if forall s :: Positions(blocks, s) == [] {
      NoUses(index, use, blocks, c);
    } else if ExactUses(blocks, use) {
      ExactNoRepeats(blocks, use);
    }
  }

  lemma ExactNoRepeats(blocks: seq<seq<Instr>>, use: map<Sig, seq<Pos>>)
    requires ExactUses(blocks, use)
    ensures forall s :: NoRepeats(Get(use, s))
  {
    forall s, a, b | s in use && 0 <= a < b < |use[s]|
      ensures use[s][a] != use[s][b]
    {
      assert Before(use[s][a], use[s][b]);
    }
  }

  lemma NoUses(index: map<Key, ModelMethod>, use: map<Sig, seq<Pos>>, blocks: seq<seq<Instr>>, c: nat)
    requires Recorded(map[], use, blocks, c) && FullyLinked(index, blocks) && forall s :: Positions(blocks, s) == []
    ensures ExactUses(blocks, use)
  {
    hide Positions;
    forall p
      ensures !CallAt(blocks, p)
    {
      if CallAt(blocks, p) {
        PositionsAreCalls(blocks, CalleeAt(blocks, p).sig, p);
      }
    }
  }

  /** Where no call of what the batch holds is left to resolve in one of its stored classes, an own
      method that had recorded nothing afterwards holds exactly its calls, each once and in order, if
      and only if it makes no call or no slot of the batch held it before the pass. */
  lemma FreshExactIff(db: AnalyzerDatabase, r: Round, u: Tour, p: Progress, j: nat, k: Key, stale: set<Sig>)
    requires Passed(r, u, p, stale) && CrossReferenced(db, p, stale) && NamedApart(r.batch)
    requires j < |r.batch| && k in r.Held(j, p.states[0]).at && k.Signature?
    requires var m := r.Held(j, p.states[0]).at[k]; m in p.start && p.start[m].note.uses == map[]
    requires Settled(r, p.states[0], p.start)
    ensures var m := r.Held(j, p.states[0]).at[k];
      ExactUses(m.instr, m.useMethod) <==>
        Calling(p.start[m].instr, |p.start[m].instr|) == [] || !exists i: nat :: SlotHolds(r, p.states[0], i, m)
  {
    hide Passed, Graph.Consistent, Placed, Round.Held, Recorded, CrossReferenced, Settled, ExactUses, Positions;
    hide Calling, FullyLinked, SameTrace, SlotHolds;
    Sizes(r, u, p, stale);
    var m := r.Held(j, p.states[0]).at[k];
    OwnRecorded(db, r, u, p, j, k, stale);
    OnceBeforeIff(r, u, p, j, k, stale);
    NoCallsIff(r, u, p, m, m.instr, stale);
    ExactIff(db.methods, m.useMethod, m.instr, Occurrences(p.ms, m));
  }

  /** A class of the batch has the method under its signature. */
  ghost predicate Declared(r: Round, g: Graph, m: ModelMethod)
    requires |r.batch| == |r.own|
  {
    exists j, k :: 0 <= j < |r.batch| && k in r.Held(j, g).at && k.Signature? && r.Held(j, g).at[k] == m
  }

  /** A declared method of the batch that has recorded nothing, that no caller list has, and that no slot
      of the batch holds. */
  ghost predicate Fresh(r: Round, p: Progress, m: ModelMethod)
    requires |r.batch| == |r.own| && |p.states| > 0
  {
    && Declared(r, p.states[0], m) && m in p.start && p.start[m].note == Note(map[], 0)
    && NowhereListed(p.ledger.callers, m.sig)
    && !exists i: nat :: SlotHolds(r, p.states[0], i, m)
  }

  /** What a method has recorded is exact: each of its calls once and in order, one count for each
      signature, and it is a caller of what it uses. */
  ghost predicate Exact(db: AnalyzerDatabase, m: ModelMethod)
    reads db, db.methods.Values, m
  {
    && ExactUses(m.instr, m.useMethod) && m.useMethodCtr == |m.useMethod|
    && forall s :: s in m.useMethod <==> m in Get(CallerIndex(db), Signature(s))
  }

  /** A pass over a valid graph leaves exact records of every fresh method of the batch, if no call of
      what the batch holds is left to resolve in one of its stored classes. */
  lemma FreshBatch(db: AnalyzerDatabase, r: Round, u: Tour, p: Progress)
    requires Passed(r, u, p, {}) && CrossReferenced(db, p, {}) && p.states[|p.ms|] == db.View()
    requires NamedApart(r.batch) && Settled(r, p.states[0], p.start)
    ensures |r.batch| == |r.own| && forall m :: Fresh(r, p, m) ==> Exact(db, m)
  {
    hide Passed, Round.Held, Recorded, CrossReferenced, Settled, ExactUses, SlotHolds, CallerIndex, Unlisted;
    Sizes(r, u, p, {});
    forall m | Fresh(r, p, m)
      ensures Exact(db, m)
    {
      var j, k :| 0 <= j < |r.batch| && k in r.Held(j, p.states[0]).at && k.Signature?
        && r.Held(j, p.states[0]).at[k] == m;
      FreshExactIff(db, r, u, p, j, k, {});
      FreshCallers(db, r, u, p, j, k);
      OwnRecorded(db, r, u, p, j, k, {});
    }
  }
}
