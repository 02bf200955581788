/** A concrete run of two builds that starts from an empty database and meets three defects of the code:
    a method that is mapped twice, an inherited slot that keeps a replaced method, and a call through
    such a slot. */
module Scenarios {
  import opened Model
  import opened Resolver
  import opened Merge
  import opened Steps
  import opened Ledgers
  import opened XRef
  import opened Passes
  import opened Build

  const AF := Sig("A", "f", "()V")
  const AG := Sig("A", "g", "()V")
  const BF := Sig("B", "f", "()V")
  const DF := Sig("D", "f", "()V")

  function CallTo(ref: Sig): Instr {
    Invoke("invoke-virtual", false, false, Ref(ref))
  }

  /** A method as the parser leaves it. */
  ghost predicate IsMethod(m: ModelMethod, sig: Sig, instr: seq<seq<Instr>>)
    reads m
  {
    && m.sig == sig && !m.missing && !m.isPrivate && m.instr == instr
    && m.useMethod == map[] && m.useMethodCtr == 0 && m.callers == []
  }

  function One(k: Key, m: ModelMethod): (t: Table<ModelMethod>)
    ensures t.Valid()
  {
    var at: map<Key, ModelMethod> := map[k := m];
    Table([k], at)
  }

  function Two(k: Key, m: ModelMethod, j: Key, n: ModelMethod): (t: Table<ModelMethod>)
    requires j != k
    ensures t.Valid()
  {
    var at: map<Key, ModelMethod> := map[k := m, j := n];
    Table([k, j], at)
  }

  /** A class as the parser leaves it. */
  ghost predicate IsClass(c: ModelClass, name: string, super: Super, methods: Table<ModelMethod>)
    reads c
  {
    && c.name == name && c.superClass == super && c.interfaces == [] && c.methods == methods
    && c.fields == EmptyTable()
  }

  // ---------- one mapping ----------

  lemma OneCalling(ref: Sig)
    ensures Calling([[CallTo(ref)]], 1) == [Call(Pos(0, 0), "invoke-virtual", false, ref)]
  {
    var block := [CallTo(ref)];
    assert BlockCalls(block, 0, 1) == BlockCalls(block, 0, 0) + [Call(Pos(0, 0), "invoke-virtual", false, ref)];
    assert Calling([block], 1) == Calling([block], 0) + BlockCalls(block, 0, 1);
  }

  /** The first mapping of a method that makes one call. */
  lemma OneCall(r: Round, u: Tour, p: Progress, a: nat, ref: Sig, stale: set<Sig>) returns (x: Step)
    requires Passed(r, u, p, stale) && a < |p.ms| && p.ms[a] in p.start && p.ms[a] !in p.ms[..a]
    requires p.start[p.ms[a]].instr == [[CallTo(ref)]]
    ensures |p.states| == |p.ms| + 1 == |p.logs| + 1
    ensures Taken(x, stale) && x.ref == ref && x.g == p.states[a] && x.h == p.states[a + 1]
    ensures p.logs[a] == [Site(Pos(0, 0), "invoke-virtual", x.callee)]
  {
    hide Toured, Graph.Consistent, Placed, Taken;
    assert WalkedAt(p, a, stale);
    OneCalling(ref);
    x := p.steps[a][0];
    assert p.steps[a][..0] == [] && Path(p.states[a], p.steps[a][..0], x.g, stale);
    assert p.logs[a] == [p.logs[a][0]];
  }

  /** The first mapping of a method that makes none. */
  lemma NoCall(r: Round, u: Tour, p: Progress, a: nat, stale: set<Sig>)
    requires Passed(r, u, p, stale) && a < |p.ms| && p.ms[a] in p.start && p.ms[a] !in p.ms[..a]
    requires p.start[p.ms[a]].instr == []
    ensures |p.states| == |p.ms| + 1 == |p.logs| + 1
    ensures p.states[a + 1] == p.states[a] && p.logs[a] == []
  {
    hide Toured, Graph.Consistent, Placed, Taken;
    assert WalkedAt(p, a, stale);
  }

  /** A later mapping. */
  lemma MappedAgain(r: Round, u: Tour, p: Progress, a: nat, stale: set<Sig>)
    requires Passed(r, u, p, stale) && a < |p.ms| && p.ms[a] in p.ms[..a]
    ensures |p.states| == |p.ms| + 1 && p.states[a + 1] == p.states[a]
  {
    hide Toured, Graph.Consistent, Placed;
    assert WalkedAt(p, a, stale);
    PathStill(p.states[a], p.steps[a], p.states[a + 1], stale);
  }

  /** How many visits the turn of class `j` takes. */
  lemma TurnEnds(r: Round, u: Tour, p: Progress, j: nat, stale: set<Sig>)
    requires Passed(r, u, p, stale) && j < |r.batch| == |r.own| && |u.begins| == |r.batch| + 1
    requires u.begins[j] < |p.states| == |p.ms| + 1
    ensures u.begins[j + 1] == u.begins[j] + |r.Held(j, p.states[u.begins[j]]).keys| <= |p.ms|
  {
    hide Walked, Graph.Consistent, Placed, Round.Held;
    assert TurnDone(r, u, p.states, j);
  }

  /** The visit under key number `i`. */
  lemma TurnKey(r: Round, u: Tour, p: Progress, j: nat, i: nat, k: Key, stale: set<Sig>)
    requires Passed(r, u, p, stale) && j < |r.batch| == |r.own| && |u.begins| == |r.batch| + 1
    requires u.begins[j] < |p.states| == |p.ms| + 1 && i < |r.Held(j, p.states[u.begins[j]]).keys|
    requires k == r.Held(j, p.states[u.begins[j]]).keys[i]
    ensures var a := u.begins[j] + i;
      a < |p.ms| && k in r.Held(j, p.states[a]).at && p.ms[a] == r.Held(j, p.states[a]).at[k]
  {
    hide Walked, Graph.Consistent, Placed, Round.Held;
    assert TurnDone(r, u, p.states, j);
    assert VisitAt(r, u, p.ms, p.states, u.begins[j] + i);
  }

  lemma TourEnds(r: Round, u: Tour, p: Progress, stale: set<Sig>)
    requires Passed(r, u, p, stale)
    ensures |r.batch| == |r.own| && |u.begins| == |r.batch| + 1 && |p.states| == |p.ms| + 1
    ensures u.begins[0] == 0 && u.begins[|r.batch|] == |p.ms|
  {
  }

  // ---------- the graphs ----------

  /** `D` extends `B`, which extends `A`; `f` is a method that `A` declared. */
  ghost predicate Family(g: Graph, a: ModelClass, b: ModelClass, d: ModelClass, f: ModelMethod,
      inB: Table<ModelMethod>)
  {
    && a.name == "A" && b.name == "B" && d.name == "D" && g.HasClass(b) && g.HasClass(d)
    && g.classes["B"].superClass == Resolved(a) && g.classes["D"].superClass == Resolved(b)
    && g.classes["B"].methods == inB && g.classes["D"].methods == EmptyTable()
    && f.sig == AF && !f.missing && !f.isPrivate
  }

  lemma FirstOfOne(k: Key, f: ModelMethod, name: string)
    requires f.sig.name == name && !f.missing && !f.isPrivate
    ensures FirstAdmissible(One(k, f).keys, One(k, f).at, name) == Some(f)
  {
  }

  /** `B.f` denotes the `f` of `A`. */
  lemma FindsF(g: Graph, a: ModelClass, b: ModelClass, d: ModelClass, f: ModelMethod)
    requires g.Shaped() && Family(g, a, b, d, f, EmptyTable())
    requires g.HasClass(a) && g.classes["A"].methods == One(Signature(AF), f)
    requires g.methods == map[Signature(AF) := f]
    ensures Lookup(g, BF) == Some(f)
  {
    hide FirstAdmissible;
    FirstOfOne(Signature(AF), f, "f");
    assert Inherited(g, "A", "f") == Some(Found(f, g.classes["A"].node));
  }

  /** `D.f` denotes what the slot of `B` holds. */
  lemma FindsSlot(g: Graph, a: ModelClass, b: ModelClass, d: ModelClass, f: ModelMethod)
    requires g.Shaped() && Family(g, a, b, d, f, One(ByFqcn("B"), f)) && Signature(DF) !in g.methods
    ensures Lookup(g, DF) == Some(f)
  {
    hide FirstAdmissible;
    FirstOfOne(ByFqcn("B"), f, "f");
    assert Inherited(g, "B", "f") == Some(Found(f, g.classes["B"].node));
  }

  /** The step that resolves `B.f` gives `B` a slot. */
  lemma SlotStep(x: Step, a: ModelClass, b: ModelClass, d: ModelClass, f: ModelMethod)
    requires Taken(x, {}) && x.ref == BF && Family(x.g, a, b, d, f, EmptyTable())
    requires x.g.HasClass(a) && x.g.classes["A"].methods == One(Signature(AF), f)
    requires x.g.methods == map[Signature(AF) := f]
    ensures x.callee == f && x.h.methods == map[Signature(AF) := f, ByFqcn("B") := f]
    ensures Family(x.h, a, b, d, f, One(ByFqcn("B"), f))
  {
    hide Graph.Consistent, Extends, Graph.Shaped, Lookup, Resolves;
    StepJoins(x, {});
    FindsF(x.g, a, b, d, f);
    StepFinds(x, {});
    assert EmptyTable().Put(ByFqcn("B"), f) == One(ByFqcn("B"), f);
    assert x.g.methods[ByFqcn("B") := f] == map[Signature(AF) := f, ByFqcn("B") := f];
  }

  // ---------- pass 4 of the first build ----------

  /** `f` is mapped at the turn of `A`, which gives `B` a slot, and so again at the turn of `B`. */
  lemma FirstPass(r: Round, u: Tour, p: Progress, a: ModelClass, b: ModelClass, d: ModelClass, f: ModelMethod)
    requires Passed(r, u, p, {}) && r.batch == [a, b, d] && Family(p.states[0], a, b, d, f, EmptyTable())
    requires p.states[0].HasClass(a) && p.states[0].classes["A"].methods == One(Signature(AF), f)
    requires p.states[0].methods == map[Signature(AF) := f]
    requires f in p.start && p.start[f].instr == [[CallTo(BF)]]
    ensures p.ms == [f, f] && |p.states| == 3 && |p.logs| == 2
    ensures p.logs[0] == [Site(Pos(0, 0), "invoke-virtual", f)]
    ensures p.states[2].methods == map[Signature(AF) := f, ByFqcn("B") := f]
    ensures Family(p.states[2], a, b, d, f, One(ByFqcn("B"), f))
  {
    hide Passed, Taken, Graph.Consistent;
    TourEnds(r, u, p, {});
    TurnEnds(r, u, p, 0, {});
    TurnKey(r, u, p, 0, 0, Signature(AF), {});
    assert p.ms[..0] == [];
    var x := OneCall(r, u, p, 0, BF, {});
    SlotStep(x, a, b, d, f);
    TurnEnds(r, u, p, 1, {});
    TurnKey(r, u, p, 1, 0, ByFqcn("B"), {});
    assert p.ms[..1] == [f];
    MappedAgain(r, u, p, 1, {});
    TurnEnds(r, u, p, 2, {});
  }

  // ---------- pass 4 of the second build ----------

  function NewTable(newF: ModelMethod, caller: ModelMethod): (t: Table<ModelMethod>)
    ensures t.Valid()
  {
    Two(Signature(AF), newF, Signature(AG), caller)
  }

  function NewIndex(newF: ModelMethod, caller: ModelMethod, f: ModelMethod): map<Key, ModelMethod> {
    map[Signature(AF) := newF, Signature(AG) := caller, ByFqcn("B") := f]
  }

  /** The step that resolves `D.f` finds the old `f` in the slot of `B`. */
  lemma OldStep(x: Step, a: ModelClass, b: ModelClass, d: ModelClass, f: ModelMethod, newF: ModelMethod,
      caller: ModelMethod, stale: set<Sig>)
    requires Taken(x, stale) && x.ref == DF && Family(x.g, a, b, d, f, One(ByFqcn("B"), f))
    requires x.g.methods == NewIndex(newF, caller, f)
    ensures x.callee == f && x.h.methods == NewIndex(newF, caller, f)[ByFqcn("D") := f]
  {
    hide Graph.Consistent, Extends, Graph.Shaped, Lookup, Resolves;
    StepJoins(x, stale);
    FindsSlot(x.g, a, b, d, f);
    StepFinds(x, stale);
  }

  lemma SecondPass(r: Round, u: Tour, p: Progress, newA: ModelClass, newF: ModelMethod, caller: ModelMethod,
      a: ModelClass, b: ModelClass, d: ModelClass, f: ModelMethod, stale: set<Sig>)
    requires Passed(r, u, p, stale) && r == Round([newA], [NewTable(newF, caller)]) && newF != caller
    requires !p.states[0].HasClass(newA) && Family(p.states[0], a, b, d, f, One(ByFqcn("B"), f))
    requires p.states[0].methods == NewIndex(newF, caller, f)
    requires newF in p.start && p.start[newF].instr == []
    requires caller in p.start && p.start[caller].instr == [[CallTo(DF)]]
    ensures p.ms == [newF, caller] && |p.states| == 3 && |p.logs| == 2
    ensures p.logs == [[], [Site(Pos(0, 0), "invoke-virtual", f)]]
    ensures p.states[2].methods == NewIndex(newF, caller, f)[ByFqcn("D") := f]
  {
    hide Passed, Taken, Graph.Consistent;
    TourEnds(r, u, p, stale);
    TurnEnds(r, u, p, 0, stale);
    TurnKey(r, u, p, 0, 0, Signature(AF), stale);
    assert p.ms[..0] == [];
    NoCall(r, u, p, 0, stale);
    HeldAt(r, u, p, 0, 1, stale);
    TurnKey(r, u, p, 0, 1, Signature(AG), stale);
    assert p.ms[..1] == [newF];
    var x := OneCall(r, u, p, 1, DF, stale);
    OldStep(x, a, b, d, f, newF, caller, stale);
  }

  // ---------- what the methods have recorded ----------

  lemma OnePosition(x: Site)
    ensures PositionsOf([x], x.callee.sig) == [x.pos]
  {
    assert [x][..0] == [];
  }

  lemma TimesOf(p: Pos)
    ensures Times([p], 1) == [p] && Times([p], 2) == [p, p]
  {
    assert Times([p], 2) == Times([p], 1) + [p] && Times([p], 1) == Times([p], 0) + [p];
  }

  /** The uses of a method that has made one call, mapped once or twice. */
  lemma UsesOfOne(use: map<Sig, seq<Pos>>, blocks: seq<seq<Instr>>, x: Site, c: nat)
    requires SameTrace([x], blocks) && Recorded(map[], use, blocks, c) && 1 <= c <= 2
    ensures x.callee.sig in use && use[x.callee.sig] == if c == 1 then [x.pos] else [x.pos, x.pos]
  {
    hide PositionsOf, Times;
    var s := x.callee.sig;
    OnePosition(x);
    TimesOf(x.pos);
    assert Positions(blocks, s) == [x.pos];
    assert Get(use, s) == Get(map[], s) + Times(Positions(blocks, s), c);
  }

  lemma FirstRecorded(db: AnalyzerDatabase, p: Progress, f: ModelMethod)
    requires CrossReferenced(db, p, {}) && p.ms == [f, f] && |p.logs| == 2 && f.sig == AF
    requires p.logs[0] == [Site(Pos(0, 0), "invoke-virtual", f)] && f in p.start && p.start[f].note.uses == map[]
    ensures AF in f.useMethod && f.useMethod[AF] == [Pos(0, 0), Pos(0, 0)]
  {
    hide Recorded, SameTrace, FullyLinked, AllKnown, CalledAll, CallerIndex;
    assert p.ms[0] in p.ms && Occurrences(p.ms, f) == 2;
    UsesOfOne(f.useMethod, f.instr, Site(Pos(0, 0), "invoke-virtual", f), 2);
  }

  lemma SecondRecorded(db: AnalyzerDatabase, p: Progress, newF: ModelMethod, caller: ModelMethod, f: ModelMethod,
      stale: set<Sig>)
    requires CrossReferenced(db, p, stale) && p.ms == [newF, caller] && newF != caller && f != newF && f.sig == AF
    requires p.logs == [[], [Site(Pos(0, 0), "invoke-virtual", f)]]
    requires caller in p.start && p.start[caller].note.uses == map[] && Get(p.ledger.callers, newF) == []
    requires Signature(AF) in db.methods && db.methods[Signature(AF)] == newF
    ensures AF in caller.useMethod && caller.useMethod[AF] == [Pos(0, 0)] && caller !in newF.callers
  {
    hide Recorded, SameTrace, FullyLinked, AllKnown, CalledAll, Entries;
    assert p.ms[1] in p.ms && Occurrences(p.ms, caller) == 1;
    var x := Site(Pos(0, 0), "invoke-virtual", f);
    UsesOfOne(caller.useMethod, caller.instr, x, 1);
    CallerLists(db, p);
    CalledAllIff(p.ledger.callers, p.ms, p.logs, newF, caller);
    assert !CallsNode(p.logs[0], newF) && !CallsNode(p.logs[1], newF);
  }

  // ---------- the first build ----------

  method ParseMethod(sig: Sig, instr: seq<seq<Instr>>) returns (m: ModelMethod)
    ensures fresh(m) && IsMethod(m, sig, instr)
  {
    m := new ModelMethod(sig, false, false, false, null, instr);
  }

  method ParseClass(name: string, super: Super, methods: Table<ModelMethod>) returns (c: ModelClass)
    ensures fresh(c) && IsClass(c, name, super, methods)
  {
    c := new ModelClass(name, false);
    c.superClass := super;
    c.methods := methods;
  }

  lemma ParsedClass(c: ModelClass, name: string, super: Super, methods: Table<ModelMethod>, rank: string -> nat)
    requires IsClass(c, name, super, methods) && !super.Resolved? && methods.Valid()
    requires super.Unresolved? ==> rank(super.fqcn) < rank(name)
    requires forall k :: k in methods.at ==> k == Signature(methods.at[k].sig) && k.sig.fqcn == name
    ensures Mergeable(c, rank) && c.View().node.name == name && c.View().superClass == super
    ensures c.View().methods == methods && c.View().node == c
  {
  }

  lemma EmptyIsValid(db: AnalyzerDatabase)
    requires db.classes == map[] && db.methods == map[]
    ensures db.View().Consistent({}, {}) && db.classes.Keys == {} && db.View().classes.Keys == {}
    ensures db.View().methods == map[]
  {
  }

  /** The classes of the first batch. */
  ghost predicate FirstBatch(a: ModelClass, b: ModelClass, d: ModelClass, f: ModelMethod)
    reads a, b, d
  {
    && IsClass(a, "A", NoSuper, One(Signature(AF), f)) && IsClass(b, "B", Unresolved("A"), EmptyTable())
    && IsClass(d, "D", Unresolved("B"), EmptyTable()) && f.sig == AF
  }

  ghost predicate FirstViews(views: seq<ClassView>, a: ModelClass, b: ModelClass, d: ModelClass, f: ModelMethod) {
    && |views| == 3 && views[0].node == a && views[1].node == b && views[2].node == d
    && a.name == "A" && b.name == "B" && d.name == "D"
    && views[0].methods == One(Signature(AF), f) && views[1].methods == views[2].methods == EmptyTable()
    && views[1].superClass == Unresolved("A") && views[2].superClass == Unresolved("B")
  }

  lemma FirstMayMerge(db: AnalyzerDatabase, a: ModelClass, b: ModelClass, d: ModelClass, f: ModelMethod)
    requires db.classes == map[] && db.methods == map[] && FirstBatch(a, b, d, f)
    requires db.rank("A") < db.rank("B") < db.rank("D")
    ensures MayMerge(db, [a, b, d]) && FirstViews(Views([a, b, d]), a, b, d, f)
    ensures TablesOf([a, b, d]) == [One(Signature(AF), f), EmptyTable(), EmptyTable()]
    ensures Members([a, b, d]) == {f} && MergedIndex(db, [a, b, d]) == map[Signature(AF) := f]
    ensures Over(db.View().methods, MethodTables(Views([a, b, d])), 3) == map[Signature(AF) := f]
    ensures db.View().classes == map[] && db.View().methods == map[]
    ensures {} + Stale(Views([a, b, d]), {}) == {}
  {
    hide Mergeable;
    ParsedClass(a, "A", NoSuper, One(Signature(AF), f), db.rank);
    ParsedClass(b, "B", Unresolved("A"), EmptyTable(), db.rank);
    ParsedClass(d, "D", Unresolved("B"), EmptyTable(), db.rank);
    var views := Views([a, b, d]);
    assert views[0] == a.View() && views[1] == b.View() && views[2] == d.View();
    var ts := MethodTables(views);
    var none: map<Key, ModelMethod> := map[];
    assert Over(none, ts, 1) == Over(none, ts, 0) + ts[0] && Over(none, ts, 2) == Over(none, ts, 1) + ts[1];
    assert Over(none, ts, 3) == Over(none, ts, 2) + ts[2];
    assert [a, b, d][0] in [a, b, d] && Signature(AF) in a.methods.at && a.methods.at[Signature(AF)] == f;
  }

  /** The graph that the merge of the first batch makes. */
  lemma FirstMerged(g: Graph, gs: seq<Graph>, h: Graph, views: seq<ClassView>, a: ModelClass, b: ModelClass,
      d: ModelClass, f: ModelMethod)
    requires g.classes == map[] && g.methods == map[] && MergedTo(g, views, gs) && FirstViews(views, a, b, d, f)
    requires |gs| == 4 && h == gs[3]
    requires Over(g.methods, MethodTables(views), 3) == map[Signature(AF) := f]
    requires f.sig == AF && !f.missing && !f.isPrivate
    ensures Family(h, a, b, d, f, EmptyTable()) && h.HasClass(a) && h.classes["A"].methods == One(Signature(AF), f)
    ensures h.methods == map[Signature(AF) := f]
  {
    hide Over, MethodTables, MergedTo, Named;
    MergedParts(g, views, gs);
    assert Adds(views[0], h) && Adds(views[1], h) && Adds(views[2], h);
  }

  lemma FirstDone(r: Round, u: Tour, p: Progress, db: AnalyzerDatabase, a: ModelClass, b: ModelClass, d: ModelClass,
      f: ModelMethod)
    requires Passed(r, u, p, {}) && r.batch == [a, b, d] && CrossReferenced(db, p, {})
    requires Family(p.states[0], a, b, d, f, EmptyTable()) && p.states[0].HasClass(a)
    requires p.states[0].classes["A"].methods == One(Signature(AF), f)
    requires p.states[0].methods == map[Signature(AF) := f] && p.states[|p.ms|] == db.View()
    requires f in p.start && p.start[f] == Rec(Note(map[], 0), [[CallTo(BF)]])
    ensures AF in f.useMethod && f.useMethod[AF] == [Pos(0, 0), Pos(0, 0)]
    ensures db.methods == map[Signature(AF) := f, ByFqcn("B") := f]
    ensures Family(db.View(), a, b, d, f, One(ByFqcn("B"), f))
  {
    hide Passed, CrossReferenced, Family, Graph.HasClass;
    FirstPass(r, u, p, a, b, d, f);
    FirstSig(p.states[0], a, b, d, f, EmptyTable());
    FirstRecorded(db, p, f);
  }

  lemma FirstSig(g: Graph, a: ModelClass, b: ModelClass, d: ModelClass, f: ModelMethod, inB: Table<ModelMethod>)
    requires Family(g, a, b, d, f, inB)
    ensures f.sig == AF
  {
  }

  lemma RecsInOne(index: map<Key, ModelMethod>, f: ModelMethod, sig: Sig, instr: seq<seq<Instr>>)
    requires f in index.Values && IsMethod(f, sig, instr)
    ensures f in RecsIn(index) && RecsIn(index)[f] == Rec(Note(map[], 0), instr)
  {
  }

  lemma NothingStale(g: Graph, views: seq<ClassView>, h: Graph)
    requires {} + Stale(views, g.classes.Keys) == {}
    ensures StaleAfter(g, views, h, {}) == {}
  {
  }

  /** The first build: `f` is mapped once for each of `A` and `B`, and its one call is recorded twice. */
  method BuildFirst(db: AnalyzerDatabase, a: ModelClass, b: ModelClass, d: ModelClass, f: ModelMethod)
    requires db.classes == map[] && db.methods == map[] && db.rank("A") < db.rank("B") < db.rank("D")
    requires IsClass(a, "A", NoSuper, One(Signature(AF), f)) && IsClass(b, "B", Unresolved("A"), EmptyTable())
    requires IsClass(d, "D", Unresolved("B"), EmptyTable()) && IsMethod(f, AF, [[CallTo(BF)]])
    modifies db, a, b, d, f
    ensures fresh(db.classes.Values - {a, b, d})
    ensures db.View().Consistent({}, {}) && db.methods == map[Signature(AF) := f, ByFqcn("B") := f]
    ensures Family(db.View(), a, b, d, f, One(ByFqcn("B"), f))
    ensures AF in f.useMethod && f.useMethod[AF] == [Pos(0, 0), Pos(0, 0)]
  {
    hide *;
    ghost var g, views := db.View(), Views([a, b, d]);
    FirstReady(db, a, b, d, f);
    assert (set v | v in [a, b, d]) == {a, b, d} && db.classes.Values == {} && db.methods.Values == {};
    OneValue(MergedIndex(db, [a, b, d]), Signature(AF), f);
    ghost var p, u, gs, stored := BuildModel(db, [a, b, d], {});
    FirstEnds(g, views, gs, u, p, db, a, b, d, f);
  }

  lemma OneValue(index: map<Key, ModelMethod>, k: Key, f: ModelMethod)
    requires index == map[k := f]
    ensures index.Values == {f}
  {
    assert index[k] == f;
  }

  lemma MethodParts(m: ModelMethod, sig: Sig, instr: seq<seq<Instr>>)
    requires IsMethod(m, sig, instr)
    ensures m.sig == sig && !m.missing && !m.isPrivate && m.callers == []
  {
  }

  lemma FirstReady(db: AnalyzerDatabase, a: ModelClass, b: ModelClass, d: ModelClass, f: ModelMethod)
    requires db.classes == map[] && db.methods == map[] && db.rank("A") < db.rank("B") < db.rank("D")
    requires IsClass(a, "A", NoSuper, One(Signature(AF), f)) && IsClass(b, "B", Unresolved("A"), EmptyTable())
    requires IsClass(d, "D", Unresolved("B"), EmptyTable()) && IsMethod(f, AF, [[CallTo(BF)]])
    ensures db.View().Consistent({}, {}) && MayMerge(db, [a, b, d])
    ensures Members([a, b, d]) == {f} && FirstViews(Views([a, b, d]), a, b, d, f)
    ensures f in RecsIn(MergedIndex(db, [a, b, d]))
    ensures RecsIn(MergedIndex(db, [a, b, d]))[f] == Rec(Note(map[], 0), [[CallTo(BF)]])
    ensures TablesOf([a, b, d]) == [One(Signature(AF), f), EmptyTable(), EmptyTable()]
    ensures MergedIndex(db, [a, b, d]) == map[Signature(AF) := f]
    ensures FirstStart(db.View(), Views([a, b, d]), f) && db.classes.Keys == {} && db.methods.Keys == {}
  {
    hide MayMerge, Members, Views, MergedIndex, TablesOf, Graph.Consistent, Over, MethodTables, IsClass, One, Stale;
    hide IsMethod, RecsIn, FirstViews;
    MethodParts(f, AF, [[CallTo(BF)]]);
    assert FirstBatch(a, b, d, f);
    EmptyIsValid(db);
    FirstMayMerge(db, a, b, d, f);
    var index: map<Key, ModelMethod> := map[Signature(AF) := f];
    assert index[Signature(AF)] == f;
    RecsInOne(index, f, AF, [[CallTo(BF)]]);
  }

  ghost predicate FirstStart(g: Graph, views: seq<ClassView>, f: ModelMethod) {
    && g.classes == map[] && g.methods == map[] && f.sig == AF && !f.missing && !f.isPrivate && |views| == 3
    && Over(g.methods, MethodTables(views), 3) == map[Signature(AF) := f] && {} + Stale(views, g.classes.Keys) == {}
  }

  lemma FirstEnds(g: Graph, views: seq<ClassView>, gs: seq<Graph>, u: Tour, p: Progress, db: AnalyzerDatabase,
      a: ModelClass, b: ModelClass, d: ModelClass, f: ModelMethod)
    requires FirstStart(g, views, f) && FirstViews(views, a, b, d, f) && |p.states| == |p.ms| + 1
    requires MergedTo(g, views, gs) && |gs| == 4 && gs[3] == p.states[0] && p.states[|p.ms|] == db.View()
    requires var r, st := Round([a, b, d], [One(Signature(AF), f), EmptyTable(), EmptyTable()]),
        StaleAfter(g, views, p.states[0], {});
      Passed(r, u, p, st) && CrossReferenced(db, p, st) && db.View().Consistent({}, st)
    requires f in p.start && p.start[f] == Rec(Note(map[], 0), [[CallTo(BF)]])
    ensures AF in f.useMethod && f.useMethod[AF] == [Pos(0, 0), Pos(0, 0)]
    ensures db.methods == map[Signature(AF) := f, ByFqcn("B") := f]
    ensures Family(db.View(), a, b, d, f, One(ByFqcn("B"), f)) && db.View().Consistent({}, {})
  {
    hide Passed, CrossReferenced, MergedTo, Over, MethodTables, Family, Graph.Consistent, Stale, One;
    NothingStale(g, views, p.states[0]);
    FirstMerged(g, gs, p.states[0], views, a, b, d, f);
    FirstDone(Round([a, b, d], [One(Signature(AF), f), EmptyTable(), EmptyTable()]), u, p, db, a, b, d, f);
  }

  // ---------- the second build ----------

  ghost predicate SecondViews(views: seq<ClassView>, newA: ModelClass, newF: ModelMethod, caller: ModelMethod) {
    && |views| == 1 && views[0].node == newA && newA.name == "A" && views[0].methods == NewTable(newF, caller)
    && newF.sig == AF && caller.sig == AG
  }

  lemma NewSum(newF: ModelMethod, caller: ModelMethod, f: ModelMethod)
    ensures var old_: map<Key, ModelMethod> := map[Signature(AF) := f, ByFqcn("B") := f];
      old_ + NewTable(newF, caller).at == NewIndex(newF, caller, f)
  {
  }

  lemma SecondIndex(base: map<Key, ModelMethod>, views: seq<ClassView>, newA: ModelClass, newF: ModelMethod,
      caller: ModelMethod, f: ModelMethod)
    requires SecondViews(views, newA, newF, caller) && base == map[Signature(AF) := f, ByFqcn("B") := f]
    ensures Over(base, MethodTables(views), 1) == NewIndex(newF, caller, f)
  {
    hide Two;
    NewSum(newF, caller, f);
    var ts := MethodTables(views);
    assert Over(base, ts, 0) == base && ts[0] == views[0].methods.at;
  }

  lemma OnlyF(index: map<Key, ModelMethod>, f: ModelMethod)
    requires index == map[Signature(AF) := f, ByFqcn("B") := f]
    ensures index.Values == {f}
  {
    assert index[Signature(AF)] == f;
  }

  lemma SecondStale(views: seq<ClassView>, newA: ModelClass, newF: ModelMethod, caller: ModelMethod, known: set<string>)
    requires SecondViews(views, newA, newF, caller) && "A" in known
    ensures {} + Stale(views, known) == {AF, AG}
  {
    var t := views[0].methods.at;
    assert views[0] in views && Signature(AF) in t && Signature(AG) in t;
    assert t[Signature(AF)].sig == AF && t[Signature(AG)].sig == AG;
  }

  lemma SuperStored(g: Graph, a: ModelClass, b: ModelClass, d: ModelClass, f: ModelMethod, t: Table<ModelMethod>)
    requires g.Shaped() && Family(g, a, b, d, f, t)
    ensures g.HasClass(a) && a.name == "A"
  {
    assert g.ClassShape("B");
  }

  lemma SecondMembers(newA: ModelClass, newF: ModelMethod, caller: ModelMethod)
    requires newA.methods == NewTable(newF, caller)
    ensures Members([newA]) == {newF, caller}
  {
    var at := newA.methods.at;
    assert [newA][0] in [newA] && Signature(AF) in at && Signature(AG) in at;
    assert at[Signature(AF)] == newF && at[Signature(AG)] == caller;
    forall m | m in Members([newA])
      ensures m in {newF, caller}
    {
      var v, k :| v in [newA] && k in v.methods.at && v.methods.at[k] == m;
      assert v == newA;
    }
  }

  lemma SecondMayMerge(db: AnalyzerDatabase, newA: ModelClass, newF: ModelMethod, caller: ModelMethod)
    requires IsClass(newA, "A", NoSuper, NewTable(newF, caller)) && newF.sig == AF && caller.sig == AG
    requires newA !in db.classes.Values
    ensures MayMerge(db, [newA]) && SecondViews(Views([newA]), newA, newF, caller)
    ensures TablesOf([newA]) == [NewTable(newF, caller)] && Members([newA]) == {newF, caller}
  {
    hide Mergeable, Members;
    ParsedClass(newA, "A", NoSuper, NewTable(newF, caller), db.rank);
    SecondMembers(newA, newF, caller);
  }

  lemma NewRecs(newF: ModelMethod, caller: ModelMethod, f: ModelMethod)
    requires IsMethod(newF, AF, []) && IsMethod(caller, AG, [[CallTo(DF)]])
    ensures var index := NewIndex(newF, caller, f);
      && newF in RecsIn(index) && RecsIn(index)[newF].instr == []
      && caller in RecsIn(index) && RecsIn(index)[caller] == Rec(Note(map[], 0), [[CallTo(DF)]])
      && index.Values == {newF, caller, f} && newF in CallersOf(index.Values) && CallersOf(index.Values)[newF] == []
  {
    var index := NewIndex(newF, caller, f);
    assert index[Signature(AF)] == newF && index[Signature(AG)] == caller && index[ByFqcn("B")] == f;
  }

  /** The graph that the second merge makes: `B` keeps its slot, and with it the old `f`. */
  lemma SecondMerged(g: Graph, gs: seq<Graph>, h: Graph, views: seq<ClassView>, newA: ModelClass,
      newF: ModelMethod, caller: ModelMethod, a: ModelClass, b: ModelClass, d: ModelClass, f: ModelMethod)
    requires MergedTo(g, views, gs) && SecondViews(views, newA, newF, caller) && h.Shaped() && newA != a
    requires |gs| == 2 && gs[1] == h
    requires g.methods == map[Signature(AF) := f, ByFqcn("B") := f]
    requires Family(g, a, b, d, f, One(ByFqcn("B"), f))
    ensures Family(h, a, b, d, f, One(ByFqcn("B"), f)) && !h.HasClass(newA) && h.methods == NewIndex(newF, caller, f)
  {
    hide Over, MethodTables, MergedTo, Graph.Shaped, One;
    MergedParts(g, views, gs);
    SecondIndex(g.methods, views, newA, newF, caller, f);
    assert !Named(views, "B") && !Named(views, "D");
    SuperStored(h, a, b, d, f, One(ByFqcn("B"), f));
  }

  /** A slot holds a node that is not the indexed one. */
  lemma NotValid(g: Graph, f: ModelMethod, stale: set<Sig>)
    requires g.Consistent({}, stale) && ByFqcn("B") in g.methods && g.methods[ByFqcn("B")] == f && !g.HasMethod(f)
    ensures !g.Valid()
  {
    hide Graph.Consistent, Graph.Valid;
    ValidIff(g, stale);
  }

  ghost predicate SecondStart(g: Graph, views: seq<ClassView>, newA: ModelClass, newF: ModelMethod,
      caller: ModelMethod, a: ModelClass, b: ModelClass, d: ModelClass, f: ModelMethod)
  {
    && SecondViews(views, newA, newF, caller) && newA != a && newF != f && newF != caller
    && g.methods == map[Signature(AF) := f, ByFqcn("B") := f] && Family(g, a, b, d, f, One(ByFqcn("B"), f))
    && {} + Stale(views, g.classes.Keys) == {AF, AG}
  }

  lemma SecondReady(db: AnalyzerDatabase, newA: ModelClass, newF: ModelMethod, caller: ModelMethod, a: ModelClass,
      b: ModelClass, d: ModelClass, f: ModelMethod)
    requires IsClass(newA, "A", NoSuper, NewTable(newF, caller)) && newA !in db.classes.Values && newF != f
    requires IsMethod(newF, AF, []) && IsMethod(caller, AG, [[CallTo(DF)]]) && db.View().Consistent({}, {})
    requires db.methods == map[Signature(AF) := f, ByFqcn("B") := f]
    requires Family(db.View(), a, b, d, f, One(ByFqcn("B"), f))
    ensures MayMerge(db, [newA]) && TablesOf([newA]) == [NewTable(newF, caller)] && Members([newA]) == {newF, caller}
    ensures SecondStart(db.View(), Views([newA]), newA, newF, caller, a, b, d, f)
    ensures MergedIndex(db, [newA]) == NewIndex(newF, caller, f)
    ensures {} + Stale(Views([newA]), db.classes.Keys) == {AF, AG}
  {
    hide MayMerge, Members, TablesOf, Graph.Consistent, Over, MethodTables, IsClass, One, Stale, Family, NewTable;
    hide IsMethod, SecondViews, NewIndex;
    var views := Views([newA]);
    ViewParts(db);
    MethodParts(newF, AF, []);
    MethodParts(caller, AG, [[CallTo(DF)]]);
    ShapedOf(db.View(), {}, {});
    SuperStored(db.View(), a, b, d, f, One(ByFqcn("B"), f));
    SecondMayMerge(db, newA, newF, caller);
    SecondIndex(db.methods, views, newA, newF, caller, f);
    SecondStale(views, newA, newF, caller, db.classes.Keys);
  }

  lemma PassBegins(r: Round, u: Tour, p: Progress, stale: set<Sig>)
    requires Passed(r, u, p, stale)
    ensures |p.states| == |p.ms| + 1 && p.states[0].Shaped()
  {
    hide Toured, Graph.Consistent;
    ShapedOf(p.states[0], {}, stale);
  }

  lemma SecondSigs(views: seq<ClassView>, newA: ModelClass, newF: ModelMethod, caller: ModelMethod)
    requires SecondViews(views, newA, newF, caller)
    ensures newF.sig == AF && caller.sig == AG && |views| == 1
  {
  }

  lemma SecondEnds(g: Graph, views: seq<ClassView>, gs: seq<Graph>, u: Tour, p: Progress, db: AnalyzerDatabase,
      newA: ModelClass, newF: ModelMethod, caller: ModelMethod, a: ModelClass, b: ModelClass, d: ModelClass,
      f: ModelMethod)
    requires SecondStart(g, views, newA, newF, caller, a, b, d, f) && |p.states| == |p.ms| + 1
    requires MergedTo(g, views, gs) && |gs| == 2 && gs[1] == p.states[0] && p.states[|p.ms|] == db.View()
    requires var st := StaleAfter(g, views, p.states[0], {});
      && Passed(Round([newA], [NewTable(newF, caller)]), u, p, st) && CrossReferenced(db, p, st)
      && db.View().Consistent({}, st)
    requires newF in p.start && p.start[newF].instr == []
    requires newF in p.ledger.callers && p.ledger.callers[newF] == []
    requires caller in p.start && p.start[caller] == Rec(Note(map[], 0), [[CallTo(DF)]])
    ensures db.methods == NewIndex(newF, caller, f)[ByFqcn("D") := f] && !db.View().Valid()
    ensures AF in caller.useMethod && caller.useMethod[AF] == [Pos(0, 0)] && caller !in newF.callers
  {
    hide CrossReferenced, MergedTo, Graph.Consistent, Stale, Graph.Valid, StaleAfter, Passed, Family, NewTable;
    hide Graph.Shaped, SecondViews;
    SecondSigs(views, newA, newF, caller);
    FirstSig(g, a, b, d, f, One(ByFqcn("B"), f));
    var st, r := StaleAfter(g, views, p.states[0], {}), Round([newA], [NewTable(newF, caller)]);
    PassBegins(r, u, p, st);
    SecondMerged(g, gs, p.states[0], views, newA, newF, caller, a, b, d, f);
    SecondPass(r, u, p, newA, newF, caller, a, b, d, f, st);
    SecondRecorded(db, p, newF, caller, f, st);
    NotValid(db.View(), f, st);
  }

  lemma SameCallers(l: Ledger, h: Graph, before: Ledger, members: set<ModelMethod>)
    requires MergedLedger(l, h, before, members)
    ensures l.callers == before.callers
  {
  }

  /** The second build: another version of `A`, whose `f` makes no call, and which has a method that
      calls `D.f`. The slot of `B` keeps the old `f`, and the call goes to it. */
  method BuildSecond(db: AnalyzerDatabase, newA: ModelClass, newF: ModelMethod, caller: ModelMethod,
      ghost a: ModelClass, ghost b: ModelClass, ghost d: ModelClass, ghost f: ModelMethod)
    requires IsClass(newA, "A", NoSuper, NewTable(newF, caller)) && newA !in db.classes.Values && newF != f
    requires IsMethod(newF, AF, []) && IsMethod(caller, AG, [[CallTo(DF)]]) && db.View().Consistent({}, {})
    requires db.methods == map[Signature(AF) := f, ByFqcn("B") := f]
    requires Family(db.View(), a, b, d, f, One(ByFqcn("B"), f))
    modifies db, db.classes.Values, db.methods.Values, newA, newF, caller
    ensures db.methods == NewIndex(newF, caller, f)[ByFqcn("D") := f]
    ensures !db.View().Valid() && db.View().Consistent({}, {AF, AG})
    ensures AF in caller.useMethod && caller.useMethod[AF] == [Pos(0, 0)] && caller !in newF.callers
  {
    hide *;
    ghost var g, views := db.View(), Views([newA]);
    SecondReady(db, newA, newF, caller, a, b, d, f);
    NewRecs(newF, caller, f);
    assert (set v | v in [newA]) == {newA};
    OnlyF(db.methods, f);
    LedgerParts(db, MergedIndex(db, [newA]).Values);
    ghost var before := LedgerOf(db, MergedIndex(db, [newA]).Values);
    ghost var p, u, gs, stored := BuildModel(db, [newA], {});
    SameCallers(p.ledger, p.states[0], before, {newF, caller});
    SecondEnds(g, views, gs, u, p, db, newA, newF, caller, a, b, d, f);
  }

  /** A run of two builds from the empty database. First `A` with the method `f`, which calls `B.f`; `B`
      extends `A`, and `D` extends `B`. The one call of `f` is recorded twice. Then another version of
      `A`, with a method that calls `D.f`: the slot of `B` keeps the old `f`, so that the graph is not
      valid; and the call goes to the old `f`, so that its method uses `A.f`, and is no caller of the
      `A.f` that the index holds. */
  method SlotScenario() returns (db: AnalyzerDatabase, f: ModelMethod, newF: ModelMethod, caller: ModelMethod,
      ghost twice: seq<Pos>)
    ensures twice == [Pos(0, 0), Pos(0, 0)] && newF != f
    ensures db.methods == NewIndex(newF, caller, f)[ByFqcn("D") := f]
    ensures !db.View().Valid() && db.View().Consistent({}, {AF, AG})
    ensures AF in caller.useMethod && caller.useMethod[AF] == [Pos(0, 0)] && caller !in newF.callers
  {
    hide *;
    f := ParseMethod(AF, [[CallTo(BF)]]);
    var a := ParseClass("A", NoSuper, One(Signature(AF), f));
    var b := ParseClass("B", Unresolved("A"), EmptyTable());
    var d := ParseClass("D", Unresolved("B"), EmptyTable());
    db := new AnalyzerDatabase((n: string) => if n == "D" then 2 else if n == "B" then 1 else 0);
    BuildFirst(db, a, b, d, f);
    twice := f.useMethod[AF];
    newF := ParseMethod(AF, []);
    caller := ParseMethod(AG, [[CallTo(DF)]]);
    var newA := ParseClass("A", NoSuper, NewTable(newF, caller));
    OnlyF(db.methods, f);
    BuildSecond(db, newA, newF, caller, a, b, d, f);
  }

  // ---------- a slot that is taken over ----------

  const BG := Sig("B", "g", "()V")

  /** The slot of `B` holds a current `f`, that of `A` an old one. */
  ghost predicate TwoSlots(g: Graph, a: ModelClass, b: ModelClass, d: ModelClass, own: ModelMethod,
      inA: ModelMethod, inB: ModelMethod)
  {
    && a.name == "A" && b.name == "B" && d.name == "D" && g.HasClass(a) && g.HasClass(b) && g.HasClass(d)
    && g.classes["B"].superClass == Resolved(a) && g.classes["D"].superClass == Resolved(b)
    && g.classes["A"].methods == Two(Signature(AG), own, ByFqcn("A"), inA) && own.sig == AG
    && g.classes["B"].methods == One(ByFqcn("B"), inB) && inA.sig.name == "f" && inB.sig.name == "f"
    && Admissible(own, "g") && Admissible(inA, "f") && Admissible(inB, "f")
    && g.HasMethod(inB) && !g.HasMethod(inA) && Signature(inA.sig) in g.methods
    && Signature(BG) !in g.methods && Signature(DF) !in g.methods
  }

  lemma FirstOfTwo(k: Key, m: ModelMethod, j: Key, n: ModelMethod, name: string)
    requires j != k
    ensures var t := Two(k, m, j, n);
      FirstAdmissible(t.keys, t.at, name) ==
        if Admissible(m, name) then Some(m) else if Admissible(n, name) then Some(n) else None
  {
    var t := Two(k, m, j, n);
    assert t.keys[1..] == [j] && t.keys[1..][1..] == [];
    assert FirstAdmissible(t.keys, t.at, name) ==
      if Admissible(m, name) then Some(m) else FirstAdmissible([j], t.at, name);
    assert FirstAdmissible([j], t.at, name) ==
      if Admissible(n, name) then Some(n) else FirstAdmissible([j][1..], t.at, name);
  }

  /** The first thing that a class of one member finds. */
  lemma FirstOfSlot(k: Key, m: ModelMethod, name: string)
    ensures var t := One(k, m);
      FirstAdmissible(t.keys, t.at, name) == if Admissible(m, name) then Some(m) else None
  {
    var t := One(k, m);
    assert t.keys[1..] == [];
  }

  lemma WalkFromB(g: Graph, a: ModelClass, b: ModelClass, name: string)
    requires g.Shaped() && g.HasClass(a) && g.HasClass(b) && a.name == "A" && b.name == "B"
    requires g.classes["B"].superClass == Resolved(a)
    ensures var t := g.classes["B"].methods;
      FirstAdmissible(t.keys, t.at, name).None? ==> Inherited(g, "B", name) == Inherited(g, "A", name)
  {
    hide FirstAdmissible;
    assert g.ClassShape("B");
  }

  lemma PutOne(k: Key, m: ModelMethod, n: ModelMethod)
    ensures One(k, m).Put(k, n) == One(k, n)
  {
    assert map[k := m][k := n] == map[k := n];
  }

  /** Before the call `B.g` denotes the method of `A`, and `D.f` what the slot of `B` holds. */
  lemma BeforeTaking(g: Graph, a: ModelClass, b: ModelClass, d: ModelClass, own: ModelMethod, inA: ModelMethod,
      inB: ModelMethod)
    requires g.Shaped() && TwoSlots(g, a, b, d, own, inA, inB)
    ensures Lookup(g, BG) == Some(own) && CurrentRef(g, DF)
  {
    hide FirstAdmissible, One, Two, Graph.Shaped;
    FirstOfTwo(Signature(AG), own, ByFqcn("A"), inA, "g");
    FirstOfSlot(ByFqcn("B"), inB, "f");
    assert Inherited(g, "A", "g") == Some(Found(own, g.classes["A"].node));
    assert Inherited(g, "B", "f") == Some(Found(inB, g.classes["B"].node));
  }

  /** After it the walk from `B` goes on to the slot of `A`. */
  lemma AfterTaking(h: Graph, a: ModelClass, b: ModelClass, d: ModelClass, own: ModelMethod, inA: ModelMethod)
    requires h.Shaped() && h.HasClass(a) && h.HasClass(b) && h.HasClass(d)
    requires a.name == "A" && b.name == "B" && d.name == "D" && own.sig == AG && Admissible(inA, "f")
    requires h.classes["B"].superClass == Resolved(a) && h.classes["D"].superClass == Resolved(b)
    requires h.classes["A"].methods == Two(Signature(AG), own, ByFqcn("A"), inA)
    requires h.classes["B"].methods == One(ByFqcn("B"), own) && Signature(DF) !in h.methods
    ensures Lookup(h, DF) == Some(inA)
  {
    hide FirstAdmissible, One, Two, Graph.Shaped;
    FirstOfTwo(Signature(AG), own, ByFqcn("A"), inA, "f");
    FirstOfSlot(ByFqcn("B"), own, "f");
    WalkFromB(h, a, b, "f");
    assert Inherited(h, "A", "f") == Some(Found(inA, h.classes["A"].node));
  }

  /** The call of `B.g` takes over the slot of `B`, and so uncovers the old `f` in the slot of `A`: the
      reference `D.f` denotes an indexed node before that call, and an old one after it. */
  lemma OverwrittenSlot(x: Step, a: ModelClass, b: ModelClass, d: ModelClass, own: ModelMethod, inA: ModelMethod,
      inB: ModelMethod, stale: set<Sig>)
    requires Taken(x, stale) && x.ref == BG && TwoSlots(x.g, a, b, d, own, inA, inB)
    ensures x.g.Shaped() && x.h.Shaped() && CurrentRef(x.g, DF) && !CurrentRef(x.h, DF)
  {
    hide Graph.Consistent, Extends, Graph.Shaped, Resolves, FirstAdmissible, One, Two, Lookup, Table.Put;
    StepJoins(x, stale);
    BeforeTaking(x.g, a, b, d, own, inA, inB);
    StepFinds(x, stale);
    PutOne(ByFqcn("B"), inB, own);
    AfterTaking(x.h, a, b, d, own, inA);
  }
}
