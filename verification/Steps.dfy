/** Runs of resolutions: what a sequence of resolved calls does to the graph, step by step. */
module Steps {
  import opened Model
  import opened Resolver

  /** One resolved call: the graph before it, the reference, whether the call is static, the node it was
      linked to, the graph after it. */
  datatype Step = Step(g: Graph, ref: Sig, isStatic: bool, callee: ModelMethod, h: Graph)

  ghost predicate Taken(x: Step, stale: set<Sig>) {
    && x.g.Consistent({}, stale) && x.h.Consistent({}, stale) && Extends(x.g, x.h)
    && Resolves(x.g, x.ref, x.isStatic, x.callee, x.h)
  }

  /** The steps lead from one graph to the other. */
  ghost predicate Path(g: Graph, xs: seq<Step>, h: Graph, stale: set<Sig>) {
    if xs == [] then h == g
    else
      var n := |xs| - 1;
      xs[n].h == h && Taken(xs[n], stale) && Path(g, xs[..n], xs[n].g, stale)
  }

  lemma PathNext(g: Graph, xs: seq<Step>, x: Step, stale: set<Sig>)
    requires Path(g, xs, x.g, stale) && Taken(x, stale)
    ensures Path(g, xs + [x], x.h, stale)
  {
    hide Taken;
    assert (xs + [x])[..|xs|] == xs;
  }

  lemma {:induction false} PathConcat(g: Graph, xs: seq<Step>, h: Graph, ys: seq<Step>, k: Graph, stale: set<Sig>)
    requires Path(g, xs, h, stale) && Path(h, ys, k, stale)
    ensures Path(g, xs + ys, k, stale)
  {
    hide Taken;
    if ys == [] {
      assert xs + ys == xs;
    } else {
      var n := |ys| - 1;
      PathConcat(g, xs, h, ys[..n], ys[n].g, stale);
      assert (xs + ys)[..|xs + ys| - 1] == xs + ys[..n];
    }
  }

  lemma {:induction false} PathGrows(g: Graph, xs: seq<Step>, h: Graph, stale: set<Sig>)
    requires Path(g, xs, h, stale) && g.Consistent({}, stale)
    ensures Extends(g, h) && h.Consistent({}, stale)
  {
    hide Graph.Consistent, Resolves;
    if xs != [] {
      var n := |xs| - 1;
      PathGrows(g, xs[..n], xs[n].g, stale);
      ExtendsTwice(g, xs[n].g, h);
    } else {
      assert h == g;
    }
  }

  // ---------- one step ----------

  /** Under which key a resolution stores what it finds or creates. */
  ghost function KeyOf(g: Graph, ref: Sig): Key
    requires g.Shaped()
  {
    if Lookup(g, ref).Some? then ByFqcn(ref.fqcn) else Signature(ref)
  }

  ghost function TableNamed(g: Graph, n: string): Table<ModelMethod> {
    if n in g.classes then g.classes[n].methods else EmptyTable()
  }

  /** The classes but one are as they were, and that one has `m` under `k`; so has the index. */
  ghost predicate Joined(g: Graph, n: string, k: Key, m: ModelMethod, h: Graph) {
    && h.methods == g.methods[k := m] && h.classes.Keys == g.classes.Keys + {n} && h.rank == g.rank
    && TableNamed(g, n).Valid() && TableNamed(h, n) == TableNamed(g, n).Put(k, m)
    && (forall d :: d in g.classes && d != n ==> h.classes[d] == g.classes[d])
    && (n in g.classes ==> h.classes[n].node == g.classes[n].node)
    && h.classes[n].superClass == (if n in g.classes then g.classes[n].superClass else NoSuper)
  }

  lemma MemberJoins(g: Graph, c: ModelClass, k: Key, m: ModelMethod)
    requires g.Shaped() && WithMissing(g, c).Shaped() && WithMissing(g, c).HasClass(c)
    ensures Joined(g, c.name, k, m, WithMember(WithMissing(g, c), c, k, m))
  {
    hide Table.Put, Graph.Shaped, Graph.ClassShape;
    ValidTable(WithMissing(g, c), c.name);
  }

  lemma ValidTable(g: Graph, n: string)
    requires g.Shaped() && n in g.classes
    ensures g.classes[n].methods.Valid()
  {
    assert g.ClassShape(n);
  }

  /** A step stores one node under one key of one class and of the index, or nothing. */
  lemma StepJoins(x: Step, stale: set<Sig>)
    requires Taken(x, stale)
    ensures x.g.Shaped() && x.h.Shaped()
    ensures Signature(x.ref) in x.g.methods ==> x.h == x.g
    ensures Signature(x.ref) !in x.g.methods ==> Joined(x.g, x.ref.fqcn, KeyOf(x.g, x.ref), x.callee, x.h)
  {
    hide Graph.Consistent, Graph.ClassShape, Extends, Joined, Table.Put, Table.Valid, Inherited, WithMember;
    ShapedOf(x.g, {}, stale);
    ShapedOf(x.h, {}, stale);
    if x.ref.fqcn in x.g.classes {
      ClassNamed(x.g, x.ref.fqcn);
    }
    if Signature(x.ref) !in x.g.methods {
      var c := if Lookup(x.g, x.ref).Some? then x.g.classes[x.ref.fqcn].node else x.h.classes[x.ref.fqcn].node;
      MemberJoins(x.g, c, KeyOf(x.g, x.ref), x.callee);
    }
  }

  lemma IndexedStays(g: Graph, h: Graph, m: ModelMethod)
    requires Extends(g, h) && Signature(m.sig) in g.methods
    ensures Signature(m.sig) in h.methods && (h.HasMethod(m) <==> g.HasMethod(m))
  {
  }

  /** The callee is the indexed node of its signature if and only if the reference denoted nothing
      before, or such a node. */
  lemma StepCurrent(x: Step, stale: set<Sig>)
    requires Taken(x, stale)
    ensures x.g.Shaped() && (x.h.HasMethod(x.callee) <==> CurrentRef(x.g, x.ref))
    ensures Signature(x.callee.sig) in x.h.methods && x.callee.sig.name == x.ref.name
    ensures Signature(x.ref) in x.g.methods ==> CurrentRef(x.g, x.ref)
  {
    hide Graph.Consistent, Extends, Graph.Shaped, Table.Put, Inherited, Resolves;
    StepJoins(x, stale);
    if Signature(x.ref) in x.g.methods {
      ShapedOf(x.g, {}, stale);
      IndexedMethod(x.g, x.ref, stale);
      StepFinds(x, stale);
    } else if Lookup(x.g, x.ref).Some? {
      LookupNamed(x.g, x.ref, stale);
      StepFinds(x, stale);
      IndexedStays(x.g, x.h, x.callee);
    } else {
      StepMakes(x, stale);
    }
  }

  lemma StepFinds(x: Step, stale: set<Sig>)
    requires Taken(x, stale) && x.g.Shaped() && Lookup(x.g, x.ref).Some?
    ensures Lookup(x.g, x.ref) == Some(x.callee)
  {
    hide Graph.Consistent, Extends, Graph.Shaped, Inherited, WithMember;
  }

  lemma StepMakes(x: Step, stale: set<Sig>)
    requires Taken(x, stale) && x.g.Shaped() && Lookup(x.g, x.ref).None?
    ensures x.callee.sig == x.ref && x.callee.missing && x.callee.isStatic == x.isStatic
    ensures Signature(x.ref) !in x.g.methods
  {
    hide Graph.Consistent, Extends, Graph.Shaped, Inherited, WithMember;
  }

  // ---------- which tables a path leaves alone ----------

  lemma PathIndexed(g: Graph, xs: seq<Step>, h: Graph, stale: set<Sig>, ref: Sig)
    requires Path(g, xs, h, stale) && g.Consistent({}, stale) && Signature(ref) in g.methods
    ensures Signature(ref) in h.methods
  {
    hide Graph.Consistent;
    PathGrows(g, xs, h, stale);
  }

  /** The steps resolve nothing new for a class of that name. */
  ghost predicate Avoids(g: Graph, xs: seq<Step>, n: string) {
    forall x :: x in xs && x.ref.fqcn == n ==> Signature(x.ref) in g.methods
  }

  lemma {:induction false} AvoidedStays(g: Graph, xs: seq<Step>, h: Graph, n: string, stale: set<Sig>)
    requires Path(g, xs, h, stale) && Avoids(g, xs, n) && n in g.classes && g.Consistent({}, stale)
    ensures n in h.classes && h.classes[n] == g.classes[n]
  {
    hide Taken, Graph.Consistent;
    if xs != [] {
      var last := |xs| - 1;
      AvoidedStays(g, xs[..last], xs[last].g, n, stale);
      assert xs[last] in xs;
      if xs[last].ref.fqcn == n {
        PathIndexed(g, xs[..last], xs[last].g, stale, xs[last].ref);
      }
      StepJoins(xs[last], stale);
    }
  }

  /** Some step inherits for a class of that name. */
  ghost predicate Inherits(x: Step, n: string) {
    x.ref.fqcn == n && Signature(x.ref) !in x.g.methods && x.g.Shaped() && Lookup(x.g, x.ref).Some?
  }

  lemma StepSlot(x: Step, n: string, stale: set<Sig>)
    requires Taken(x, stale)
    ensures ByFqcn(n) in TableNamed(x.h, n).at <==> ByFqcn(n) in TableNamed(x.g, n).at || Inherits(x, n)
  {
    hide Taken, Lookup, Graph.Shaped;
    StepJoins(x, stale);
  }

  /** After a path a class has a slot if and only if it had one, or some step inherited for it. */
  lemma {:induction false} SlotIff(g: Graph, xs: seq<Step>, h: Graph, n: string, stale: set<Sig>)
    requires Path(g, xs, h, stale)
    ensures ByFqcn(n) in TableNamed(h, n).at <==>
      ByFqcn(n) in TableNamed(g, n).at || exists x :: x in xs && Inherits(x, n)
  {
    hide Taken, Inherits;
    if xs != [] {
      var last := |xs| - 1;
      SlotIff(g, xs[..last], xs[last].g, n, stale);
      assert xs == xs[..last] + [xs[last]];
      StepSlot(xs[last], n, stale);
    }
  }

  /** Steps that refer to indexed methods leave the graph as it is. */
  lemma {:induction false} PathStill(g: Graph, xs: seq<Step>, h: Graph, stale: set<Sig>)
    requires Path(g, xs, h, stale) && forall x :: x in xs ==> Signature(x.ref) in g.methods
    ensures h == g && forall x :: x in xs ==> x.g == g && x.h == g && x.callee == g.methods[Signature(x.ref)]
  {
    hide Graph.Consistent, Extends, Lookup;
    if xs != [] {
      var last := |xs| - 1;
      PathStill(g, xs[..last], xs[last].g, stale);
      assert xs == xs[..last] + [xs[last]];
      ShapedOf(xs[last].g, {}, stale);
    }
  }

  /** Each node of the index was there, or was made by one of the steps. */
  lemma {:induction false} PathMakes(g: Graph, xs: seq<Step>, h: Graph, stale: set<Sig>)
    requires Path(g, xs, h, stale)
    ensures forall m :: m in h.methods.Values && m !in g.methods.Values ==> exists x :: x in xs && MadeBy(x, m)
  {
    hide Taken, MadeBy;
    if xs != [] {
      var n := |xs| - 1;
      assert xs == xs[..n] + [xs[n]];
      PathMakes(g, xs[..n], xs[n].g, stale);
      StepMakesIt(xs[n], stale);
    }
  }

  /** The step makes the node: nothing was denoted, and it has the signature of the reference and the flag
      of the call. */
  ghost predicate MadeBy(x: Step, m: ModelMethod) {
    && x.g.Shaped() && Lookup(x.g, x.ref).None? && x.callee == m
    && m.sig == x.ref && m.missing && !m.isPrivate && m.isStatic == x.isStatic
  }

  lemma StepMakesIt(x: Step, stale: set<Sig>)
    requires Taken(x, stale)
    ensures forall m :: m in x.h.methods.Values && m !in x.g.methods.Values ==> MadeBy(x, m)
  {
    hide Graph.Consistent, Extends, Graph.Shaped, Inherited, WithMember, Lookup;
    StepJoins(x, stale);
    if Signature(x.ref) !in x.g.methods && Lookup(x.g, x.ref).Some? {
      LookupNamed(x.g, x.ref, stale);
      StepFinds(x, stale);
    }
  }

  /** The nodes of the index are those of `g`, or have signatures that `g` does not index. */
  ghost predicate NewSigned(g: Graph, h: Graph) {
    forall m :: m in h.methods.Values ==> m in g.methods.Values || Signature(m.sig) !in g.methods
  }

  lemma StepSigned(g: Graph, x: Step, stale: set<Sig>)
    requires NewSigned(g, x.g) && Extends(g, x.g) && Taken(x, stale)
    ensures NewSigned(g, x.h)
  {
    hide Graph.Consistent, Graph.Shaped, Resolves, Inherited;
    StepJoins(x, stale);
    if Signature(x.ref) !in x.g.methods {
      if Lookup(x.g, x.ref).Some? {
        StepFinds(x, stale);
        LookupNamed(x.g, x.ref, stale);
      } else {
        StepMakes(x, stale);
      }
      forall m | m in x.h.methods.Values
        ensures m in x.g.methods.Values || m == x.callee
      {
      }
    }
  }

  lemma {:induction false} PathSigned(g: Graph, h: Graph, xs: seq<Step>, k: Graph, stale: set<Sig>)
    requires NewSigned(g, h) && Extends(g, h) && h.Consistent({}, stale) && Path(h, xs, k, stale)
    ensures NewSigned(g, k) && Extends(g, k)
  {
    hide Taken, NewSigned, Extends, Graph.Consistent;
    if xs != [] {
      var n := |xs| - 1;
      PathSigned(g, h, xs[..n], xs[n].g, stale);
      StepSigned(g, xs[n], stale);
      TakenGrows(xs[n], stale);
      ExtendsTwice(g, xs[n].g, k);
    }
  }

  // ---------- replaced nodes ----------

  /** The walk from class `n` meets a node that is not the indexed one of its signature. */
  ghost predicate MeetsOld(g: Graph, n: string, name: string)
    requires g.Shaped() && n in g.classes
  {
    var f := Inherited(g, n, name);
    f.Some? && !g.HasMethod(f.value.meth)
  }

  /** The same for the walk from the superclass of `n`. */
  ghost predicate AboveOld(g: Graph, n: string, name: string)
    requires g.Shaped() && n in g.classes
  {
    assert g.ClassShape(n);
    var up := g.classes[n].superClass;
    up.Resolved? && MeetsOld(g, up.cls.name, name)
  }

  lemma CurrentIff(g: Graph, ref: Sig, stale: set<Sig>)
    requires g.Consistent({}, stale)
    ensures g.Shaped() && (CurrentRef(g, ref) <==>
      Signature(ref) in g.methods || ref.fqcn !in g.classes || !AboveOld(g, ref.fqcn, ref.name))
  {
    hide Graph.Consistent, Inherited, Graph.MethodEntry, Graph.Shaped;
    ShapedOf(g, {}, stale);
    if Signature(ref) in g.methods {
      IndexedMethod(g, ref, stale);
    } else if ref.fqcn in g.classes {
      ClassNamed(g, ref.fqcn);
    }
  }

  /** Class `n` of `g` has, in `h`, its former members in front, and each new one is an old node
      exactly if the walk from the superclass met one in `g`. */
  ghost predicate AlikeAt(g: Graph, h: Graph, n: string)
    requires g.Shaped() && n in g.classes && n in h.classes
  {
    var t, u := g.classes[n].methods, h.classes[n].methods;
    && h.classes[n].superClass == g.classes[n].superClass && h.classes[n].node == g.classes[n].node
    && t.keys <= u.keys && (forall k :: k in t.at ==> k in u.at && u.at[k] == t.at[k])
    && forall k :: k in u.at && k !in t.at ==> (!h.HasMethod(u.at[k]) <==> AboveOld(g, n, u.at[k].sig.name))
  }

  /** Wherever a walk meets an old node in the one graph, it does so in the other. */
  ghost predicate Alike(g: Graph, h: Graph, stale: set<Sig>) {
    && g.Consistent({}, stale) && h.Consistent({}, stale) && Extends(g, h) && g.rank == h.rank
    && (forall n :: n in g.classes ==> n in h.classes && AlikeAt(g, h, n))
    && (forall n :: n in h.classes && n !in g.classes ==> h.classes[n].superClass == NoSuper)
    && (forall s :: Signature(s) in h.methods && Signature(s) !in g.methods ==> CurrentRef(g, s))
  }

  lemma AlikeSelf(g: Graph, stale: set<Sig>)
    requires g.Consistent({}, stale)
    ensures Alike(g, g, stale)
  {
  }

  /** A list of keys that goes on from another finds what that one finds. */
  lemma {:induction false} FirstInFront(keys: seq<Key>, at: map<Key, ModelMethod>, more: seq<Key>,
      now: map<Key, ModelMethod>, name: string)
    requires keys <= more && forall k :: k in keys ==> k in at && k in now && now[k] == at[k]
    requires FirstAdmissible(keys, at, name).Some?
    ensures FirstAdmissible(more, now, name) == FirstAdmissible(keys, at, name)
  {
    assert more[0] == keys[0];
    if !Admissible(at[keys[0]], name) {
      FirstInFront(keys[1..], at, more[1..], now, name);
    }
  }

  /** Members that the longer list finds, and the shorter one does not, are new. */
  lemma FirstIsNew(t: Table<ModelMethod>, u: Table<ModelMethod>, name: string)
    requires t.Valid() && u.Valid() && forall k :: k in t.at ==> k in u.at && u.at[k] == t.at[k]
    requires FirstAdmissible(t.keys, t.at, name).None? && FirstAdmissible(u.keys, u.at, name).Some?
    ensures exists k ::
      k in u.at && k !in t.at && u.at[k] == FirstAdmissible(u.keys, u.at, name).value && u.at[k].sig.name == name
  {
    var i :| IsFirst(u.keys, u.at, name, i) && u.at[u.keys[i]] == FirstAdmissible(u.keys, u.at, name).value;
    var k := u.keys[i];
    assert forall j :: 0 <= j < |t.keys| ==> t.keys[j] in t.at && t.keys[j] != k;
    assert k !in t.keys;
  }

  lemma MemberSigned(g: Graph, n: string, k: Key, stale: set<Sig>)
    requires g.Consistent({}, stale) && n in g.classes && k in g.classes[n].methods.at
    ensures Signature(g.classes[n].methods.at[k].sig) in g.methods
    ensures k.Signature? ==> g.HasMethod(g.classes[n].methods.at[k])
  {
    assert g.MembersIndexed(n, stale) && g.Indexed(g.classes[n].methods.at[k], k, stale);
  }

  lemma FirstMember(g: Graph, n: string, name: string, stale: set<Sig>) returns (k: Key)
    requires g.Consistent({}, stale) && n in g.classes
    requires FirstAdmissible(g.classes[n].methods.keys, g.classes[n].methods.at, name).Some?
    ensures var t := g.classes[n].methods; k in t.at && t.at[k] == FirstAdmissible(t.keys, t.at, name).value
  {
    var t := g.classes[n].methods;
    var i :| IsFirst(t.keys, t.at, name, i) && t.at[t.keys[i]] == FirstAdmissible(t.keys, t.at, name).value;
    k := t.keys[i];
  }

  /** The members that the walks meet first in class `n`, if any. */
  lemma FirstsAlike(g: Graph, h: Graph, n: string, name: string, stale: set<Sig>)
    requires Alike(g, h, stale) && g.Shaped() && n in g.classes && n in h.classes
    ensures var t, u := g.classes[n].methods, h.classes[n].methods;
      var a, b := FirstAdmissible(t.keys, t.at, name), FirstAdmissible(u.keys, u.at, name);
      && (a.Some? ==> b == a && (h.HasMethod(a.value) <==> g.HasMethod(a.value)))
      && (a.None? && b.Some? ==> (!h.HasMethod(b.value) <==> AboveOld(g, n, name)))
  {
    hide FirstAdmissible, Graph.Consistent, Graph.Shaped, MeetsOld, AboveOld, Extends;
    assert AlikeAt(g, h, n);
    ShapedOf(g, {}, stale);
    ShapedOf(h, {}, stale);
    ValidTable(g, n);
    ValidTable(h, n);
    var t, u := g.classes[n].methods, h.classes[n].methods;
    if FirstAdmissible(t.keys, t.at, name).Some? {
      FirstInFront(t.keys, t.at, u.keys, u.at, name);
      var k := FirstMember(g, n, name, stale);
      MemberSigned(g, n, k, stale);
      IndexedStays(g, h, t.at[k]);
    } else if FirstAdmissible(u.keys, u.at, name).Some? {
      FirstIsNew(t, u, name);
    }
  }

  /** What a walk meets, by what the first class has. */
  lemma WalkOld(g: Graph, n: string, name: string)
    requires g.Shaped() && n in g.classes
    ensures var f := FirstAdmissible(g.classes[n].methods.keys, g.classes[n].methods.at, name);
      MeetsOld(g, n, name) <==> if f.Some? then !g.HasMethod(f.value) else AboveOld(g, n, name)
    ensures var up := g.classes[n].superClass;
      up.Resolved? ==> up.cls.name in g.classes && g.rank(up.cls.name) < g.rank(n)
  {
    hide FirstAdmissible;
    assert g.ClassShape(n);
  }

  /** Walks in alike graphs agree on whether they meet an old node. */
  lemma {:induction false} WalksAlike(g: Graph, h: Graph, n: string, name: string, stale: set<Sig>)
    requires Alike(g, h, stale) && g.Shaped() && h.Shaped() && n in g.classes
    ensures n in h.classes && (MeetsOld(h, n, name) <==> MeetsOld(g, n, name))
    decreases g.rank(n)
  {
    hide FirstAdmissible, Graph.Consistent, Extends, Graph.Shaped, MeetsOld, Graph.HasMethod;
    assert AlikeAt(g, h, n);
    FirstsAlike(g, h, n, name, stale);
    WalkOld(g, n, name);
    WalkOld(h, n, name);
    if g.classes[n].superClass.Resolved? {
      WalksAlike(g, h, g.classes[n].superClass.cls.name, name, stale);
    }
  }

  /** To resolve the reference takes over no slot of `g`. */
  ghost predicate Clear(g: Graph, ref: Sig) {
    Signature(ref) in g.methods || ByFqcn(ref.fqcn) !in TableNamed(g, ref.fqcn).at
  }

  /** Such a reference denotes an old node in the one graph if and only if it does in the other. */
  lemma RefsAlike(g: Graph, h: Graph, ref: Sig, stale: set<Sig>)
    requires Alike(g, h, stale) && g.Shaped() && h.Shaped()
    ensures CurrentRef(h, ref) <==> CurrentRef(g, ref)
  {
    hide Graph.Consistent, Inherited, Graph.Shaped, MeetsOld, CurrentRef;
    CurrentIff(g, ref, stale);
    CurrentIff(h, ref, stale);
    if ref.fqcn in g.classes {
      AboveAlike(g, h, ref.fqcn, ref.name, stale);
    }
  }

  lemma AboveAlike(g: Graph, h: Graph, n: string, name: string, stale: set<Sig>)
    requires Alike(g, h, stale) && g.Shaped() && h.Shaped() && n in g.classes
    ensures n in h.classes && (AboveOld(h, n, name) <==> AboveOld(g, n, name))
  {
    hide Graph.Consistent, Inherited, MeetsOld, Extends;
    assert AlikeAt(g, h, n) && g.ClassShape(n);
    if g.classes[n].superClass.Resolved? {
      WalksAlike(g, h, g.classes[n].superClass.cls.name, name, stale);
    }
  }

  /** The step keeps the graphs alike, unless it takes over a slot of the first graph. */
  lemma AlikeNext(g: Graph, x: Step, stale: set<Sig>)
    requires Alike(g, x.g, stale) && Taken(x, stale) && g.Shaped()
    requires Signature(x.ref) in x.g.methods || Clear(g, x.ref)
    ensures Alike(g, x.h, stale)
  {
    hide Graph.Consistent, Extends, CurrentRef, AboveOld, AlikeAt, Resolves, Joined, Graph.Shaped, Clear;
    StepJoins(x, stale);
    if Signature(x.ref) !in x.g.methods {
      ExtendsTwice(g, x.g, x.h);
      forall n | n in g.classes
        ensures n in x.h.classes && AlikeAt(g, x.h, n)
      {
        AlikeClass(g, x, n, stale);
      }
      AlikeRest(g, x, stale);
    }
  }

  lemma AlikeRest(g: Graph, x: Step, stale: set<Sig>)
    requires Alike(g, x.g, stale) && Taken(x, stale) && g.Shaped() && Signature(x.ref) !in x.g.methods
    ensures g.rank == x.h.rank
    ensures forall n :: n in x.h.classes && n !in g.classes ==> x.h.classes[n].superClass == NoSuper
    ensures forall s :: Signature(s) in x.h.methods && Signature(s) !in g.methods ==> CurrentRef(g, s)
  {
    hide Graph.Consistent, Extends, AboveOld, AlikeAt, Inherited, Table.Put, Table.Valid, Resolves;
    hide Lookup, Graph.Shaped;
    StepJoins(x, stale);
    RefsAlike(g, x.g, x.ref, stale);
  }

  /** What the step stores is an old node exactly if the walk from the superclass met one in `g`. */
  lemma StoredAlike(g: Graph, x: Step, stale: set<Sig>)
    requires Alike(g, x.g, stale) && Taken(x, stale) && g.Shaped() && Signature(x.ref) !in x.g.methods
    requires x.ref.fqcn in g.classes
    ensures !x.h.HasMethod(x.callee) <==> AboveOld(g, x.ref.fqcn, x.callee.sig.name)
  {
    hide Graph.Consistent, Graph.Shaped, CurrentRef, AboveOld, AlikeAt, Resolves;
    StepJoins(x, stale);
    StepCurrent(x, stale);
    RefsAlike(g, x.g, x.ref, stale);
    CurrentIff(g, x.ref, stale);
    CurrentIff(x.g, x.ref, stale);
  }

  /** The class keeps its superclass and its former members. */
  lemma JoinedFront(g: Graph, h: Graph, m: string, j: Key, r: ModelMethod, k: Graph, n: string)
    requires g.Shaped() && n in g.classes && n in h.classes && AlikeAt(g, h, n)
    requires Joined(h, m, j, r, k) && j !in TableNamed(g, m).at
    ensures n in k.classes
    ensures var t, u := g.classes[n].methods, k.classes[n].methods;
      && k.classes[n].superClass == g.classes[n].superClass && k.classes[n].node == g.classes[n].node
      && t.keys <= u.keys && forall i :: i in t.at ==> i in u.at && u.at[i] == t.at[i]
    ensures forall i :: i in k.classes[n].methods.at && !(n == m && i == j) ==>
      i in h.classes[n].methods.at && h.classes[n].methods.at[i] == k.classes[n].methods.at[i]
    ensures n == m ==> k.classes[n].methods.at[j] == r
  {
    hide Graph.Shaped, Graph.HasMethod, AboveOld;
  }

  /** One new member of the class. */
  lemma AlikeMember(g: Graph, x: Step, n: string, k: Key, m: ModelMethod, stale: set<Sig>)
    requires Alike(g, x.g, stale) && Taken(x, stale) && g.Shaped() && Signature(x.ref) !in x.g.methods
    requires n in g.classes && n in x.g.classes && x.g.Shaped() && k !in g.classes[n].methods.at
    requires if n == x.ref.fqcn && k == KeyOf(x.g, x.ref) then m == x.callee
             else k in x.g.classes[n].methods.at && m == x.g.classes[n].methods.at[k]
    ensures !x.h.HasMethod(m) <==> AboveOld(g, n, m.sig.name)
  {
    hide Graph.Consistent, Extends, CurrentRef, AboveOld, Lookup, Graph.HasMethod, Resolves, Graph.Shaped;
    if n == x.ref.fqcn && k == KeyOf(x.g, x.ref) {
      StoredAlike(g, x, stale);
    } else {
      assert AlikeAt(g, x.g, n);
      MemberSigned(x.g, n, k, stale);
      IndexedStays(x.g, x.h, m);
    }
  }

  lemma AlikeClass(g: Graph, x: Step, n: string, stale: set<Sig>)
    requires Alike(g, x.g, stale) && Taken(x, stale) && g.Shaped() && Signature(x.ref) !in x.g.methods
    requires Clear(g, x.ref) && n in g.classes
    ensures n in x.h.classes && AlikeAt(g, x.h, n)
  {
    hide Graph.Consistent, Extends, CurrentRef, AboveOld, Lookup, Graph.HasMethod, Resolves, Joined, Graph.Shaped;
    hide KeyOf, Clear;
    AlikeParts(g, x.g, n, stale);
    StepJoins(x, stale);
    NewKey(g, x, stale);
    JoinedFront(g, x.g, x.ref.fqcn, KeyOf(x.g, x.ref), x.callee, x.h, n);
    forall k | k in x.h.classes[n].methods.at && k !in g.classes[n].methods.at
      ensures !x.h.HasMethod(x.h.classes[n].methods.at[k]) <==> AboveOld(g, n, x.h.classes[n].methods.at[k].sig.name)
    {
      AlikeMember(g, x, n, k, x.h.classes[n].methods.at[k], stale);
    }
  }

  lemma AlikeParts(g: Graph, h: Graph, n: string, stale: set<Sig>)
    requires Alike(g, h, stale) && g.Shaped() && n in g.classes
    ensures n in h.classes && AlikeAt(g, h, n)
  {
  }

  /** The key of what is stored is not one of `g`. */
  lemma NewKey(g: Graph, x: Step, stale: set<Sig>)
    requires Alike(g, x.g, stale) && Taken(x, stale) && g.Shaped() && Signature(x.ref) !in x.g.methods
    requires Clear(g, x.ref)
    ensures x.g.Shaped() && KeyOf(x.g, x.ref) !in TableNamed(g, x.ref.fqcn).at
  {
    hide Graph.Consistent, CurrentRef, AboveOld, Lookup, AlikeAt, Graph.Shaped, Resolves;
    ShapedOf(x.g, {}, stale);
    if x.ref.fqcn in g.classes && Signature(x.ref) in g.classes[x.ref.fqcn].methods.at {
      MemberSigned(g, x.ref.fqcn, Signature(x.ref), stale);
      MemberKeyed(g, x.ref.fqcn, Signature(x.ref));
    }
  }

  lemma MemberKeyed(g: Graph, n: string, k: Key)
    requires g.Shaped() && n in g.classes && k in g.classes[n].methods.at
    ensures k.Signature? ==> g.classes[n].methods.at[k].sig == k.sig
  {
    assert g.ClassShape(n);
  }

  /** The callee of one more step. */
  lemma StepAlike(g: Graph, x: Step, stale: set<Sig>)
    requires Alike(g, x.g, stale) && Taken(x, stale) && g.Shaped()
    ensures Signature(x.callee.sig) in x.h.methods && (x.h.HasMethod(x.callee) <==> CurrentRef(g, x.ref))
  {
    hide Graph.Consistent, Graph.Shaped, CurrentRef, AlikeAt, Resolves;
    StepCurrent(x, stale);
    RefsAlike(g, x.g, x.ref, stale);
  }

  lemma TakenGrows(x: Step, stale: set<Sig>)
    requires Taken(x, stale)
    ensures Extends(x.g, x.h)
  {
  }

  lemma AlikeConsistent(g: Graph, h: Graph, stale: set<Sig>)
    requires Alike(g, h, stale)
    ensures g.Consistent({}, stale) && h.Consistent({}, stale)
  {
  }

  /** Along a path that takes over no slot of `g`, each callee is the indexed node of its signature
      if and only if its reference denoted, in `g`, such a node or nothing. */
  lemma {:induction false} PathAlike(g: Graph, h: Graph, xs: seq<Step>, k: Graph, stale: set<Sig>)
    requires Alike(g, h, stale) && g.Shaped() && Path(h, xs, k, stale)
    requires forall x :: x in xs ==> Signature(x.ref) in h.methods || Clear(g, x.ref)
    ensures Alike(g, k, stale)
    ensures forall x :: x in xs ==>
      Signature(x.callee.sig) in k.methods && (k.HasMethod(x.callee) <==> CurrentRef(g, x.ref))
  {
    hide Taken, Alike, CurrentRef, Clear, Graph.HasMethod, Extends, Graph.Consistent, Graph.Shaped;
    if xs != [] {
      var n := |xs| - 1;
      assert xs == xs[..n] + [xs[n]];
      PathAlike(g, h, xs[..n], xs[n].g, stale);
      AlikeConsistent(g, h, stale);
      if Signature(xs[n].ref) in h.methods {
        PathIndexed(h, xs[..n], xs[n].g, stale, xs[n].ref);
      }
      AlikeNext(g, xs[n], stale);
      StepAlike(g, xs[n], stale);
      TakenGrows(xs[n], stale);
      forall x | x in xs[..n]
        ensures Signature(x.callee.sig) in k.methods && (k.HasMethod(x.callee) <==> xs[n].g.HasMethod(x.callee))
      {
        IndexedStays(xs[n].g, k, x.callee);
      }
    }
  }
}
