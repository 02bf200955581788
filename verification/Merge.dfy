/** Merging a batch of freshly parsed classes into the database: first every class is stored,
    then each one is linked to its superclass and interfaces and its members are indexed. */
module Merge {
  import opened Model
  import opened Resolver

  // ---------- what each step does to the graph ----------

  /** A class as the parser leaves it. */
  ghost predicate Parsed(c: ClassView, rank: string -> nat) {
    var n := c.node.name;
    && !c.superClass.Resolved? && (c.superClass.Unresolved? ==> rank(c.superClass.fqcn) < rank(n))
    && c.methods.Valid() && c.fields.Valid()
    && (forall k :: k in c.methods.at ==> k == Signature(c.methods.at[k].sig) && k.sig.fqcn == n)
    && (forall k :: k in c.fields.at ==> k == Signature(c.fields.at[k].sig) && k.sig.fqcn == n)
  }

  /** Only one class view changed, and not its members: who is indexed is the same. */
  lemma SameMembers(g: Graph, c: ModelClass, v: ClassView, pending: set<string>, stale: set<Sig>)
    requires g.Consistent(pending, stale) && g.HasClass(c)
    requires v.node == c && v.methods == g.classes[c.name].methods && v.fields == g.classes[c.name].fields
    requires v.superClass.Resolved? ==> g.HasClass(v.superClass.cls) && g.rank(v.superClass.cls.name) < g.rank(c.name)
    ensures g.WithClass(c, v).Consistent(pending, stale)
  {
    hide Graph.MembersIndexed, Graph.MethodsCanonical, Graph.ClassShape;
    var h := g.WithClass(c, v);
    SameShape(g, c, v);
    AllMembersFrame(g, h, pending, pending, stale);
    EntriesFrame(g, h, stale);
  }

  lemma SameShape(g: Graph, c: ModelClass, v: ClassView)
    requires g.Shaped() && g.HasClass(c)
    requires v.node == c && v.methods == g.classes[c.name].methods && v.fields == g.classes[c.name].fields
    requires v.superClass.Resolved? ==> g.HasClass(v.superClass.cls) && g.rank(v.superClass.cls.name) < g.rank(c.name)
    ensures g.WithClass(c, v).Shaped()
  {
    var h := g.WithClass(c, v);
    forall n | n in h.classes
      ensures h.ClassShape(n)
    {
      assert g.ClassShape(n);
    }
  }

  lemma NewShape(g: Graph, c: ModelClass, v: ClassView)
    requires g.Shaped() && c.name !in g.classes && v.node == c && Parsed(v, g.rank)
    ensures g.WithClass(c, v).Shaped()
  {
    var h := g.WithClass(c, v);
    forall n | n in h.classes
      ensures h.ClassShape(n)
    {
      assert n != c.name ==> g.ClassShape(n);
    }
  }

  lemma StoreKeeps(g: Graph, c: ModelClass, v: ClassView, pending: set<string>, stale: set<Sig>)
    requires g.Consistent(pending, stale) && c.name !in g.classes && v.node == c && Parsed(v, g.rank)
    ensures g.WithClass(c, v).Consistent(pending + {c.name}, stale)
  {
    hide Graph.MembersIndexed, Graph.MethodsCanonical, Graph.ClassShape, Parsed;
    var h := g.WithClass(c, v);
    NewShape(g, c, v);
    AllMembersFrame(g, h, pending, pending + {c.name}, stale);
    EntriesFrame(g, h, stale);
  }

  ghost function WithMethodEntry(g: Graph, k: Key, m: ModelMethod): Graph {
    g.(methods := g.methods[k := m])
  }

  ghost function WithFieldEntry(g: Graph, k: Key, f: ModelField): Graph {
    g.(fields := g.fields[k := f])
  }

  lemma IndexMethodShape(g: Graph, k: Key, m: ModelMethod)
    requires g.Shaped()
    ensures WithMethodEntry(g, k, m).Shaped()
  {
    forall d | d in g.classes
      ensures WithMethodEntry(g, k, m).ClassShape(d)
    {
      assert g.ClassShape(d);
    }
  }

  lemma IndexMethodEntry(g: Graph, n: string, k: Key, j: Key, stale: set<Sig>)
    requires g.Shaped() && n in g.classes && k in g.classes[n].methods.at && k.Signature? && k !in g.methods
    requires j == k || (j in g.methods && g.MethodEntry(j, stale))
    ensures WithMethodEntry(g, k, g.classes[n].methods.at[k]).MethodEntry(j, stale)
  {
    assert g.ClassShape(n);
  }

  lemma IndexedMember(g: Graph, n: string, k: Key, stale: set<Sig>)
    requires g.Shaped() && n in g.classes && k in g.classes[n].methods.at && k.Signature?
    requires k in g.methods ==> g.MethodEntry(k, stale)
    ensures k == Signature(g.classes[n].methods.at[k].sig) && k.sig.fqcn == n
    ensures k in g.methods ==> g.methods[k] == g.classes[n].methods.at[k]
  {
    assert g.ClassShape(n);
  }

  /** Indexing a member under its signature keeps the others indexed. */
  lemma IndexMethodKeeps(g: Graph, n: string, k: Key, pending: set<string>, stale: set<Sig>)
    requires g.Consistent(pending, stale) && n in g.classes && k in g.classes[n].methods.at && k.Signature?
    ensures WithMethodEntry(g, k, g.classes[n].methods.at[k]).Consistent(pending, stale)
  {
    hide Graph.MethodsIndexed, Graph.FieldsIndexed, Graph.ClassShape, Graph.MethodEntry;
    var m := g.classes[n].methods.at[k];
    var h := WithMethodEntry(g, k, m);
    IndexedMember(g, n, k, stale);
    if k in g.methods {
      assert h == g;
    } else {
      IndexMethodShape(g, k, m);
      forall d | d in h.classes && d !in pending
        ensures h.MembersIndexed(d, stale)
      {
        assert g.MembersIndexed(d, stale);
        IndexMethodMembers(g, k, m, d, stale);
        FieldsFrame(g, h, d);
      }
      forall j | j in h.methods
        ensures h.MethodEntry(j, stale)
      {
        IndexMethodEntry(g, n, k, j, stale);
      }
    }
  }

  lemma IndexMethodMembers(g: Graph, k: Key, m: ModelMethod, d: string, stale: set<Sig>)
    requires k == Signature(m.sig) && k !in g.methods && d in g.classes && g.MethodsIndexed(d, stale)
    ensures WithMethodEntry(g, k, m).MethodsIndexed(d, stale)
  {
    var h, t := WithMethodEntry(g, k, m), g.classes[d].methods.at;
    assert forall j :: j in t ==> g.Indexed(t[j], j, stale) && h.Indexed(t[j], j, stale);
  }

  lemma IndexFieldKeeps(g: Graph, n: string, k: Key, pending: set<string>, stale: set<Sig>)
    requires g.Consistent(pending, stale) && n in g.classes && k in g.classes[n].fields.at
    ensures WithFieldEntry(g, k, g.classes[n].fields.at[k]).Consistent(pending, stale)
  {
    var h := WithFieldEntry(g, k, g.classes[n].fields.at[k]);
    EntriesFrame(g, h, stale);
    hide Graph.MethodsCanonical, Graph.MethodsIndexed;
    assert forall d :: d in g.classes ==> g.ClassShape(d);
    assert forall d :: d in h.classes ==> h.ClassShape(d);
    hide Graph.ClassShape;
    forall d | d in h.classes && d !in pending
      ensures h.MembersIndexed(d, stale)
    {
      MethodsFrame(g, h, d, stale);
      IndexFieldMembers(g, n, k, d);
    }
  }

  lemma IndexFieldMembers(g: Graph, n: string, k: Key, d: string)
    requires g.Shaped() && n in g.classes && k in g.classes[n].fields.at && d in g.classes && g.FieldsIndexed(d)
    ensures WithFieldEntry(g, k, g.classes[n].fields.at[k]).FieldsIndexed(d)
  {
    var h := WithFieldEntry(g, k, g.classes[n].fields.at[k]);
    assert g.ClassShape(n) && g.ClassShape(d);
    forall j | j in h.classes[d].fields.at
      ensures h.HasField(h.classes[d].fields.at[j])
    {
      assert g.HasField(g.classes[d].fields.at[j]);
    }
  }

  /** The graph once `o` is stored in class `c` and indexed, replacing what had its signature. */
  ghost function WithMethod(g: Graph, c: ModelClass, o: ModelMethod): Graph
    requires g.Shaped() && g.HasClass(c)
  {
    assert g.ClassShape(c.name);
    var v := g.classes[c.name];
    g.WithClass(c, v.(methods := v.methods.Put(Signature(o.sig), o))).(methods := g.methods[Signature(o.sig) := o])
  }

  ghost function WithField(g: Graph, c: ModelClass, o: ModelField): Graph
    requires g.Shaped() && g.HasClass(c)
  {
    assert g.ClassShape(c.name);
    var v := g.classes[c.name];
    g.WithClass(c, v.(fields := v.fields.Put(Signature(o.sig), o))).(fields := g.fields[Signature(o.sig) := o])
  }

  lemma WithMethodShape(g: Graph, c: ModelClass, o: ModelMethod)
    requires g.Shaped() && g.HasClass(c) && o.sig.fqcn == c.name
    ensures WithMethod(g, c, o).Shaped()
  {
    var h := WithMethod(g, c, o);
    forall d | d in h.classes
      ensures h.ClassShape(d)
    {
      assert g.ClassShape(d);
      assert h.classes[d].superClass == g.classes[d].superClass;
      assert forall x :: g.HasClass(x) ==> h.HasClass(x);
    }
  }

  lemma WithMethodMembers(g: Graph, c: ModelClass, o: ModelMethod, d: string, stale: set<Sig>)
    requires g.Shaped() && g.HasClass(c) && o.sig.fqcn == c.name && o.sig in stale
    requires d in g.classes && g.MethodsIndexed(d, stale)
    ensures WithMethod(g, c, o).MethodsIndexed(d, stale)
  {
    var h, k := WithMethod(g, c, o), Signature(o.sig);
    var t := h.classes[d].methods.at;
    assert g.ClassShape(c.name) && g.ClassShape(d);
    forall j | j in t
      ensures h.Indexed(t[j], j, stale)
    {
      if !(d == c.name && j == k) {
        assert t[j] == g.classes[d].methods.at[j] && g.Indexed(t[j], j, stale);
      }
    }
  }

  lemma WithMethodEntries(g: Graph, c: ModelClass, o: ModelMethod, j: Key, stale: set<Sig>)
    requires g.Shaped() && g.HasClass(c) && o.sig.fqcn == c.name && o.sig in stale
    requires j == Signature(o.sig) || (j in g.methods && g.MethodEntry(j, stale))
    ensures WithMethod(g, c, o).MethodEntry(j, stale)
  {
    assert g.ClassShape(c.name);
  }

  /** Overriding a method leaves the slots that inherited the old one stale, nothing else. */
  lemma OverrideMethodKeeps(g: Graph, c: ModelClass, o: ModelMethod, pending: set<string>, stale: set<Sig>)
    requires g.Consistent(pending, stale) && g.HasClass(c) && o.sig.fqcn == c.name && o.sig in stale
    ensures WithMethod(g, c, o).Consistent(pending, stale)
  {
    hide Graph.MethodsIndexed, Graph.FieldsIndexed, Graph.ClassShape, Graph.MethodEntry;
    var h := WithMethod(g, c, o);
    WithMethodShape(g, c, o);
    forall d | d in h.classes && d !in pending
      ensures h.MembersIndexed(d, stale)
    {
      assert d in g.classes && g.MembersIndexed(d, stale);
      WithMethodMembers(g, c, o, d, stale);
      FieldsFrame(g, h, d);
    }
    forall j | j in h.methods
      ensures h.MethodEntry(j, stale)
    {
      WithMethodEntries(g, c, o, j, stale);
    }
  }

  lemma WithFieldMembers(g: Graph, c: ModelClass, o: ModelField, d: string)
    requires g.Shaped() && g.HasClass(c) && o.sig.fqcn == c.name && d in g.classes && g.FieldsIndexed(d)
    ensures WithField(g, c, o).FieldsIndexed(d)
  {
    var h := WithField(g, c, o);
    var t := h.classes[d].fields.at;
    assert g.ClassShape(c.name) && g.ClassShape(d);
    forall j | j in t
      ensures h.HasField(t[j])
    {
      if !(d == c.name && j == Signature(o.sig)) {
        assert t[j] == g.classes[d].fields.at[j] && g.HasField(t[j]);
      }
    }
  }

  lemma WithFieldShape(g: Graph, c: ModelClass, o: ModelField)
    requires g.Shaped() && g.HasClass(c) && o.sig.fqcn == c.name
    ensures WithField(g, c, o).Shaped()
  {
    var h := WithField(g, c, o);
    forall d | d in h.classes
      ensures h.ClassShape(d)
    {
      assert g.ClassShape(d);
      assert h.classes[d].superClass == g.classes[d].superClass;
      assert forall x :: g.HasClass(x) ==> h.HasClass(x);
    }
  }

  lemma OverrideFieldKeeps(g: Graph, c: ModelClass, o: ModelField, pending: set<string>, stale: set<Sig>)
    requires g.Consistent(pending, stale) && g.HasClass(c) && o.sig.fqcn == c.name
    ensures WithField(g, c, o).Consistent(pending, stale)
  {
    hide Graph.MethodsIndexed, Graph.FieldsIndexed, Graph.ClassShape;
    var h := WithField(g, c, o);
    WithFieldShape(g, c, o);
    forall d | d in h.classes && d !in pending
      ensures h.MembersIndexed(d, stale)
    {
      assert d in g.classes && g.MembersIndexed(d, stale);
      WithFieldMembers(g, c, o, d);
      MethodsFrame(g, h, d, stale);
    }
    forall j | j in h.methods
      ensures h.MethodEntry(j, stale)
    {
      assert g.MethodEntry(j, stale);
    }
  }

  /** A class is never stored under the text of a node, so the test that looks a node up by
      itself never finds it: an overriding member is always added, never compared. */
  lemma NodeIsNoKey(g: Graph, n: string)
    requires g.Shaped() && n in g.classes
    ensures ObjectText !in g.classes[n].methods.at && ObjectText !in g.classes[n].fields.at
  {
    assert g.ClassShape(n);
  }

  lemma MoreStale(g: Graph, pending: set<string>, stale: set<Sig>, more: set<Sig>)
    requires g.Consistent(pending, stale) && stale <= more
    ensures g.Consistent(pending, more)
  {
    forall n | n in g.classes && n !in pending
      ensures g.MembersIndexed(n, more)
    {
      assert g.MembersIndexed(n, stale);
    }
    forall k | k in g.methods
      ensures g.MethodEntry(k, more)
    {
      assert g.MethodEntry(k, stale);
    }
  }

  // ---------- pass 1: storing ----------

  ghost function Names(batch: seq<ModelClass>): set<string> {
    set v | v in batch :: v.name
  }

  ghost predicate DistinctNames(batch: seq<ModelClass>) {
    forall i, j :: 0 <= i < j < |batch| ==> batch[i].name != batch[j].name
  }

  lemma NoNames(batch: seq<ModelClass>)
    ensures Names(batch[..0]) == {}
  {
  }

  lemma NamesNext(batch: seq<ModelClass>, i: nat)
    requires DistinctNames(batch) && i < |batch|
    ensures Names(batch[..i + 1]) == Names(batch[..i]) + {batch[i].name} && batch[i].name !in Names(batch[..i])
  {
    assert batch[..i + 1] == batch[..i] + [batch[i]];
  }

  method StoreClass(db: AnalyzerDatabase, v: ModelClass, ghost pending: set<string>, ghost stale: set<Sig>)
      returns (known: bool)
    requires db.View().Consistent(pending, stale) && Parsed(v.View(), db.rank)
    modifies db`classes
    ensures known == (v.name in old(db.classes))
    ensures db.classes == if known then old(db.classes) else old(db.classes)[v.name := v]
    ensures db.View().Consistent(if known then pending else pending + {v.name}, stale)
  {
    hide Graph.Consistent;
    ghost var g := db.View();
    known := v.name in db.classes;
    if !known {
      db.classes := db.classes[v.name := v];
      assert db.View().classes == g.WithClass(v, v.View()).classes;
      StoreKeeps(g, v, v.View(), pending, stale);
    }
  }

  /** Stores every class whose name is new; returns the names that were already known. */
  method StoreClasses(db: AnalyzerDatabase, batch: seq<ModelClass>, ghost stale: set<Sig>)
      returns (overridden: set<string>)
    requires db.View().Consistent({}, stale) && DistinctNames(batch)
    requires forall v :: v in batch ==> Parsed(v.View(), db.rank)
    modifies db`classes
    ensures overridden == Names(batch) * old(db.classes.Keys)
    ensures db.classes.Keys == old(db.classes.Keys) + Names(batch)
    ensures forall n :: n in old(db.classes) ==> db.classes[n] == old(db.classes)[n]
    ensures forall i :: 0 <= i < |batch| && batch[i].name !in overridden ==> db.classes[batch[i].name] == batch[i]
    ensures db.View().Consistent(Names(batch) - overridden, stale)
  {
    hide Graph.Consistent, Parsed, Names;
    overridden := {};
    ghost var pending: set<string> := {};
    NoNames(batch);
    for i := 0 to |batch|
      invariant overridden == Names(batch[..i]) * old(db.classes.Keys)
      invariant pending == Names(batch[..i]) - overridden
      invariant db.classes.Keys == old(db.classes.Keys) + Names(batch[..i])
      invariant forall n :: n in old(db.classes) ==> db.classes[n] == old(db.classes)[n]
      invariant forall j :: 0 <= j < i && batch[j].name !in overridden ==>
        batch[j].name in db.classes && db.classes[batch[j].name] == batch[j]
      invariant db.View().Consistent(pending, stale)
    {
      NamesNext(batch, i);
      var known := StoreClass(db, batch[i], pending, stale);
      if known {
        overridden := overridden + {batch[i].name};
      } else {
        pending := pending + {batch[i].name};
      }
    }
    assert batch[..|batch|] == batch;
  }

  // ---------- pass 2: linking ----------

  /** The classes of the database and its list of missing nodes. */
  datatype Stock = Stock(classes: map<string, ModelClass>, missing: seq<MissingNode>)

  ghost function StockOf(db: AnalyzerDatabase): Stock
    reads db`classes, db`missing
  {
    Stock(db.classes, db.missing)
  }

  /** Between the two states exactly the named classes were referenced: those that were absent
      were created as missing, once each, and nothing else was. */
  ghost predicate Grown(a: Stock, b: Stock, names: set<string>) {
    && b.classes.Keys == a.classes.Keys + names
    && (forall n :: n in a.classes ==> b.classes[n] == a.classes[n])
    && a.missing <= b.missing
    && Created(a, b, names) && CreatedOnce(a, b) && CreatedAll(a, b, names)
  }

  ghost predicate Created(a: Stock, b: Stock, names: set<string>) {
    forall i :: |a.missing| <= i < |b.missing| ==>
      b.missing[i].MissingClass? && b.missing[i].cls.name in names - a.classes.Keys
  }

  ghost predicate CreatedOnce(a: Stock, b: Stock) {
    forall i, j :: |a.missing| <= i < j < |b.missing| && b.missing[i].MissingClass? && b.missing[j].MissingClass? ==>
      b.missing[i].cls.name != b.missing[j].cls.name
  }

  ghost predicate CreatedAll(a: Stock, b: Stock, names: set<string>) {
    forall n :: n in names && n !in a.classes ==> exists i :: IsMissing(b, |a.missing|, i, n)
  }

  ghost predicate IsMissing(b: Stock, from: nat, i: nat, n: string) {
    from <= i < |b.missing| && n in b.classes && b.missing[i] == MissingClass(b.classes[n])
  }

  lemma CreatedTrans(a: Stock, b: Stock, c: Stock, names: set<string>, more: set<string>)
    requires b.classes.Keys == a.classes.Keys + names && a.missing <= b.missing <= c.missing
    requires Created(a, b, names) && Created(b, c, more)
    ensures Created(a, c, names + more)
    ensures CreatedOnce(a, b) && CreatedOnce(b, c) ==> CreatedOnce(a, c)
  {
    forall i | |a.missing| <= i < |c.missing|
      ensures c.missing[i].MissingClass? && c.missing[i].cls.name in (names + more) - a.classes.Keys
      ensures i < |b.missing| <==> c.missing[i].cls.name in b.classes
    {
      assert i < |b.missing| ==> c.missing[i] == b.missing[i];
    }
    if CreatedOnce(a, b) && CreatedOnce(b, c) {
      forall i, j | |a.missing| <= i < j < |c.missing|
        ensures c.missing[i].cls.name != c.missing[j].cls.name
      {
        assert i < |b.missing| ==> c.missing[i] == b.missing[i];
        assert j < |b.missing| ==> c.missing[j] == b.missing[j];
      }
    }
  }

  lemma CreatedAllTrans(a: Stock, b: Stock, c: Stock, names: set<string>, more: set<string>)
    requires b.classes.Keys == a.classes.Keys + names && a.missing <= b.missing <= c.missing
    requires forall n :: n in b.classes ==> n in c.classes && c.classes[n] == b.classes[n]
    requires CreatedAll(a, b, names) && CreatedAll(b, c, more)
    ensures CreatedAll(a, c, names + more)
  {
    forall n | n in names + more && n !in a.classes
      ensures exists i :: IsMissing(c, |a.missing|, i, n)
    {
      if n in names {
        var i: nat :| IsMissing(b, |a.missing|, i, n);
        assert IsMissing(c, |a.missing|, i, n);
      } else {
        var i: nat :| IsMissing(c, |b.missing|, i, n);
        assert IsMissing(c, |a.missing|, i, n);
      }
    }
  }

  lemma GrownTrans(a: Stock, b: Stock, c: Stock, names: set<string>, more: set<string>)
    requires Grown(a, b, names) && Grown(b, c, more)
    ensures Grown(a, c, names + more)
  {
    hide Created, CreatedOnce, CreatedAll;
    CreatedTrans(a, b, c, names, more);
    CreatedAllTrans(a, b, c, names, more);
  }

  /** The graph has grown by missing classes, which are empty; the indexes and the members are as they
      were, and so are superclass and interfaces but in the excepted classes. */
  ghost predicate Widened(g: Graph, h: Graph, except: set<string>) {
    && h.methods == g.methods && h.fields == g.fields && h.rank == g.rank
    && (forall n :: n in g.classes ==> n in h.classes && SameBut(g.classes[n], h.classes[n], n in except))
    && forall n :: n in h.classes && n !in g.classes ==>
         h.classes[n] == EmptyView(h.classes[n].node) && h.classes[n].node.missing && h.classes[n].node.name == n
  }

  ghost predicate SameBut(a: ClassView, b: ClassView, links: bool) {
    if links then b == a.(superClass := b.superClass, interfaces := b.interfaces) else b == a
  }

  lemma NotWidened(g: Graph, except: set<string>)
    ensures Widened(g, g, except)
  {
  }

  lemma WidenedTwice(g: Graph, h: Graph, k: Graph, a: set<string>, b: set<string>)
    requires Widened(g, h, a) && Widened(h, k, b)
    requires forall n :: n in b ==> n in g.classes
    ensures Widened(g, k, a + b)
  {
    forall n | n in g.classes
      ensures n in k.classes && SameBut(g.classes[n], k.classes[n], n in a + b)
    {
      assert SameBut(g.classes[n], h.classes[n], n in a) && SameBut(h.classes[n], k.classes[n], n in b);
    }
  }

  lemma WidenedBy(g: Graph, c: ModelClass)
    requires c.name !in g.classes && c.missing
    ensures Widened(g, g.WithClass(c, EmptyView(c)), {})
  {
  }

  /** One class has got another superclass or interfaces. */
  lemma Relinked(g: Graph, c: ModelClass, v: ClassView)
    requires g.HasClass(c) && SameBut(g.classes[c.name], v, true)
    ensures Widened(g, g.WithClass(c, v), {c.name})
  {
  }

  method Reference(db: AnalyzerDatabase, fqcn: string, ghost pending: set<string>, ghost stale: set<Sig>)
      returns (c: ModelClass)
    requires db.View().Consistent(pending, stale)
    modifies db`classes, db`missing
    ensures db.View().Consistent(pending, stale) && db.View().HasClass(c) && c.name == fqcn
    ensures fqcn in db.classes && db.classes[fqcn] == c
    ensures Grown(old(StockOf(db)), StockOf(db), {fqcn})
    ensures fresh(db.classes.Values - old(db.classes.Values))
    ensures fqcn !in old(db.classes) ==> fresh(c) && c.superClass == NoSuper
    ensures Widened(old(db.View()), db.View(), {})
  {
    hide Graph.Consistent, Widened;
    ghost var g := db.View();
    NotWidened(g, {});
    c := ResolveType(db, fqcn, pending, stale);
    if fqcn !in old(db.classes) {
      WidenedBy(g, c);
      assert IsMissing(StockOf(db), |old(db.missing)|, |old(db.missing)|, fqcn);
    }
  }

  ghost function SuperNames(s: Super): set<string> {
    if s.NoSuper? then {} else {s.Name()}
  }

  ghost function InterfaceNames(interfaces: seq<Super>): set<string> {
    set s | s in interfaces && !s.NoSuper? :: s.Name()
  }

  lemma NodesNamed(g: Graph)
    requires g.Shaped()
    ensures forall n :: n in g.classes ==> g.classes[n].node.name == n
  {
    assert forall n :: n in g.classes ==> g.ClassShape(n);
  }

  /** Points the class at a superclass node, and keeps the indexes. */
  method SetSuper(db: AnalyzerDatabase, cls: ModelClass, s: ModelClass, ghost pending: set<string>,
      ghost stale: set<Sig>)
    requires db.View().Consistent(pending, stale) && db.View().HasClass(cls) && db.View().HasClass(s)
    requires db.rank(s.name) < db.rank(cls.name)
    modifies cls`superClass
    ensures db.View().Consistent(pending, stale) && db.View().HasClass(cls) && cls.superClass == Resolved(s)
    ensures Widened(old(db.View()), db.View(), {cls.name})
  {
    hide Graph.Consistent, Graph.Shaped, Graph.ClassShape, Widened;
    ghost var g := db.View();
    ShapedOf(g, pending, stale);
    NodesNamed(g);
    SameMembers(g, cls, cls.View().(superClass := Resolved(s)), pending, stale);
    Relinked(g, cls, cls.View().(superClass := Resolved(s)));
    cls.superClass := Resolved(s);
    assert db.View().classes == g.WithClass(cls, cls.View()).classes;
  }

  /** The superclass name `s` has become the class of that name. */
  ghost predicate SuperLinked(s: Super, linked: Super, classes: map<string, ModelClass>) {
    && (s.NoSuper? ==> linked.NoSuper?)
    && (s.Unresolved? ==> s.fqcn in classes && linked == Resolved(classes[s.fqcn]))
  }

  /** A class seen for the first time: its superclass name becomes a node. */
  method LinkSuper(db: AnalyzerDatabase, cls: ModelClass, ghost pending: set<string>, ghost stale: set<Sig>)
    requires db.View().Consistent(pending, stale) && db.View().HasClass(cls) && !cls.superClass.Resolved?
    requires cls.superClass.Unresolved? ==> db.rank(cls.superClass.fqcn) < db.rank(cls.name)
    modifies db`classes, db`missing, cls`superClass
    ensures db.View().Consistent(pending, stale)
    ensures Grown(old(StockOf(db)), StockOf(db), old(SuperNames(cls.superClass)))
    ensures fresh(db.classes.Values - old(db.classes.Values))
    ensures Widened(old(db.View()), db.View(), {cls.name})
    ensures SuperLinked(old(cls.superClass), cls.superClass, db.classes)
  {
    hide Graph.Consistent, Widened;
    ghost var g, none: set<string> := db.View(), {};
    NotWidened(g, {cls.name});
    if cls.superClass.Unresolved? {
      var s := Reference(db, cls.superClass.fqcn, pending, stale);
      ghost var h := db.View();
      SetSuper(db, cls, s, pending, stale);
      WidenedTwice(g, h, db.View(), {}, {cls.name});
      assert none + {cls.name} == {cls.name};
    }
  }

  /** The classes named by the interfaces, in order. */
  ghost predicate InterfacesLinked(names: seq<Super>, linked: seq<Super>, classes: map<string, ModelClass>) {
    && |linked| == |names|
    && forall j :: 0 <= j < |names| && !names[j].NoSuper? ==>
         names[j].Name() in classes && linked[j] == Resolved(classes[names[j].Name()])
  }

  lemma GrownKeeps(a: Stock, b: Stock, names: set<string>)
    requires Grown(a, b, names)
    ensures b.classes.Keys == a.classes.Keys + names
    ensures forall n :: n in a.classes ==> n in b.classes && b.classes[n] == a.classes[n]
  {
  }

  lemma InterfaceNamesNext(names: seq<Super>, j: nat)
    requires j < |names| && !names[j].NoSuper?
    ensures InterfaceNames(names[..j + 1]) == InterfaceNames(names[..j]) + {names[j].Name()}
  {
    assert names[..j + 1] == names[..j] + [names[j]];
  }

  lemma NextInterface(a: Stock, b: Stock, c: Stock, names: seq<Super>, linked: seq<Super>, j: nat, node: ModelClass)
    requires j < |names| && !names[j].NoSuper? && Grown(a, b, InterfaceNames(names[..j]))
    requires Grown(b, c, {names[j].Name()})
    requires InterfacesLinked(names[..j], linked, b.classes)
    requires names[j].Name() in c.classes && c.classes[names[j].Name()] == node
    ensures Grown(a, c, InterfaceNames(names[..j + 1]))
    ensures InterfacesLinked(names[..j + 1], linked + [Resolved(node)], c.classes)
  {
    hide Grown, InterfaceNames;
    GrownTrans(a, b, c, InterfaceNames(names[..j]), {names[j].Name()});
    GrownKeeps(b, c, {names[j].Name()});
    InterfaceNamesNext(names, j);
  }

  lemma NoInterface(a: Stock, names: seq<Super>)
    ensures Grown(a, a, InterfaceNames(names[..0])) && InterfacesLinked(names[..0], [], a.classes)
  {
  }

  /** Resolves each of the names to a class of the database. */
  method ResolveInterfaces(db: AnalyzerDatabase, names: seq<Super>, ghost pending: set<string>, ghost stale: set<Sig>)
      returns (linked: seq<Super>)
    requires db.View().Consistent(pending, stale) && (forall s :: s in names ==> !s.NoSuper?)
    modifies db`classes, db`missing
    ensures db.View().Consistent(pending, stale)
    ensures Grown(old(StockOf(db)), StockOf(db), InterfaceNames(names))
    ensures fresh(db.classes.Values - old(db.classes.Values))
    ensures Widened(old(db.View()), db.View(), {})
    ensures InterfacesLinked(names, linked, db.classes)
  {
    hide Graph.Consistent, Grown, InterfacesLinked, InterfaceNames, Widened, AnalyzerDatabase.View;
    linked := [];
    ghost var g, none: set<string> := db.View(), {};
    NotWidened(g, {});
    NoInterface(StockOf(db), names);
    for j := 0 to |names|
      invariant db.View().Consistent(pending, stale)
      invariant Grown(old(StockOf(db)), StockOf(db), InterfaceNames(names[..j]))
      invariant fresh(db.classes.Values - old(db.classes.Values))
      invariant Widened(g, db.View(), {})
      invariant InterfacesLinked(names[..j], linked, db.classes)
    {
      ghost var before, h := StockOf(db), db.View();
      var c := Reference(db, names[j].Name(), pending, stale);
      NextInterface(old(StockOf(db)), before, StockOf(db), names, linked, j, c);
      WidenedTwice(g, h, db.View(), {}, {});
      assert none + none == none;
      linked := linked + [Resolved(c)];
    }
    assert names[..|names|] == names;
  }

  /** The superclass an overridden class ends with: the new one, provided it has itself a
      superclass, and one that is not named like the old superclass. A new superclass without
      superclass raises an error that is swallowed. */
  ghost function OverriddenSuper(cur: Super, fresh_: Super, node: ModelClass, up: Super): Super
    requires !fresh_.NoSuper? && cur.Resolved?
  {
    if fresh_.Name() == cur.Name() || up.NoSuper? || up.Name() == cur.Name() then cur else Resolved(node)
  }

  ghost predicate SuperOverridden(cur: Super, fresh_: Super, cls: ModelClass, classes: map<string, ModelClass>)
    reads cls`superClass, classes.Values`superClass
  {
    if cur.Resolved? && !fresh_.NoSuper? && fresh_.Name() != cur.Name() then
      var n := fresh_.Name();
      && n in classes && classes[n] != cls
      && cls.superClass == OverriddenSuper(cur, fresh_, classes[n], classes[n].superClass)
    else cls.superClass == cur
  }

  ghost function OverrideSuperNames(cur: Super, fresh_: Super): set<string> {
    if cur.Resolved? && !fresh_.NoSuper? && fresh_.Name() != cur.Name() then {fresh_.Name()} else {}
  }

  /** The names an overriding definition refers to while it is merged. */
  ghost function OverrideNames(cur: Super, curInterfaces: seq<Super>, fresh_: Super,
      freshInterfaces: seq<Super>): set<string> {
    OverrideSuperNames(cur, fresh_)
    + (if |freshInterfaces| != |curInterfaces| then InterfaceNames(freshInterfaces) else {})
  }

  method OverrideSuper(db: AnalyzerDatabase, cls: ModelClass, fresh_: Super, ghost pending: set<string>,
      ghost stale: set<Sig>)
    requires db.View().Consistent(pending, stale) && db.View().HasClass(cls)
    requires !fresh_.NoSuper? ==> db.rank(fresh_.Name()) < db.rank(cls.name)
    modifies db`classes, db`missing, cls`superClass
    ensures db.View().Consistent(pending, stale)
    ensures Grown(old(StockOf(db)), StockOf(db), old(OverrideSuperNames(cls.superClass, fresh_)))
    ensures fresh(db.classes.Values - old(db.classes.Values))
    ensures Widened(old(db.View()), db.View(), {cls.name})
    ensures SuperOverridden(old(cls.superClass), fresh_, cls, db.classes)
  {
    hide Graph.Consistent, Widened;
    ghost var g, none: set<string> := db.View(), {};
    NotWidened(g, {cls.name});
    if !fresh_.NoSuper? && cls.superClass.Resolved? && fresh_.Name() != cls.superClass.Name() {
      var n := Reference(db, fresh_.Name(), pending, stale);
      ghost var h := db.View();
      WidenedTwice(g, h, h, {}, {cls.name}) by {
        NotWidened(h, {cls.name});
      }
      assert none + {cls.name} == {cls.name};
      if n.superClass.NoSuper? {
        // comparing names fails on the absent superclass; the error is logged and dropped
      } else if n.superClass.Name() != cls.superClass.Name() {
        SetSuper(db, cls, n, pending, stale);
        WidenedTwice(g, h, db.View(), {}, {cls.name});
      }
    }
  }

  // ---------- pass 2: indexing members ----------

  /** The part of a dictionary stored under the first keys. */
  ghost function Upto<T>(t: Table<T>, i: nat): map<Key, T>
    requires t.Valid() && i <= |t.keys|
  {
    map k | k in t.keys[..i] :: t.at[k]
  }

  lemma UptoNext<T>(t: Table<T>, base: map<Key, T>, i: nat)
    requires t.Valid() && i < |t.keys|
    ensures t.keys[i] in t.at
    ensures base + Upto(t, i + 1) == (base + Upto(t, i))[t.keys[i] := t.at[t.keys[i]]]
  {
    hide Upto;
    UptoGrows(t, i);
    PutOver(base, Upto(t, i), t.keys[i], t.at[t.keys[i]]);
  }

  lemma UptoGrows<T>(t: Table<T>, i: nat)
    requires t.Valid() && i < |t.keys|
    ensures t.keys[i] in t.at && Upto(t, i + 1) == Upto(t, i)[t.keys[i] := t.at[t.keys[i]]]
  {
    assert t.keys[i] in t.keys;
    assert t.keys[..i + 1] == t.keys[..i] + [t.keys[i]];
  }

  lemma PutOver<T>(base: map<Key, T>, m: map<Key, T>, k: Key, v: T)
    ensures base + m[k := v] == (base + m)[k := v]
  {
  }

  lemma UptoAll<T>(t: Table<T>)
    requires t.Valid()
    ensures Upto(t, |t.keys|) == t.at
  {
    assert t.keys[..|t.keys|] == t.keys;
  }

  /** The table with `v` under `k`: a new key goes to the end. */
  ghost predicate PutIn<T>(t: Table<T>, k: Key, v: T, u: Table<T>) {
    u.at == t.at[k := v] && u.keys == if k in t.at then t.keys else t.keys + [k]
  }

  ghost function NewKeys(known: set<Key>, keys: seq<Key>): seq<Key> {
    if keys == [] then []
    else
      var n := |keys| - 1;
      NewKeys(known, keys[..n]) + if keys[n] in known then [] else [keys[n]]
  }

  /** The table `t` with all that `u` holds: its own keys in front, then the new ones, in order. */
  ghost predicate Overlaid<T>(t: Table<T>, u: Table<T>, w: Table<T>) {
    w.at == t.at + u.at && w.keys == t.keys + NewKeys(t.at.Keys, u.keys)
  }

  /** The same for the first `i` keys. */
  ghost predicate OverlaidUpto<T>(t: Table<T>, u: Table<T>, i: nat, w: Table<T>)
    requires u.Valid() && i <= |u.keys|
  {
    w.at == t.at + Upto(u, i) && w.keys == t.keys + NewKeys(t.at.Keys, u.keys[..i])
  }

  lemma OverlayNone<T>(t: Table<T>, u: Table<T>)
    requires u.Valid()
    ensures OverlaidUpto(t, u, 0, t)
  {
    NoneUpto(u, t.at);
  }

  lemma OverlayNext<T>(t: Table<T>, u: Table<T>, i: nat, w: Table<T>, x: Table<T>)
    requires u.Valid() && i < |u.keys| && OverlaidUpto(t, u, i, w)
    requires u.keys[i] in u.at && PutIn(w, u.keys[i], u.at[u.keys[i]], x)
    ensures OverlaidUpto(t, u, i + 1, x)
  {
    hide Upto, Table.Valid;
    UptoNext(u, t.at, i);
    NewKeyNext(t, u, i);
  }

  lemma NewKeyNext<T>(t: Table<T>, u: Table<T>, i: nat)
    requires u.Valid() && i < |u.keys|
    ensures u.keys[i] in t.at + Upto(u, i) <==> u.keys[i] in t.at
    ensures NewKeys(t.at.Keys, u.keys[..i + 1]) ==
      NewKeys(t.at.Keys, u.keys[..i]) + if u.keys[i] in t.at then [] else [u.keys[i]]
  {
    assert u.keys[..i + 1][..i] == u.keys[..i];
  }

  lemma OverlayAll<T>(t: Table<T>, u: Table<T>, w: Table<T>)
    requires u.Valid() && OverlaidUpto(t, u, |u.keys|, w)
    ensures Overlaid(t, u, w)
  {
    UptoAll(u);
    assert u.keys[..|u.keys|] == u.keys;
  }

  method IndexFields(db: AnalyzerDatabase, cls: ModelClass, ghost pending: set<string>, ghost stale: set<Sig>)
    requires db.View().Consistent(pending, stale) && db.View().HasClass(cls) && cls.fields.Valid()
    modifies db`fields
    ensures db.View().Consistent(pending, stale)
    ensures db.fields == old(db.fields) + cls.fields.at
  {
    hide Graph.Consistent, Upto;
    ghost var base, t := db.fields, cls.fields;
    NoneUpto(t, base);
    for i := 0 to |cls.fields.keys|
      invariant db.View().Consistent(pending, stale)
      invariant db.fields == base + Upto(t, i)
    {
      UptoNext(t, base, i);
      ghost var g := db.View();
      var k := cls.fields.keys[i];
      IndexFieldKeeps(g, cls.name, k, pending, stale);
      db.fields := db.fields[k := cls.fields.at[k]];
      assert db.View() == WithFieldEntry(g, k, t.at[k]);
    }
    UptoAll(t);
  }

  lemma NoneUpto<T>(t: Table<T>, base: map<Key, T>)
    requires t.Valid()
    ensures base + Upto(t, 0) == base
  {
  }

  method IndexMethods(db: AnalyzerDatabase, cls: ModelClass, ghost pending: set<string>, ghost stale: set<Sig>)
    requires db.View().Consistent(pending, stale) && db.View().HasClass(cls) && cls.methods.Valid()
    requires forall k :: k in cls.methods.at ==> k.Signature?
    modifies db`methods, cls.methods.at.Values`enclosing
    ensures db.View().Consistent(pending, stale)
    ensures db.methods == old(db.methods) + cls.methods.at
    ensures forall k :: k in cls.methods.at ==> cls.methods.at[k].enclosing == cls
  {
    hide Graph.Consistent, Upto, AnalyzerDatabase.View, Graph.HasClass;
    ghost var base, t := db.methods, cls.methods;
    NoneUpto(t, base);
    for i := 0 to |cls.methods.keys|
      invariant db.View().Consistent(pending, stale) && db.View().HasClass(cls)
      invariant db.methods == base + Upto(t, i)
      invariant forall j :: 0 <= j < i ==> t.keys[j] in t.at && t.at[t.keys[j]].enclosing == cls
    {
      UptoNext(t, base, i);
      IndexMethod(db, cls, cls.methods.keys[i], pending, stale);
    }
    UptoAll(t);
  }

  method IndexMethod(db: AnalyzerDatabase, cls: ModelClass, k: Key, ghost pending: set<string>, ghost stale: set<Sig>)
    requires db.View().Consistent(pending, stale) && db.View().HasClass(cls)
    requires k in cls.methods.at && k.Signature?
    modifies db`methods, cls.methods.at.Values`enclosing
    ensures db.View().Consistent(pending, stale) && db.View().HasClass(cls)
    ensures db.methods == old(db.methods)[k := cls.methods.at[k]] && cls.methods.at[k].enclosing == cls
    ensures forall m :: m in cls.methods.at.Values && old(m.enclosing) == cls ==> m.enclosing == cls
  {
    hide Graph.Consistent;
    ghost var g := db.View();
    IndexMethodKeeps(g, cls.name, k, pending, stale);
    cls.methods.at[k].enclosing := cls;
    db.methods := db.methods[k := cls.methods.at[k]];
    assert db.View() == WithMethodEntry(g, k, cls.methods.at[k]);
  }

  lemma Tables(g: Graph, n: string)
    requires g.Shaped() && n in g.classes
    ensures g.classes[n].fields.Valid() && g.classes[n].methods.Valid()
  {
    assert g.ClassShape(n);
  }

  method StoreField(db: AnalyzerDatabase, cls: ModelClass, o: ModelField)
    requires forall n :: n in db.classes ==> db.classes[n].name == n
    requires cls.name in db.classes && db.classes[cls.name] == cls && cls.fields.Valid()
    modifies db`fields, cls`fields
    ensures cls.fields == old(cls.fields).Put(Signature(o.sig), o)
    ensures db.fields == old(db.fields)[Signature(o.sig) := o]
    ensures db.View() == old(db.View()).WithClass(cls, old(cls.View()).(fields := cls.fields)).(fields := db.fields)
  {
    ghost var g := db.View();
    cls.fields := cls.fields.Put(Signature(o.sig), o);
    db.fields := db.fields[Signature(o.sig) := o];
    assert db.View().classes == g.classes[cls.name := cls.View()];
  }

  /** A class of the database, its tables, and what the test for an existing member finds there. */
  lemma NodeParts(db: AnalyzerDatabase, cls: ModelClass, pending: set<string>, stale: set<Sig>)
    requires db.View().Consistent(pending, stale) && db.View().HasClass(cls)
    ensures cls.name in db.classes && db.classes[cls.name] == cls && cls.methods.Valid() && cls.fields.Valid()
    ensures forall n :: n in db.classes ==> db.classes[n].name == n
    ensures db.View().Shaped() && db.View().classes[cls.name] == cls.View()
  {
    hide Graph.ClassShape;
    Tables(db.View(), cls.name);
    NodesNamed(db.View());
    assert forall n :: n in db.classes ==> db.View().classes[n].node == db.classes[n];
  }

  /** The field is always stored, never compared with the old one: the test for an existing field looks
      up the node itself. */
  method OverrideField(db: AnalyzerDatabase, cls: ModelClass, o: ModelField, ghost pending: set<string>,
      ghost stale: set<Sig>)
    requires db.View().Consistent(pending, stale) && db.View().HasClass(cls) && o.sig.fqcn == cls.name
    modifies db`fields, cls`fields
    ensures db.View().Consistent(pending, stale)
    ensures db.fields == old(db.fields)[Signature(o.sig) := o]
    ensures PutIn(old(cls.fields), Signature(o.sig), o, cls.fields)
  {
    hide Graph.Consistent, Graph.Shaped, Table.Valid;
    ghost var g := db.View();
    NodeParts(db, cls, pending, stale);
    if ObjectText in cls.fields.at {
      var identical: bool := *;
      var failed := cls.UpdateField(o, identical);
      NodeIsNoKey(g, cls.name);
      assert false;
    } else {
      OverrideFieldKeeps(g, cls, o, pending, stale);
      StoreField(db, cls, o);
    }
  }

  /** A field that is found nowhere is created in its class, indexed, and listed as missing. */
  method CreateMissingField(db: AnalyzerDatabase, ref: Sig, cls: ModelClass, ghost pending: set<string>,
      ghost stale: set<Sig>)
      returns (f: ModelField)
    requires db.View().Consistent(pending, stale) && db.View().HasClass(cls) && ref.fqcn == cls.name
    modifies db`fields, db`missing, cls`fields
    ensures db.View().Consistent(pending, stale) && db.View().HasField(f)
    ensures fresh(f) && f.sig == ref && db.missing == old(db.missing) + [MissingField(f)]
    ensures db.fields == old(db.fields)[Signature(ref) := f]
    ensures PutIn(old(cls.fields), Signature(ref), f, cls.fields)
  {
    hide Graph.Consistent;
    f := NewField(db, ref);
    OverrideField(db, cls, f, pending, stale);
    ListMissing(db, MissingField(f));
  }

  method NewField(db: AnalyzerDatabase, ref: Sig) returns (f: ModelField)
    ensures fresh(f) && f.sig == ref && db.View() == old(db.View())
  {
    f := new ModelField(ref);
  }

  method ListMissing(db: AnalyzerDatabase, m: MissingNode)
    modifies db`missing
    ensures db.missing == old(db.missing) + [m] && db.View() == old(db.View())
  {
    db.missing := db.missing + [m];
  }

  method Enclose(db: AnalyzerDatabase, o: ModelMethod, cls: ModelClass)
    modifies o`enclosing
    ensures o.enclosing == cls && db.View() == old(db.View())
  {
    o.enclosing := cls;
  }

  method StoreMethod(db: AnalyzerDatabase, cls: ModelClass, o: ModelMethod)
    requires forall n :: n in db.classes ==> db.classes[n].name == n
    requires cls.name in db.classes && db.classes[cls.name] == cls && cls.methods.Valid()
    modifies db`methods, cls`methods
    ensures cls.methods == old(cls.methods).Put(Signature(o.sig), o)
    ensures db.methods == old(db.methods)[Signature(o.sig) := o]
    ensures db.View() == old(db.View()).WithClass(cls, old(cls.View()).(methods := cls.methods)).(methods := db.methods)
  {
    ghost var g := db.View();
    cls.methods := cls.methods.Put(Signature(o.sig), o);
    db.methods := db.methods[Signature(o.sig) := o];
    assert db.View().classes == g.classes[cls.name := cls.View()];
  }

  /** So is a method. */
  method OverrideMethod(db: AnalyzerDatabase, cls: ModelClass, o: ModelMethod, ghost pending: set<string>,
      ghost stale: set<Sig>)
    requires db.View().Consistent(pending, stale) && db.View().HasClass(cls) && o.sig.fqcn == cls.name && o.sig in stale
    modifies db`methods, cls`methods
    ensures db.View().Consistent(pending, stale)
    ensures db.methods == old(db.methods)[Signature(o.sig) := o]
    ensures PutIn(old(cls.methods), Signature(o.sig), o, cls.methods)
  {
    hide Graph.Consistent, Graph.Shaped, Table.Valid;
    ghost var g := db.View();
    NodeParts(db, cls, pending, stale);
    if ObjectText in cls.methods.at {
      var identical: bool := *;
      var failed := cls.UpdateMethod(o, identical);
      NodeIsNoKey(g, cls.name);
      assert false;
    } else {
      OverrideMethodKeeps(g, cls, o, pending, stale);
      StoreMethod(db, cls, o);
    }
  }

  lemma ParsedMember(c: ClassView, rank: string -> nat)
    requires Parsed(c, rank)
    ensures c.methods.Valid() && c.fields.Valid()
    ensures forall k :: k in c.methods.at ==>
      k == Signature(c.methods.at[k].sig) && c.methods.at[k].sig.fqcn == c.node.name
    ensures forall k :: k in c.fields.at ==>
      k == Signature(c.fields.at[k].sig) && c.fields.at[k].sig.fqcn == c.node.name
  {
  }

  /** The fields of a new definition `v` of a known class replace and extend its fields. */
  method OverrideFields(db: AnalyzerDatabase, cls: ModelClass, v: ModelClass, ghost pending: set<string>,
      ghost stale: set<Sig>)
    requires db.View().Consistent(pending, stale) && db.View().HasClass(cls)
    requires v != cls && v.name == cls.name && Parsed(v.View(), db.rank)
    modifies db`fields, cls`fields
    ensures db.View().Consistent(pending, stale)
    ensures db.fields == old(db.fields) + v.fields.at && Overlaid(old(cls.fields), v.fields, cls.fields)
  {
    hide Graph.Consistent, Upto, Parsed, OverlaidUpto, PutIn, Overlaid;
    ghost var base, own, t := db.fields, cls.fields, v.fields;
    ParsedMember(v.View(), db.rank);
    NoneUpto(t, base);
    OverlayNone(own, t);
    for i := 0 to |v.fields.keys|
      invariant db.View().Consistent(pending, stale)
      invariant db.fields == base + Upto(t, i) && OverlaidUpto(own, t, i, cls.fields)
    {
      UptoNext(t, base, i);
      ghost var w := cls.fields;
      OverrideField(db, cls, v.fields.at[v.fields.keys[i]], pending, stale);
      OverlayNext(own, t, i, w, cls.fields);
    }
    UptoAll(t);
    OverlayAll(own, t, cls.fields);
  }

  /** The methods of a new definition replace and extend those of the class. */
  method OverrideMethods(db: AnalyzerDatabase, cls: ModelClass, v: ModelClass, ghost pending: set<string>,
      ghost stale: set<Sig>)
    requires db.View().Consistent(pending, stale) && db.View().HasClass(cls)
    requires v != cls && v.name == cls.name && Parsed(v.View(), db.rank)
    requires forall k :: k in v.methods.at ==> v.methods.at[k].sig in stale
    modifies db`methods, cls`methods, v.methods.at.Values`enclosing
    ensures db.View().Consistent(pending, stale)
    ensures db.methods == old(db.methods) + v.methods.at && Overlaid(old(cls.methods), v.methods, cls.methods)
    ensures forall k :: k in v.methods.at ==> v.methods.at[k].enclosing == cls
  {
    hide Graph.Consistent, Upto, Parsed, AnalyzerDatabase.View, Table.Valid, OverlaidUpto, PutIn, Overlaid;
    ghost var base, own, t := db.methods, cls.methods, v.methods;
    ParsedMember(v.View(), db.rank);
    NoneUpto(t, base);
    OverlayNone(own, t);
    for i := 0 to |v.methods.keys|
      invariant db.View().Consistent(pending, stale) && db.View().HasClass(cls)
      invariant db.methods == base + Upto(t, i) && OverlaidUpto(own, t, i, cls.methods)
      invariant forall j :: 0 <= j < i ==> t.keys[j] in t.at && t.at[t.keys[j]].enclosing == cls
    {
      UptoNext(t, base, i);
      ghost var w := cls.methods;
      OverrideNext(db, cls, v.methods.at[v.methods.keys[i]], pending, stale);
      OverlayNext(own, t, i, w, cls.methods);
    }
    UptoAll(t);
    OverlayAll(own, t, cls.methods);
    AllKeys(t);
  }

  lemma AllKeys<T>(t: Table<T>)
    requires t.Valid()
    ensures forall k :: k in t.at ==> exists j :: 0 <= j < |t.keys| && t.keys[j] == k
  {
    assert forall k :: k in t.at ==> k in t.keys;
  }

  /** One turn of the loop over the methods. */
  method OverrideNext(db: AnalyzerDatabase, cls: ModelClass, o: ModelMethod, ghost pending: set<string>,
      ghost stale: set<Sig>)
    requires db.View().Consistent(pending, stale) && db.View().HasClass(cls) && o.sig.fqcn == cls.name && o.sig in stale
    modifies db`methods, cls`methods, o`enclosing
    ensures db.View().Consistent(pending, stale) && db.View().HasClass(cls) && o.enclosing == cls
    ensures db.methods == old(db.methods)[Signature(o.sig) := o]
    ensures PutIn(old(cls.methods), Signature(o.sig), o, cls.methods)
  {
    hide Graph.Consistent;
    Enclose(db, o, cls);
    OverrideMethod(db, cls, o, pending, stale);
  }

  // ---------- pass 2: one class ----------

  lemma Completed(g: Graph, n: string, pending: set<string>, stale: set<Sig>)
    requires g.Consistent(pending, stale) && n in g.classes
    requires forall k :: k in g.classes[n].methods.at ==>
      k.Signature? && k in g.methods && g.methods[k] == g.classes[n].methods.at[k]
    requires forall k :: k in g.classes[n].fields.at ==> k in g.fields && g.fields[k] == g.classes[n].fields.at[k]
    ensures g.Consistent(pending - {n}, stale)
  {
    assert g.ClassShape(n);
    assert g.MembersIndexed(n, stale);
  }

  /** What a class refers to when it is seen for the first time. */
  ghost function NewNames(s: Super, interfaces: seq<Super>): set<string> {
    SuperNames(s) + InterfaceNames(interfaces)
  }

  /** Points the class at interface nodes, and keeps the indexes. */
  method SetInterfaces(db: AnalyzerDatabase, cls: ModelClass, linked: seq<Super>, ghost pending: set<string>,
      ghost stale: set<Sig>)
    requires db.View().Consistent(pending, stale) && db.View().HasClass(cls)
    modifies cls`interfaces
    ensures cls.interfaces == linked && db.View().Consistent(pending, stale) && db.View().HasClass(cls)
    ensures Widened(old(db.View()), db.View(), {cls.name})
  {
    hide Graph.Consistent, Graph.Shaped, Graph.ClassShape, Widened;
    ghost var g := db.View();
    ShapedOf(g, pending, stale);
    NodesNamed(g);
    SuperOf(g, cls);
    SameMembers(g, cls, cls.View().(interfaces := linked), pending, stale);
    Relinked(g, cls, cls.View().(interfaces := linked));
    cls.interfaces := linked;
    assert db.View().classes == g.WithClass(cls, cls.View()).classes;
  }

  lemma SuperOf(g: Graph, c: ModelClass)
    requires g.Shaped() && g.HasClass(c)
    ensures var s := g.classes[c.name].superClass;
      s.Resolved? ==> g.HasClass(s.cls) && g.rank(s.cls.name) < g.rank(c.name)
  {
    assert g.ClassShape(c.name);
  }

  lemma ParsedSuper(c: ClassView, rank: string -> nat)
    requires Parsed(c, rank)
    ensures !c.superClass.Resolved? && (c.superClass.Unresolved? ==> rank(c.superClass.fqcn) < rank(c.node.name))
    ensures !c.superClass.NoSuper? ==> rank(c.superClass.Name()) < rank(c.node.name)
  {
  }

  lemma SuperStaysLinked(s: Super, linked: Super, a: Stock, b: Stock, names: set<string>)
    requires SuperLinked(s, linked, a.classes) && Grown(a, b, names)
    ensures SuperLinked(s, linked, b.classes)
  {
    hide Grown;
    GrownKeeps(a, b, names);
  }

  /** A class seen for the first time: superclass and interfaces become nodes. */
  method LinkNew(db: AnalyzerDatabase, cls: ModelClass, ghost pending: set<string>, ghost stale: set<Sig>)
    requires db.View().Consistent(pending, stale) && db.View().HasClass(cls) && Parsed(cls.View(), db.rank)
    requires forall s :: s in cls.interfaces ==> !s.NoSuper?
    modifies db`classes, db`missing, cls`superClass, cls`interfaces
    ensures db.View().Consistent(pending, stale) && db.View().HasClass(cls)
    ensures Grown(old(StockOf(db)), StockOf(db), old(NewNames(cls.superClass, cls.interfaces)))
    ensures fresh(db.classes.Values - old(db.classes.Values))
    ensures Widened(old(db.View()), db.View(), {cls.name})
    ensures SuperLinked(old(cls.superClass), cls.superClass, db.classes)
    ensures InterfacesLinked(old(cls.interfaces), cls.interfaces, db.classes)
  {
    hide Graph.Consistent, Grown, Parsed, InterfacesLinked, SuperLinked, Widened;
    ParsedSuper(cls.View(), db.rank);
    ghost var s0, i0, stock := cls.superClass, cls.interfaces, StockOf(db);
    ghost var g := db.View();
    LinkSuper(db, cls, pending, stale);
    ghost var linked, h := StockOf(db), db.View();
    GrownKeeps(stock, linked, SuperNames(s0));
    var interfaces := ResolveInterfaces(db, cls.interfaces, pending, stale);
    GrownKeeps(linked, StockOf(db), InterfaceNames(i0));
    SuperStaysLinked(s0, cls.superClass, linked, StockOf(db), InterfaceNames(i0));
    GrownTrans(stock, linked, StockOf(db), SuperNames(s0), InterfaceNames(i0));
    ghost var k := db.View();
    SetInterfaces(db, cls, interfaces, pending, stale);
    WidenedLinks(g, h, k, db.View(), cls.name);
  }

  /** Superclass, interface names and interfaces, one after the other. */
  lemma WidenedLinks(g: Graph, h: Graph, k: Graph, l: Graph, n: string)
    requires n in g.classes && Widened(g, h, {n}) && Widened(h, k, {}) && Widened(k, l, {n})
    ensures Widened(g, l, {n})
  {
    hide Widened;
    WidenedTwice(g, h, k, {n}, {});
    WidenedTwice(g, k, l, {n} + {}, {n});
    assert {n} + {} + {n} == {n};
  }

  ghost function ClassViews(classes: map<string, ModelClass>): map<string, ClassView>
    reads classes.Values`superClass, classes.Values`interfaces
    reads classes.Values`methods, classes.Values`inherit, classes.Values`fields
  {
    map n | n in classes :: classes[n].View()
  }

  lemma ViewMade(db: AnalyzerDatabase)
    ensures db.View() == Graph(ClassViews(db.classes), db.methods, db.fields, db.rank)
  {
  }

  method IndexMembers(db: AnalyzerDatabase, cls: ModelClass, ghost pending: set<string>, ghost stale: set<Sig>)
    requires db.View().Consistent(pending, stale) && db.View().HasClass(cls)
    requires cls.methods.Valid() && cls.fields.Valid() && forall k :: k in cls.methods.at ==> k.Signature?
    modifies db`methods, db`fields, cls.methods.at.Values`enclosing
    ensures db.View().Consistent(pending - {cls.name}, stale)
    ensures db.methods == old(db.methods) + cls.methods.at && db.fields == old(db.fields) + cls.fields.at
    ensures forall k :: k in cls.methods.at ==> cls.methods.at[k].enclosing == cls
    ensures db.View() == old(db.View()).(methods := db.methods, fields := db.fields)
  {
    hide *;
    ViewMade(db);
    ClassOf(db, cls);
    ViewOf(cls);
    IndexFields(db, cls, pending, stale);
    ViewMade(db);
    ClassIn(db, cls);
    IndexMethods(db, cls, pending, stale);
    ViewMade(db);
    ClassIn(db, cls);
    ViewOf(cls);
    Completed(db.View(), cls.name, pending, stale);
  }

  // ---------- what the merge of one class does ----------

  ghost predicate LinkedTo(s: Super, t: Super, h: Graph) {
    if s.NoSuper? then t.NoSuper? else s.Name() in h.classes && t == Resolved(h.classes[s.Name()].node)
  }

  ghost predicate AllLinked(names: seq<Super>, linked: seq<Super>, h: Graph) {
    |linked| == |names| && forall j :: 0 <= j < |names| ==> LinkedTo(names[j], linked[j], h)
  }

  /** A class that is new: superclass and interfaces are the classes of those names, and the members
      are as the parser left them. */
  ghost predicate Adds(v: ClassView, h: Graph)
    requires v.node.name in h.classes
  {
    var c := h.classes[v.node.name];
    && c == v.(superClass := c.superClass, interfaces := c.interfaces)
    && LinkedTo(v.superClass, c.superClass, h) && AllLinked(v.interfaces, c.interfaces, h)
  }

  /** Another version of a known class. Its members go over the old ones. The interfaces are replaced if
      their number differs. The superclass is replaced if the new one has another name, provided that it
      has itself a superclass, which is not named like the old one; without one, an error is swallowed. */
  ghost predicate OverridesBy(old_: ClassView, v: ClassView, h: Graph)
    requires v.node.name in h.classes
  {
    var c := h.classes[v.node.name];
    && c.node == old_.node && c.inherit == old_.inherit
    && Overlaid(old_.methods, v.methods, c.methods) && Overlaid(old_.fields, v.fields, c.fields)
    && LinksBy(old_, v, c, h)
  }

  ghost predicate LinksBy(old_: ClassView, v: ClassView, c: ClassView, h: Graph) {
    && (if |v.interfaces| == |old_.interfaces| then c.interfaces == old_.interfaces
        else AllLinked(v.interfaces, c.interfaces, h))
    && SuperBy(old_.superClass, v.superClass, c.superClass, h)
  }

  ghost predicate SuperBy(cur: Super, s: Super, t: Super, h: Graph) {
    if cur.Resolved? && !s.NoSuper? && s.Name() != cur.Name() then
      && s.Name() in h.classes
      && var up := h.classes[s.Name()].superClass;
         t == if up.NoSuper? || up.Name() == cur.Name() then cur else Resolved(h.classes[s.Name()].node)
    else t == cur
  }

  ghost predicate Merges(g: Graph, v: ClassView, h: Graph) {
    var n := v.node.name;
    && h.methods == g.methods + v.methods.at && h.fields == g.fields + v.fields.at && h.rank == g.rank
    && n in g.classes && n in h.classes
    && (forall d :: d in g.classes && d != n ==> d in h.classes && h.classes[d] == g.classes[d])
    && (forall d :: d in h.classes && d !in g.classes ==>
          h.classes[d] == EmptyView(h.classes[d].node) && h.classes[d].node.missing && h.classes[d].node.name == d)
    && if g.classes[n].node == v.node then Adds(v, h) else OverridesBy(g.classes[n], v, h)
  }

  /** Each class whose name is new has been added, as `Adds` says. */
  ghost predicate NewAdded(views: seq<ClassView>, known: set<string>, h: Graph) {
    forall i :: 0 <= i < |views| && views[i].node.name !in known ==>
      views[i].node.name in h.classes && Adds(views[i], h)
  }

  lemma SuperIsLinked(db: AnalyzerDatabase, s: Super, t: Super)
    requires SuperLinked(s, t, db.classes) && !s.Resolved?
    ensures LinkedTo(s, t, db.View())
  {
  }

  lemma InterfacesAreLinked(db: AnalyzerDatabase, names: seq<Super>, linked: seq<Super>)
    requires InterfacesLinked(names, linked, db.classes) && forall s :: s in names ==> !s.NoSuper?
    ensures AllLinked(names, linked, db.View())
  {
    assert forall j :: 0 <= j < |names| ==> names[j] in names;
  }

  lemma NewMerges(g: Graph, v: ClassView, k: Graph, h: Graph)
    requires Widened(g, k, {v.node.name}) && v.node.name in g.classes && g.classes[v.node.name] == v
    requires h == k.(methods := g.methods + v.methods.at, fields := g.fields + v.fields.at)
    requires LinkedTo(v.superClass, k.classes[v.node.name].superClass, k)
    requires AllLinked(v.interfaces, k.classes[v.node.name].interfaces, k)
    ensures Merges(g, v, h)
  {
    assert SameBut(v, k.classes[v.node.name], true);
    assert forall d :: d in g.classes && d != v.node.name ==> SameBut(g.classes[d], k.classes[d], false);
  }

  method AssembleNew(db: AnalyzerDatabase, cls: ModelClass, ghost pending: set<string>, ghost stale: set<Sig>)
    requires db.View().Consistent(pending, stale) && db.View().HasClass(cls) && Parsed(cls.View(), db.rank)
    requires forall s :: s in cls.interfaces ==> !s.NoSuper?
    modifies db`classes, db`missing, db`methods, db`fields
    modifies cls`superClass, cls`interfaces, cls.methods.at.Values`enclosing
    ensures db.View().Consistent(pending - {cls.name}, stale)
    ensures Grown(old(StockOf(db)), StockOf(db), old(NewNames(cls.superClass, cls.interfaces)))
    ensures fresh(db.classes.Values - old(db.classes.Values))
    ensures SuperLinked(old(cls.superClass), cls.superClass, db.classes)
    ensures InterfacesLinked(old(cls.interfaces), cls.interfaces, db.classes)
    ensures db.methods == old(db.methods) + cls.methods.at && db.fields == old(db.fields) + cls.fields.at
    ensures forall k :: k in cls.methods.at ==> cls.methods.at[k].enclosing == cls
    ensures Merges(old(db.View()), old(cls.View()), db.View())
  {
    hide *;
    ghost var g, v := db.View(), cls.View();
    StockParts(db);
    ViewMade(db);
    ClassOf(db, cls);
    ViewOf(cls);
    ParsedMember(v, db.rank);
    ParsedSuper(v, db.rank);
    LinkNew(db, cls, pending, stale);
    StockParts(db);
    ViewMade(db);
    ClassOf(db, cls);
    ViewOf(cls);
    SuperIsLinked(db, v.superClass, cls.superClass);
    InterfacesAreLinked(db, v.interfaces, cls.interfaces);
    ghost var k := db.View();
    IndexMembers(db, cls, pending, stale);
    StockParts(db);
    WidenedMembers(g, k, cls.name);
    NewMerges(g, v, k, db.View());
  }

  lemma ClassOf(db: AnalyzerDatabase, cls: ModelClass)
    requires db.View().HasClass(cls)
    ensures cls.name in db.classes && db.classes[cls.name] == cls
    ensures cls.name in db.View().classes && db.View().classes[cls.name] == cls.View()
  {
  }

  /** The interfaces of another version replace the old ones if their number differs. */
  method OverrideInterfaces(db: AnalyzerDatabase, cls: ModelClass, names: seq<Super>, ghost pending: set<string>,
      ghost stale: set<Sig>)
    requires db.View().Consistent(pending, stale) && db.View().HasClass(cls) && forall s :: s in names ==> !s.NoSuper?
    modifies db`classes, db`missing, cls`interfaces
    ensures db.View().Consistent(pending, stale) && db.View().HasClass(cls)
    ensures Grown(old(StockOf(db)), StockOf(db), if |names| != |old(cls.interfaces)| then InterfaceNames(names) else {})
    ensures fresh(db.classes.Values - old(db.classes.Values))
    ensures Widened(old(db.View()), db.View(), {cls.name})
    ensures |names| == |old(cls.interfaces)| ==> cls.interfaces == old(cls.interfaces)
    ensures |names| != |old(cls.interfaces)| ==> InterfacesLinked(names, cls.interfaces, db.classes)
  {
    hide Graph.Consistent, Grown, InterfacesLinked, Widened, InterfaceNames, AnalyzerDatabase.View;
    ghost var stock, g := StockOf(db), db.View();
    ClassOf(db, cls);
    if |names| != |cls.interfaces| {
      var interfaces := ResolveInterfaces(db, names, pending, stale);
      GrownKeeps(stock, StockOf(db), InterfaceNames(names));
      ViewParts(db);
      ClassOf(db, cls);
      ghost var k := db.View();
      SetInterfaces(db, cls, interfaces, pending, stale);
      NotWidened(g, {cls.name});
      WidenedLinks(g, g, k, db.View(), cls.name);
    } else {
      NotWidened(g, {cls.name});
      GrownNone(stock);
    }
  }


  lemma SuperStays(cur: Super, s: Super, up: Super, g: Graph, h: Graph, n: string)
    requires SuperBy(cur, s, up, g) && Widened(g, h, {n}) && g.Shaped()
    requires !s.NoSuper? ==> g.rank(s.Name()) < g.rank(n)
    ensures SuperBy(cur, s, up, h)
  {
  }

  lemma SumOfNames(cur: Super, curInterfaces: seq<Super>, fresh_: Super, freshInterfaces: seq<Super>)
    ensures OverrideNames(cur, curInterfaces, fresh_, freshInterfaces) == OverrideSuperNames(cur, fresh_)
      + (if |freshInterfaces| != |curInterfaces| then InterfaceNames(freshInterfaces) else {})
  {
  }

  lemma GrownStock(db: AnalyzerDatabase, before: Stock, names: set<string>)
    requires Grown(before, StockOf(db), names)
    ensures forall n :: n in before.classes ==> n in db.classes && db.classes[n] == before.classes[n]
  {
  }

  lemma TwiceBeyond<T>(last: set<T>, between: set<T>, first: set<T>)
    ensures last - first <= (last - between) + (between - first)
  {
  }


  method LinkOverridden(db: AnalyzerDatabase, cls: ModelClass, v: ModelClass, ghost pending: set<string>,
      ghost stale: set<Sig>)
    requires db.View().Consistent(pending, stale) && db.View().HasClass(cls)
    requires v != cls && v.name == cls.name && Parsed(v.View(), db.rank)
    requires forall s :: s in v.interfaces ==> !s.NoSuper?
    modifies db`classes, db`missing, cls`superClass, cls`interfaces
    ensures db.View().Consistent(pending, stale) && db.View().HasClass(cls)
    ensures Grown(old(StockOf(db)), StockOf(db),
      old(OverrideNames(cls.superClass, cls.interfaces, v.superClass, v.interfaces)))
    ensures fresh(db.classes.Values - old(db.classes.Values))
    ensures Widened(old(db.View()), db.View(), {cls.name})
    ensures SuperBy(old(cls.superClass), v.superClass, cls.superClass, db.View())
    ensures |v.interfaces| == |old(cls.interfaces)| ==> cls.interfaces == old(cls.interfaces)
    ensures |v.interfaces| != |old(cls.interfaces)| ==> InterfacesLinked(v.interfaces, cls.interfaces, db.classes)
  {
    hide *;
    ghost var s0, stock, g, first := cls.superClass, StockOf(db), db.View(), db.classes.Values;
    ghost var up := OverrideSuperNames(s0, v.superClass);
    ghost var names := if |v.interfaces| != |cls.interfaces| then InterfaceNames(v.interfaces) else {};
    SumOfNames(s0, cls.interfaces, v.superClass, v.interfaces);
    StockParts(db);
    ViewParts(db);
    ClassOf(db, cls);
    ParsedSuper(v.View(), db.rank);
    ViewOf(v);
    OverrideSuper(db, cls, v.superClass, pending, stale);
    ViewParts(db);
    ghost var linked, h, known := StockOf(db), db.View(), db.classes.Values;
    GrownStock(db, stock, up);
    ClassIn(db, cls);
    ShapedOf(h, pending, stale);
    SuperIsOverridden(db, s0, v.superClass, cls);
    OverrideInterfaces(db, cls, v.interfaces, pending, stale);
    TwiceBeyond(db.classes.Values, known, first);
    GrownTrans(stock, linked, StockOf(db), up, names);
    SuperStays(s0, v.superClass, cls.superClass, h, db.View(), cls.name);
    NotWidened(h, {});
    WidenedLinks(g, h, h, db.View(), cls.name);
  }

  /** Nothing but the members of one class has changed. */
  ghost predicate OnlyMembers(g: Graph, h: Graph, n: string) {
    && h.classes.Keys == g.classes.Keys && h.rank == g.rank && n in g.classes
    && (forall d :: d in g.classes && d != n ==> h.classes[d] == g.classes[d])
    && h.classes[n] == g.classes[n].(methods := h.classes[n].methods, fields := h.classes[n].fields)
  }

  method OverrideMembers(db: AnalyzerDatabase, cls: ModelClass, v: ModelClass,
      ghost pending: set<string>, ghost stale: set<Sig>)
    requires db.View().Consistent(pending, stale) && db.View().HasClass(cls)
    requires v != cls && v.name == cls.name && Parsed(v.View(), db.rank)
    requires forall k :: k in v.methods.at ==> v.methods.at[k].sig in stale
    modifies db`methods, db`fields, cls`methods, cls`fields, v.methods.at.Values`enclosing
    ensures db.View().Consistent(pending, stale) && db.View().HasClass(cls)
    ensures db.methods == old(db.methods) + v.methods.at && db.fields == old(db.fields) + v.fields.at
    ensures Overlaid(old(cls.methods), v.methods, cls.methods) && Overlaid(old(cls.fields), v.fields, cls.fields)
    ensures forall k :: k in v.methods.at ==> v.methods.at[k].enclosing == cls
    ensures OnlyMembers(old(db.View()), db.View(), cls.name)
  {
    hide *;
    ghost var g, before := db.View(), cls.View();
    NodeParts(db, cls, pending, stale);
    ViewParts(db);
    ClassOf(db, cls);
    ViewOf(cls);
    OverrideFields(db, cls, v, pending, stale);
    ClassIn(db, cls);
    OverrideMethods(db, cls, v, pending, stale);
    ViewParts(db);
    ClassIn(db, cls);
    ViewOf(cls);
    SameView(before, cls.View());
    MembersOnly(g, db.View(), cls.name);
  }

  lemma SameView(a: ClassView, b: ClassView)
    requires b.node == a.node && b.superClass == a.superClass && b.interfaces == a.interfaces && b.inherit == a.inherit
    ensures b == a.(methods := b.methods, fields := b.fields)
  {
  }

  lemma ClassIn(db: AnalyzerDatabase, cls: ModelClass)
    requires cls.name in db.classes && db.classes[cls.name] == cls
    ensures db.View().HasClass(cls) && db.View().classes[cls.name] == cls.View()
  {
  }

  lemma MembersOnly(g: Graph, h: Graph, n: string)
    requires h.classes.Keys == g.classes.Keys && h.rank == g.rank && n in g.classes
    requires forall d :: d in g.classes && d != n ==> h.classes[d] == g.classes[d]
    requires h.classes[n] == g.classes[n].(methods := h.classes[n].methods, fields := h.classes[n].fields)
    ensures OnlyMembers(g, h, n)
  {
  }

  lemma SuperIsOverridden(db: AnalyzerDatabase, cur: Super, s: Super, cls: ModelClass)
    requires SuperOverridden(cur, s, cls, db.classes) && db.View().Shaped() && !s.Resolved?
    ensures SuperBy(cur, s, cls.superClass, db.View())
  {
    NodesNamed(db.View());
  }

  lemma LinksAre(db: AnalyzerDatabase, c0: ClassView, v: ModelClass, cls: ModelClass)
    requires SuperBy(c0.superClass, v.superClass, cls.superClass, db.View())
    requires forall s :: s in v.interfaces ==> !s.NoSuper?
    requires |v.interfaces| == |c0.interfaces| ==> cls.interfaces == c0.interfaces
    requires |v.interfaces| != |c0.interfaces| ==> InterfacesLinked(v.interfaces, cls.interfaces, db.classes)
    ensures LinksBy(c0, v.View(), cls.View(), db.View())
  {
    hide SuperOverridden, InterfacesLinked, Graph.Shaped, AllLinked, SuperBy, AnalyzerDatabase.View;
    if |v.interfaces| != |c0.interfaces| {
      InterfacesAreLinked(db, v.interfaces, cls.interfaces);
    }
  }

  lemma OverrideMerges(g: Graph, v: ClassView, k: Graph, h: Graph)
    requires Widened(g, k, {v.node.name}) && v.node.name in g.classes && g.classes[v.node.name].node != v.node
    requires k.Shaped() && OnlyMembers(k, h, v.node.name)
    requires h.methods == g.methods + v.methods.at && h.fields == g.fields + v.fields.at
    requires var n := v.node.name;
      && Overlaid(g.classes[n].methods, v.methods, h.classes[n].methods)
      && Overlaid(g.classes[n].fields, v.fields, h.classes[n].fields)
      && LinksBy(g.classes[n], v, k.classes[n], k)
    ensures Merges(g, v, h)
  {
    hide Overlaid, Graph.Shaped, AllLinked, SuperBy;
    var n := v.node.name;
    assert SameBut(g.classes[n], k.classes[n], true);
    assert forall d :: d in g.classes && d != n ==> SameBut(g.classes[d], k.classes[d], false);
    LinksStay(k, h, g.classes[n].superClass, v.superClass, k.classes[n].superClass, v.interfaces,
      k.classes[n].interfaces);
  }

  /** Links only depend on nodes and superclasses. */
  lemma LinksStay(k: Graph, h: Graph, cur: Super, s: Super, t: Super, names: seq<Super>, linked: seq<Super>)
    requires h.classes.Keys == k.classes.Keys
    requires forall d :: d in k.classes ==>
      h.classes[d].node == k.classes[d].node && h.classes[d].superClass == k.classes[d].superClass
    ensures AllLinked(names, linked, k) ==> AllLinked(names, linked, h)
    ensures SuperBy(cur, s, t, k) ==> SuperBy(cur, s, t, h)
  {
    assert forall x, y :: LinkedTo(x, y, k) ==> LinkedTo(x, y, h);
  }

  lemma ViewOf(c: ModelClass)
    ensures var v := c.View();
      && v.node == c && v.superClass == c.superClass && v.interfaces == c.interfaces
      && v.methods == c.methods && v.inherit == c.inherit && v.fields == c.fields
  {
  }

  lemma WidenedMembers(g: Graph, k: Graph, n: string)
    requires Widened(g, k, {n}) && n in g.classes
    ensures n in k.classes && k.classes[n].methods == g.classes[n].methods && k.classes[n].fields == g.classes[n].fields
    ensures k.classes[n].node == g.classes[n].node && k.methods == g.methods && k.fields == g.fields
  {
    assert SameBut(g.classes[n], k.classes[n], true);
  }

  lemma StockParts(db: AnalyzerDatabase)
    ensures StockOf(db) == Stock(db.classes, db.missing)
  {
  }


  method AssembleOverridden(db: AnalyzerDatabase, cls: ModelClass, v: ModelClass, ghost pending: set<string>,
      ghost stale: set<Sig>)
    requires db.View().Consistent(pending, stale) && db.View().HasClass(cls)
    requires v != cls && v.name == cls.name && Parsed(v.View(), db.rank)
    requires forall s :: s in v.interfaces ==> !s.NoSuper?
    requires forall k :: k in v.methods.at ==> v.methods.at[k].sig in stale
    modifies db`classes, db`missing, db`methods, db`fields
    modifies cls`superClass, cls`interfaces, cls`methods, cls`fields, v.methods.at.Values`enclosing
    ensures db.View().Consistent(pending, stale)
    ensures Grown(old(StockOf(db)), StockOf(db),
      old(OverrideNames(cls.superClass, cls.interfaces, v.superClass, v.interfaces)))
    ensures fresh(db.classes.Values - old(db.classes.Values))
    ensures db.methods == old(db.methods) + v.methods.at && db.fields == old(db.fields) + v.fields.at
    ensures forall k :: k in v.methods.at ==> v.methods.at[k].enclosing == cls
    ensures Merges(old(db.View()), old(v.View()), db.View())
  {
    hide *;
    ghost var g, view, c0 := db.View(), v.View(), cls.View();
    ViewParts(db);
    ViewOf(v);
    ViewOf(cls);
    ParsedSuper(view, db.rank);
    ClassOf(db, cls);
    LinkOverridden(db, cls, v, pending, stale);
    ViewParts(db);
    ClassOf(db, cls);
    ghost var k := db.View();
    StockParts(db);
    ShapedOf(k, pending, stale);
    LinksAre(db, c0, v, cls);
    WidenedMembers(g, k, cls.name);
    ViewOf(cls);
    OverrideMembers(db, cls, v, pending, stale);
    ViewParts(db);
    ClassOf(db, cls);
    ViewOf(cls);
    StockParts(db);
    OverrideMerges(g, view, k, db.View());
  }

  // ---------- the whole merge ----------

  ghost predicate Mergeable(v: ModelClass, rank: string -> nat)
    reads v
  {
    Parsed(v.View(), rank) && forall s :: s in v.interfaces ==> !s.NoSuper?
  }

  /** The names a batch class refers to; a class the database knows is overridden. */
  ghost function RefsOf(cls: ModelClass, v: ModelClass): set<string>
    reads cls, v
  {
    if cls != v then OverrideNames(cls.superClass, cls.interfaces, v.superClass, v.interfaces)
    else NewNames(v.superClass, v.interfaces)
  }

  /** The database class each batch class is merged into: the known one, else itself. */
  ghost function Targets(db: AnalyzerDatabase, batch: seq<ModelClass>): (ts: seq<ModelClass>)
    reads db
    ensures |ts| == |batch|
    ensures forall i :: 0 <= i < |batch| ==>
      ts[i] == if batch[i].name in db.classes then db.classes[batch[i].name] else batch[i]
  {
    if batch == [] then []
    else
      var v := batch[|batch| - 1];
      Targets(db, batch[..|batch| - 1]) + [if v.name in db.classes then db.classes[v.name] else v]
  }

  /** The names each batch class refers to. */
  ghost function Refs(targets: seq<ModelClass>, batch: seq<ModelClass>): (rs: seq<set<string>>)
    requires |batch| == |targets|
    reads targets, batch
    ensures |rs| == |batch| && forall i :: 0 <= i < |batch| ==> rs[i] == RefsOf(targets[i], batch[i])
  {
    if batch == [] then []
    else Refs(targets[..|targets| - 1], batch[..|batch| - 1]) + [RefsOf(targets[|targets| - 1], batch[|batch| - 1])]
  }

  /** What the batch classes hold. */
  ghost function Views(batch: seq<ModelClass>): (vs: seq<ClassView>)
    reads batch
    ensures |vs| == |batch| && forall i :: 0 <= i < |batch| ==> vs[i] == batch[i].View()
  {
    if batch == [] then [] else Views(batch[..|batch| - 1]) + [batch[|batch| - 1].View()]
  }

  method MergeClass(db: AnalyzerDatabase, cls: ModelClass, v: ModelClass,
      ghost pending: set<string>, ghost stale: set<Sig>)
    requires db.View().Consistent(pending, stale) && db.View().HasClass(cls)
    requires cls.name == v.name && Mergeable(v, db.rank)
    requires cls != v ==> v.name !in pending && forall k :: k in v.methods.at ==> v.methods.at[k].sig in stale
    modifies db`classes, db`missing, db`methods, db`fields, v.methods.at.Values`enclosing
    modifies cls`superClass, cls`interfaces, cls`methods, cls`fields
    ensures db.View().Consistent(pending - {v.name}, stale)
    ensures Grown(old(StockOf(db)), StockOf(db), old(RefsOf(cls, v)))
    ensures fresh(db.classes.Values - old(db.classes.Values))
    ensures v.methods == old(v.methods) && v.fields == old(v.fields)
    ensures forall k :: k in v.methods.at ==> v.methods.at[k].enclosing == cls
    ensures Merges(old(db.View()), old(v.View()), db.View())
  {
    hide Graph.Consistent, Grown, Parsed, Merges, AnalyzerDatabase.View, Graph.HasClass;
    if cls != v {
      assert pending - {v.name} == pending;
      AssembleOverridden(db, cls, v, pending, stale);
    } else {
      AssembleNew(db, cls, pending, stale);
    }
  }

  /** The methods that classes override in a database of the known names: inherited slots that still
      hold the old ones are stale. */
  ghost function Stale(views: seq<ClassView>, known: set<string>): set<Sig> {
    set v, k | v in views && v.node.name in known && k in v.methods.at :: v.methods.at[k].sig
  }

  /** The database right after the batch is stored, and before anything is linked. */
  ghost predicate Stored(before: map<string, ModelClass>, after: map<string, ModelClass>, batch: seq<ModelClass>) {
    && after.Keys == before.Keys + Names(batch)
    && (forall n :: n in before ==> after[n] == before[n])
    && (forall i :: 0 <= i < |batch| && batch[i].name !in before ==> after[batch[i].name] == batch[i])
  }

  // ---------- the indexes after the merge ----------

  ghost function MethodTables(views: seq<ClassView>): (ts: seq<map<Key, ModelMethod>>)
    ensures |ts| == |views| && forall i :: 0 <= i < |views| ==> ts[i] == views[i].methods.at
  {
    seq(|views|, i requires 0 <= i < |views| => views[i].methods.at)
  }

  ghost function FieldTables(views: seq<ClassView>): (ts: seq<map<Key, ModelField>>)
    ensures |ts| == |views| && forall i :: 0 <= i < |views| ==> ts[i] == views[i].fields.at
  {
    seq(|views|, i requires 0 <= i < |views| => views[i].fields.at)
  }

  /** An index once the first `i` tables have been stored in it, in order. */
  ghost function Over<T>(base: map<Key, T>, tables: seq<map<Key, T>>, i: nat): map<Key, T>
    requires i <= |tables|
  {
    if i == 0 then base else Over(base, tables, i - 1) + tables[i - 1]
  }

  ghost predicate Apart<T>(tables: seq<map<Key, T>>) {
    forall a, b, k :: 0 <= a < b < |tables| && k in tables[a] ==> k !in tables[b]
  }

  /** Each entry is the one of the table that has the key, else the former one. */
  lemma {:induction false} OverAt<T>(base: map<Key, T>, tables: seq<map<Key, T>>, i: nat, k: Key)
    requires i <= |tables| && Apart(tables)
    ensures forall j :: 0 <= j < i && k in tables[j] ==>
      k in Over(base, tables, i) && Over(base, tables, i)[k] == tables[j][k]
    ensures (forall j :: 0 <= j < i ==> k !in tables[j]) ==>
      (k in Over(base, tables, i) <==> k in base) && (k in base ==> Over(base, tables, i)[k] == base[k])
  {
    if i > 0 {
      OverAt(base, tables, i - 1, k);
    }
  }

  ghost predicate OwnMethods(v: ClassView) {
    forall k :: k in v.methods.at ==> k == Signature(v.methods.at[k].sig) && k.sig.fqcn == v.node.name
  }

  /** Parsed classes of different names. */
  ghost predicate ParsedApart(views: seq<ClassView>, rank: string -> nat) {
    && (forall v :: v in views ==> Parsed(v, rank))
    && forall i, j :: 0 <= i < j < |views| ==> views[i].node.name != views[j].node.name
  }

  lemma TablesApart(views: seq<ClassView>, rank: string -> nat)
    requires ParsedApart(views, rank)
    ensures Apart(MethodTables(views)) && Apart(FieldTables(views))
    ensures forall j :: 0 <= j < |views| ==> OwnMethods(views[j])
  {
    assert forall j :: 0 <= j < |views| ==> views[j] in views && Parsed(views[j], rank);
    forall a, b, k | 0 <= a < b < |views| && k in views[a].methods.at
      ensures k !in views[b].methods.at
    {
      assert Parsed(views[a], rank) && Parsed(views[b], rank);
    }
    forall a, b, k | 0 <= a < b < |views| && k in views[a].fields.at
      ensures k !in views[b].fields.at
    {
      assert Parsed(views[a], rank) && Parsed(views[b], rank);
    }
  }

  /** Every member of these tables is indexed, and is the definition that counts. */
  ghost predicate MembersOf(c: ClassView, methods: map<Key, ModelMethod>, fields: map<Key, ModelField>) {
    && (forall k :: k in c.methods.at ==> k in methods && methods[k] == c.methods.at[k])
    && (forall k :: k in c.fields.at ==> k in fields && fields[k] == c.fields.at[k])
  }

  lemma AllMembersOf(views: seq<ClassView>, rank: string -> nat, methods: map<Key, ModelMethod>,
      fields: map<Key, ModelField>, j: nat)
    requires ParsedApart(views, rank) && j < |views|
    ensures MembersOf(views[j],
      Over(methods, MethodTables(views), |views|), Over(fields, FieldTables(views), |views|))
  {
    TablesApart(views, rank);
    var ms, fs, n := MethodTables(views), FieldTables(views), |views|;
    forall k | k in views[j].methods.at
      ensures k in Over(methods, ms, n) && Over(methods, ms, n)[k] == views[j].methods.at[k]
    {
      OverAt(methods, ms, n, k);
      assert k in ms[j];
    }
    forall k | k in views[j].fields.at
      ensures k in Over(fields, fs, n) && Over(fields, fs, n)[k] == views[j].fields.at[k]
    {
      OverAt(fields, fs, n, k);
      assert k in fs[j];
    }
  }

  lemma GrownNone(a: Stock)
    ensures Grown(a, a, {})
  {
  }

  lemma NamesRest(batch: seq<ModelClass>, i: nat)
    requires DistinctNames(batch) && i < |batch|
    ensures Names(batch[i..]) == Names(batch[i + 1..]) + {batch[i].name} && batch[i].name !in Names(batch[i + 1..])
  {
    assert batch[i..] == [batch[i]] + batch[i + 1..];
  }

  lemma NoNamesLeft(batch: seq<ModelClass>)
    ensures Names(batch[|batch|..]) == {}
  {
  }

  /** What is fixed when the linking of a batch begins: where each class goes, what it held, the
      names it refers to, which names are overridden, and which methods are replaced. */
  datatype Plan = Plan(batch: seq<ModelClass>, targets: seq<ModelClass>, views: seq<ClassView>,
                       refs: seq<set<string>>, overridden: set<string>, stale: set<Sig>, rank: string -> nat)
  {
    ghost predicate At(j: nat)
      requires j < |batch| == |targets| == |views|
    {
      && targets[j].name == batch[j].name && views[j].node == batch[j] && Parsed(views[j], rank)
      && (targets[j] != batch[j] <==> batch[j].name in overridden)
      && (batch[j].name in overridden ==> forall k :: k in views[j].methods.at ==> views[j].methods.at[k].sig in stale)
    }

    /** The classes go to the targets of the same name, and an overridden class replaces methods
        listed as stale. */
    ghost predicate Valid() {
      && |targets| == |views| == |refs| == |batch| && DistinctNames(batch)
      && forall j :: 0 <= j < |batch| ==> At(j)
    }

    /** The classes from `i` on are as the parser left them, and refer to what they did; the tables
        of methods are all as they were. */
    ghost predicate Rest(i: nat)
      reads batch, targets
    {
      && |batch| == |targets| == |views| == |refs|
      && (forall j :: 0 <= j < |batch| ==> batch[j].methods == views[j].methods)
      && forall j :: i <= j < |batch| ==> Left(j)
    }

    ghost predicate Left(j: nat)
      requires j < |batch| == |targets| == |views| == |refs|
      reads batch[j], targets[j]
    {
      Mergeable(batch[j], rank) && batch[j].View() == views[j] && RefsOf(targets[j], batch[j]) == refs[j]
    }
  }

  ghost predicate MayMerge(db: AnalyzerDatabase, batch: seq<ModelClass>)
    reads db, batch
  {
    && DistinctNames(batch)
    && forall v :: v in batch ==> Mergeable(v, db.rank) && (v.name in db.classes ==> db.classes[v.name] != v)
  }

  ghost function PlanOf(db: AnalyzerDatabase, batch: seq<ModelClass>, stale: set<Sig>): Plan
    reads db, batch, Targets(db, batch)
  {
    var targets := Targets(db, batch);
    Plan(batch, targets, Views(batch), Refs(targets, batch), Names(batch) * db.classes.Keys,
         stale + Stale(Views(batch), db.classes.Keys), db.rank)
  }

  lemma MakePlan(db: AnalyzerDatabase, batch: seq<ModelClass>, stale: set<Sig>)
    requires db.View().Consistent({}, stale) && MayMerge(db, batch)
    ensures PlanOf(db, batch, stale).Valid() && PlanOf(db, batch, stale).Rest(0)
    ensures ParsedApart(Views(batch), db.rank)
  {
    hide Graph.Shaped, Parsed;
    NodesNamed(db.View());
    var p := PlanOf(db, batch, stale);
    forall j | 0 <= j < |batch|
      ensures p.At(j) && Mergeable(batch[j], db.rank)
    {
      assert batch[j] in batch && Mergeable(batch[j], db.rank) && batch[j].name in Names(batch);
      assert p.views[j] in p.views;
      assert batch[j].name in db.classes ==>
        db.View().classes[batch[j].name].node == db.classes[batch[j].name];
    }
  }

  lemma PlanAt(p: Plan, i: nat)
    requires p.Valid() && i < |p.batch|
    ensures |p.targets| == |p.views| == |p.refs| == |p.batch| && DistinctNames(p.batch) && p.At(i)
    ensures forall j :: 0 <= j < |p.batch| && j != i ==>
      p.batch[j] != p.targets[i] && p.targets[j] != p.targets[i] && p.batch[j] != p.batch[i]
  {
    forall j | 0 <= j < |p.batch| && j != i
      ensures p.batch[j].name != p.batch[i].name && p.targets[j].name != p.targets[i].name
    {
      assert p.At(i) && p.At(j);
    }
  }

  lemma TargetStored(before: map<string, ModelClass>, stored: map<string, ModelClass>, batch: seq<ModelClass>,
      target: ModelClass, i: nat)
    requires Stored(before, stored, batch) && i < |batch|
    requires target == if batch[i].name in before then before[batch[i].name] else batch[i]
    ensures batch[i].name in stored && stored[batch[i].name] == target
  {
    assert batch[i].name in Names(batch);
  }

  /** Names referred to by the first classes. */
  ghost function Union(refs: seq<set<string>>, i: nat): set<string>
    requires i <= |refs|
  {
    if i == 0 then {} else Union(refs, i - 1) + refs[i - 1]
  }

  lemma LeftAt(p: Plan, i: nat)
    requires p.Rest(i) && i < |p.batch|
    ensures Mergeable(p.batch[i], p.rank) && p.batch[i].View() == p.views[i]
    ensures p.batch[i].superClass == p.views[i].superClass && p.batch[i].methods == p.views[i].methods
    ensures p.batch[i].fields == p.views[i].fields && RefsOf(p.targets[i], p.batch[i]) == p.refs[i]
  {
    assert p.Left(i);
  }

  // ---------- class by class ----------

  /** The graphs before each of the first `i` classes is merged, and after them. */
  ghost predicate Merging(gs: seq<Graph>, views: seq<ClassView>, i: nat) {
    |gs| == i + 1 && i <= |views| && forall j :: 0 <= j < i ==> Merges(gs[j], views[j], gs[j + 1])
  }

  lemma MergingNext(gs: seq<Graph>, views: seq<ClassView>, i: nat, h: Graph)
    requires Merging(gs, views, i) && i < |views| && Merges(gs[i], views[i], h)
    ensures Merging(gs + [h], views, i + 1)
  {
    hide Merges;
  }

  /** The methods that these classes hold. */
  ghost function HeldBy(views: seq<ClassView>): set<ModelMethod> {
    set v, k | v in views && k in v.methods.at :: v.methods.at[k]
  }

  /** The methods of the first `i` classes are enclosed in the classes of the database. */
  ghost predicate Enclosed(views: seq<ClassView>, targets: seq<ModelClass>, i: nat)
    reads HeldBy(views)`enclosing
  {
    i <= |views| <= |targets| && forall j, k :: 0 <= j < i && k in views[j].methods.at ==>
      assert views[j] in views; views[j].methods.at[k].enclosing == targets[j]
  }

  method MergeNext(db: AnalyzerDatabase, batch: seq<ModelClass>, i: nat, cls: ModelClass, ghost p: Plan,
      ghost pending: set<string>)
    requires p.Valid() && p.batch == batch && p.rank == db.rank && i < |batch|
    requires cls == p.targets[i] && db.View().HasClass(cls)
    requires db.View().Consistent(pending, p.stale) && pending == Names(batch[i..]) - p.overridden && p.Rest(i)
    modifies db`classes, db`missing, db`methods, db`fields, batch[i].methods.at.Values`enclosing
    modifies cls`superClass, cls`interfaces, cls`methods, cls`fields
    ensures db.View().Consistent(Names(batch[i + 1..]) - p.overridden, p.stale)
    ensures Grown(old(StockOf(db)), StockOf(db), p.refs[i])
    ensures fresh(db.classes.Values - old(db.classes.Values))
    ensures Merges(old(db.View()), p.views[i], db.View())
    ensures forall k :: k in p.views[i].methods.at ==> p.views[i].methods.at[k].enclosing == cls
    ensures p.Rest(i + 1)
  {
    hide Graph.Consistent, Parsed, Grown, Names, Merges, RefsOf, Plan.Valid, Plan.Left, Mergeable, DistinctNames;
    hide ModelClass.View, AnalyzerDatabase.View, Graph.HasClass, StockOf;
    PlanAt(p, i);
    LeftAt(p, i);
    NamesRest(batch, i);
    assert pending - {batch[i].name} == Names(batch[i + 1..]) - p.overridden;
    MergeClass(db, cls, batch[i], pending, p.stale);
  }

  /** Pass 2: links and indexes the classes in the order of the batch. */
  method LinkBatch(db: AnalyzerDatabase, batch: seq<ModelClass>, ghost p: Plan) returns (ghost gs: seq<Graph>)
    requires p.Valid() && p.batch == batch && p.rank == db.rank && p.Rest(0)
    requires db.View().Consistent(Names(batch) - p.overridden, p.stale)
    requires forall j :: 0 <= j < |batch| ==> batch[j].name in db.classes && db.classes[batch[j].name] == p.targets[j]
    modifies db`classes, db`missing, db`methods, db`fields
    modifies set v, k | v in batch && k in v.methods.at :: v.methods.at[k]`enclosing
    modifies (set v | v in p.targets)`superClass, (set v | v in p.targets)`interfaces
    modifies (set v | v in p.targets)`methods, (set v | v in p.targets)`fields
    ensures db.View().Consistent({}, p.stale)
    ensures Grown(old(StockOf(db)), StockOf(db), Union(p.refs, |p.refs|))
    ensures fresh(db.classes.Values - old(db.classes.Values))
    ensures Merging(gs, p.views, |batch|) && gs[0] == old(db.View()) && gs[|batch|] == db.View()
    ensures Enclosed(p.views, p.targets, |batch|)
    ensures forall j :: 0 <= j < |batch| ==> batch[j].methods == p.views[j].methods
  {
    hide *;
    ghost var from := StockOf(db);
    gs := [db.View()];
    LinkBegins(db, p);
    RestTables(p, 0);
    for i := 0 to |batch|
      invariant Linking(db, p, i, from, gs) && |gs| == i + 1 && gs[0] == old(db.View())
      invariant fresh(db.classes.Values - old(db.classes.Values))
    {
      LinkingTables(db, p, i, from, gs);
      LinkTarget(db, p, i, from, gs);
      assert batch[i].methods == old(batch[i].methods) && batch[i] in batch && p.targets[i] in p.targets;
      gs := LinkTurn(db, batch, i, db.classes[batch[i].name], p, from, gs);
    }
    LinkEnds(db, p, from, gs);
  }

  /** The state of the loop after `i` classes; `gs` are the graphs so far. */
  ghost predicate Linking(db: AnalyzerDatabase, p: Plan, i: nat, from: Stock, gs: seq<Graph>)
    reads db, db.classes.Values, p.batch, p.targets, HeldBy(p.views)`enclosing
  {
    && i <= |p.batch| == |p.targets| == |p.views| == |p.refs|
    && db.View().Consistent(Names(p.batch[i..]) - p.overridden, p.stale)
    && Grown(from, StockOf(db), Union(p.refs, i)) && p.Rest(i)
    && Merging(gs, p.views, i) && gs[i] == db.View() && Enclosed(p.views, p.targets, i)
  }

  /** One turn of the loop. */
  method LinkTurn(db: AnalyzerDatabase, batch: seq<ModelClass>, i: nat, cls: ModelClass, ghost p: Plan,
      ghost from: Stock, ghost gs: seq<Graph>) returns (ghost more: seq<Graph>)
    requires p.Valid() && p.batch == batch && p.rank == db.rank && i < |batch| == |p.targets|
    requires Linking(db, p, i, from, gs) && |gs| > 0
    requires cls == p.targets[i] && db.View().HasClass(cls)
    modifies db`classes, db`missing, db`methods, db`fields, batch[i].methods.at.Values`enclosing
    modifies cls`superClass, cls`interfaces, cls`methods, cls`fields
    ensures Linking(db, p, i + 1, from, more) && |more| == |gs| + 1 && more[0] == gs[0]
    ensures fresh(db.classes.Values - old(db.classes.Values))
  {
    hide Graph.Consistent, Grown, Names, Plan.Valid, Plan.Rest, Plan.Left, Merges, Merging;
    hide Parsed, AnalyzerDatabase.View, Graph.HasClass;
    ghost var before := StockOf(db);
    MethodsApart(p, i);
    MergeNext(db, batch, i, cls, p, Names(batch[i..]) - p.overridden);
    GrownTrans(from, before, StockOf(db), Union(p.refs, i), p.refs[i]);
    MergingSize(gs, p.views, i);
    MergingNext(gs, p.views, i, db.View());
    more := gs + [db.View()];
  }

  lemma MergingSize(gs: seq<Graph>, views: seq<ClassView>, i: nat)
    requires Merging(gs, views, i)
    ensures |gs| == i + 1 && i <= |views|
  {
  }

  /** No method of an earlier class is one of class number `i`. */
  lemma MethodsApart(p: Plan, i: nat)
    requires p.Valid() && p.Rest(i) && i < |p.batch|
    ensures |p.views| == |p.batch|
    ensures forall j, k :: 0 <= j < i && k in p.views[j].methods.at ==>
      p.views[j].methods.at[k] !in p.batch[i].methods.at.Values
  {
    forall j, k | 0 <= j < i && k in p.views[j].methods.at
      ensures p.views[j].methods.at[k] !in p.batch[i].methods.at.Values
    {
      assert p.At(j) && p.At(i) && p.batch[i].methods == p.views[i].methods;
    }
  }

  lemma LinkBegins(db: AnalyzerDatabase, p: Plan)
    requires p.Valid() && p.Rest(0) && db.View().Consistent(Names(p.batch) - p.overridden, p.stale)
    ensures Linking(db, p, 0, StockOf(db), [db.View()]) && StockOf(db).classes == db.classes
  {
    hide Graph.Consistent, Plan.At, Plan.Rest, Names;
    GrownNone(StockOf(db));
    assert p.batch[0..] == p.batch;
  }

  lemma LinkingTables(db: AnalyzerDatabase, p: Plan, i: nat, from: Stock, gs: seq<Graph>)
    requires Linking(db, p, i, from, gs)
    ensures |p.batch| == |p.targets| == |p.views| == |p.refs|
    ensures forall j :: 0 <= j < |p.batch| ==> p.batch[j].methods == p.views[j].methods
  {
  }

  lemma LinkEnds(db: AnalyzerDatabase, p: Plan, from: Stock, gs: seq<Graph>)
    requires Linking(db, p, |p.batch|, from, gs)
    ensures db.View().Consistent({}, p.stale) && Grown(from, StockOf(db), Union(p.refs, |p.refs|))
    ensures |p.targets| == |p.views| == |p.batch|
    ensures Merging(gs, p.views, |p.batch|) && |gs| == |p.batch| + 1 && gs[|p.batch|] == db.View()
    ensures Enclosed(p.views, p.targets, |p.batch|)
    ensures forall j :: 0 <= j < |p.batch| ==> p.batch[j].methods == p.views[j].methods
  {
    hide Graph.Consistent, Grown, Names, Merges, Plan.Left;
    NoNamesLeft(p.batch);
    assert Names(p.batch[|p.batch|..]) - p.overridden == {};
    assert p.refs[..|p.refs|] == p.refs;
  }

  /** The class that the batch class number `i` goes to. */
  lemma LinkTarget(db: AnalyzerDatabase, p: Plan, i: nat, from: Stock, gs: seq<Graph>)
    requires p.Valid() && Linking(db, p, i, from, gs) && i < |p.batch| == |p.targets|
    requires p.batch[i].name in from.classes && from.classes[p.batch[i].name] == p.targets[i]
    ensures p.batch[i].name in db.classes && db.classes[p.batch[i].name] == p.targets[i]
    ensures db.View().HasClass(p.targets[i])
  {
    hide Graph.Consistent, Plan.Valid, Plan.Rest, Union, Parsed, Merging, Names;
    GrownKeeps(from, StockOf(db), Union(p.refs, i));
    PlanAt(p, i);
  }

  lemma RestTables(p: Plan, i: nat)
    requires p.Rest(i)
    ensures |p.batch| == |p.targets| == |p.views| == |p.refs|
    ensures forall j :: 0 <= j < |p.batch| ==> p.batch[j].methods == p.views[j].methods
  {
  }

  lemma StoredAll(before: map<string, ModelClass>, after: map<string, ModelClass>, batch: seq<ModelClass>,
      overridden: set<string>)
    requires overridden == Names(batch) * before.Keys && after.Keys == before.Keys + Names(batch)
    requires forall n :: n in before ==> after[n] == before[n]
    requires forall i :: 0 <= i < |batch| && batch[i].name !in overridden ==>
      batch[i].name in after && after[batch[i].name] == batch[i]
    ensures Stored(before, after, batch)
  {
  }

  /** The graph once the classes whose names are new have been stored. */
  ghost predicate StoredIn(g: Graph, views: seq<ClassView>, h: Graph) {
    && h.methods == g.methods && h.fields == g.fields && h.rank == g.rank
    && (forall n :: n in h.classes <==> n in g.classes || exists i :: 0 <= i < |views| && views[i].node.name == n)
    && (forall n :: n in g.classes ==> h.classes[n] == g.classes[n])
    && forall i :: 0 <= i < |views| && views[i].node.name !in g.classes ==> h.classes[views[i].node.name] == views[i]
  }

  /** The first pass, with what the second one needs to know. */
  method StoreBatch(db: AnalyzerDatabase, batch: seq<ModelClass>, ghost stale: set<Sig>)
    requires db.View().Consistent({}, stale) && MayMerge(db, batch)
    modifies db`classes
    ensures Stored(old(db.classes), db.classes, batch)
    ensures var p := old(PlanOf(db, batch, stale)); db.View().Consistent(Names(batch) - p.overridden, p.stale)
    ensures forall j :: 0 <= j < |batch| ==>
      batch[j].name in db.classes && db.classes[batch[j].name] == old(Targets(db, batch))[j]
    ensures StoredIn(old(db.View()), old(Views(batch)), db.View())
  {
    assert forall i :: 0 <= i < |batch| ==> batch[i].name in Names(batch);
    hide Graph.Consistent, Parsed, Names, Stale, Stored;
    ghost var p, classes := PlanOf(db, batch, stale), db.classes;
    ghost var g, views := db.View(), Views(batch);
    ghost var overridden := StoreClasses(db, batch, stale);
    StoredAll(classes, db.classes, batch, overridden);
    MoreStale(db.View(), Names(batch) - overridden, stale, p.stale);
    forall j | 0 <= j < |batch|
      ensures batch[j].name in db.classes && db.classes[batch[j].name] == p.targets[j]
    {
      TargetStored(classes, db.classes, batch, p.targets[j], j);
    }
    ViewStored(db, g, batch, views, classes);
  }

  lemma ViewStored(db: AnalyzerDatabase, g: Graph, batch: seq<ModelClass>, views: seq<ClassView>,
      before: map<string, ModelClass>)
    requires Stored(before, db.classes, batch) && |views| == |batch| && before.Keys == g.classes.Keys
    requires forall i :: 0 <= i < |batch| ==> views[i] == batch[i].View()
    requires forall n :: n in before ==> before[n].View() == g.classes[n]
    requires db.methods == g.methods && db.fields == g.fields && db.rank == g.rank
    ensures StoredIn(g, views, db.View())
  {
    forall n
      ensures n in Names(batch) <==> exists i :: 0 <= i < |views| && views[i].node.name == n
    {
      if n in Names(batch) {
        var v :| v in batch && v.name == n;
        var i :| 0 <= i < |batch| && batch[i] == v;
        assert views[i].node.name == n;
      }
      if i :| 0 <= i < |views| && views[i].node.name == n {
        assert batch[i] in batch;
      }
    }
  }

  lemma PlanParts(db: AnalyzerDatabase, batch: seq<ModelClass>, stale: set<Sig>)
    ensures var p := PlanOf(db, batch, stale);
      && p.batch == batch && p.targets == Targets(db, batch) && p.views == Views(batch) && p.rank == db.rank
      && Union(p.refs, |p.refs|) == ReferredBy(db, batch)
      && p.overridden == Names(batch) * db.classes.Keys
      && p.stale == stale + Stale(Views(batch), db.classes.Keys)
    ensures forall t :: t in Targets(db, batch) ==> t in batch || t in db.classes.Values
    ensures forall i :: 0 <= i < |batch| ==>
      && Targets(db, batch)[i] == (if batch[i].name in db.classes then db.classes[batch[i].name] else batch[i])
      && Views(batch)[i].methods == batch[i].methods
  {
  }

  method MergePlan(db: AnalyzerDatabase, batch: seq<ModelClass>, ghost stale: set<Sig>, ghost p: Plan)
      returns (ghost stored: map<string, ModelClass>, ghost gs: seq<Graph>)
    requires db.View().Consistent({}, stale) && MayMerge(db, batch)
    requires p == PlanOf(db, batch, stale) && p.Valid() && p.Rest(0)
    requires p.batch == batch && p.targets == Targets(db, batch) && p.rank == db.rank
    modifies db`classes, db`missing, db`methods, db`fields
    modifies set v, k | v in batch && k in v.methods.at :: v.methods.at[k]`enclosing
    modifies (set v | v in p.targets)`superClass, (set v | v in p.targets)`interfaces
    modifies (set v | v in p.targets)`methods, (set v | v in p.targets)`fields
    ensures Stored(old(db.classes), stored, batch)
    ensures Grown(Stock(stored, old(db.missing)), StockOf(db), Union(p.refs, |p.refs|))
    ensures fresh(db.classes.Values - stored.Values)
    ensures db.View().Consistent({}, p.stale)
    ensures |p.views| == |p.targets| == |batch| && p.views == old(Views(batch)) && |gs| == |batch| + 1
    ensures forall j :: 0 <= j < |batch| ==> batch[j].methods == old(batch[j].methods)
    ensures Merging(gs, p.views, |batch|) && gs[|batch|] == db.View() && Enclosed(p.views, p.targets, |batch|)
    ensures StoredIn(old(db.View()), p.views, gs[0])
  {
    hide Graph.Consistent, Parsed, Grown, Names, RefsOf, Stale, Plan.Valid, Plan.Rest, Mergeable, Stored, StoredIn;
    hide MayMerge, Union, Views, Refs, Targets, Merges, AnalyzerDatabase.View;
    RestTables(p, 0);
    StoreBatch(db, batch, stale);
    stored := db.classes;
    gs := LinkBatch(db, batch, p);
  }

  lemma ViewParts(db: AnalyzerDatabase)
    ensures db.View().classes.Keys == db.classes.Keys && db.View().rank == db.rank
    ensures db.View().methods == db.methods && db.View().fields == db.fields
    ensures forall n :: n in db.classes ==> db.View().classes[n] == db.classes[n].View()
  {
  }

  /** The two merging passes, on a database in which the methods of `stale` have been replaced.
      Afterwards the indexes agree with every class, old, new, overridden or created as missing,
      except for slots that inherited a replaced method; and the only classes created as missing
      are referenced ones that neither the database nor any class of the batch defines, whatever
      the order of the batch. */
  method MergeBatch(db: AnalyzerDatabase, batch: seq<ModelClass>, ghost stale: set<Sig>)
      returns (ghost stored: map<string, ModelClass>, ghost gs: seq<Graph>)
    requires db.View().Consistent({}, stale) && MayMerge(db, batch)
    modifies db`classes, db`missing, db`methods, db`fields
    modifies set v, k | v in batch && k in v.methods.at :: v.methods.at[k]`enclosing
    modifies (set v | v in batch)`superClass, (set v | v in batch)`interfaces
    modifies (set v | v in batch)`methods, (set v | v in batch)`fields
    modifies db.classes.Values`superClass, db.classes.Values`interfaces
    modifies db.classes.Values`methods, db.classes.Values`fields
    ensures Stored(old(db.classes), stored, batch)
    ensures Grown(Stock(stored, old(db.missing)), StockOf(db), old(ReferredBy(db, batch)))
    ensures fresh(db.classes.Values - stored.Values)
    ensures db.View().Consistent({}, stale + Stale(old(Views(batch)), old(db.classes.Keys)))
    ensures db.methods == Over(old(db.methods), MethodTables(old(Views(batch))), |batch|)
    ensures db.fields == Over(old(db.fields), FieldTables(old(Views(batch))), |batch|)
    ensures forall v :: v in batch ==> v.methods == old(v.methods)
    ensures |gs| == |batch| + 1 && StoredIn(old(db.View()), old(Views(batch)), gs[0])
    ensures Merging(gs, old(Views(batch)), |batch|) && gs[|batch|] == db.View()
    ensures NewAdded(old(Views(batch)), old(db.classes.Keys), db.View())
    ensures forall i, k :: 0 <= i < |batch| && k in batch[i].methods.at ==>
      batch[i].name in db.classes && batch[i].methods.at[k].enclosing == db.classes[batch[i].name]
    ensures old(NewNodes(Views(batch), db.methods)) ==>
      (db.View().Valid() <==> old(SlotsCurrent(db.View()) && SlotsUnreplaced(db.View(), Views(batch))))
  {
    hide *;
    ghost var g, views, before, missing := db.View(), Views(batch), db.classes, db.missing;
    ghost var names := ReferredBy(db, batch);
    ViewParts(db);
    ApartNames(db, batch);
    MakePlan(db, batch, stale);
    ghost var p := PlanOf(db, batch, stale);
    PlanParts(db, batch, stale);
    stored, gs := MergePlan(db, batch, stale, p);
    ViewParts(db);
    MergingSize(gs, views, |batch|);
    ChainIndexes(gs, views, |batch|);
    StoredIndexes(g, views, gs[0]);
    NewAreAdded(g, views, gs);
    EnclosedIn(db, batch, p, before, stored, missing, names);
    if NewNodes(views, g.methods) {
      MergedValidIff(g, stale, views, db.View());
    }
  }

  lemma StoredIndexes(g: Graph, views: seq<ClassView>, h: Graph)
    requires StoredIn(g, views, h)
    ensures h.methods == g.methods && h.fields == g.fields && h.rank == g.rank
  {
  }

  /** The indexes, class by class. */
  lemma {:induction false} ChainIndexes(gs: seq<Graph>, views: seq<ClassView>, i: nat)
    requires Merging(gs, views, i)
    ensures gs[i].methods == Over(gs[0].methods, MethodTables(views), i)
    ensures gs[i].fields == Over(gs[0].fields, FieldTables(views), i) && gs[i].rank == gs[0].rank
  {
    hide Merges, MethodTables, FieldTables;
    if i > 0 {
      assert Merging(gs[..i], views, i - 1) by {
        assert forall j :: 0 <= j < i ==> gs[..i][j] == gs[j];
      }
      ChainIndexes(gs[..i], views, i - 1);
      assert gs[..i][i - 1] == gs[i - 1];
      MergesIndexes(gs[i - 1], views[i - 1], gs[i]);
    }
  }

  lemma MergesIndexes(g: Graph, v: ClassView, h: Graph)
    requires Merges(g, v, h)
    ensures h.methods == g.methods + v.methods.at && h.fields == g.fields + v.fields.at && h.rank == g.rank
  {
  }

  lemma EnclosedIn(db: AnalyzerDatabase, batch: seq<ModelClass>, p: Plan, before: map<string, ModelClass>,
      stored: map<string, ModelClass>, missing: seq<MissingNode>, names: set<string>)
    requires Enclosed(p.views, p.targets, |batch|) && |p.views| == |p.targets| == |batch|
    requires forall i :: 0 <= i < |batch| ==>
      && p.views[i].methods == batch[i].methods
      && p.targets[i] == if batch[i].name in before then before[batch[i].name] else batch[i]
    requires Stored(before, stored, batch) && Grown(Stock(stored, missing), StockOf(db), names)
    ensures forall i, k :: 0 <= i < |batch| && k in batch[i].methods.at ==>
      batch[i].name in db.classes && batch[i].methods.at[k].enclosing == db.classes[batch[i].name]
  {
    hide Grown, Stored;
    GrownKeeps(Stock(stored, missing), StockOf(db), names);
    forall i | 0 <= i < |batch|
      ensures batch[i].name in db.classes && db.classes[batch[i].name] == p.targets[i]
    {
      TargetStored(before, stored, batch, p.targets[i], i);
    }
  }

  /** Every name that a class of the batch refers to while it is merged. */
  ghost function ReferredBy(db: AnalyzerDatabase, batch: seq<ModelClass>): set<string>
    reads db, batch, Targets(db, batch)
  {
    var rs := Refs(Targets(db, batch), batch);
    Union(rs, |rs|)
  }

  // ---------- what the merge means ----------

  /** A class stays as it is while others are merged. */
  lemma {:induction false} ClassKept(gs: seq<Graph>, views: seq<ClassView>, i: nat, j: nat, n: string)
    requires Merging(gs, views, |views|) && i <= j <= |views| && n in gs[i].classes
    requires forall l :: i <= l < j ==> views[l].node.name != n
    ensures n in gs[j].classes && gs[j].classes[n] == gs[i].classes[n]
  {
    hide Adds, OverridesBy;
    if i < j {
      ClassKept(gs, views, i, j - 1, n);
      assert Merges(gs[j - 1], views[j - 1], gs[j]);
    }
  }

  lemma {:induction false} NodesKept(gs: seq<Graph>, views: seq<ClassView>, i: nat, j: nat)
    requires Merging(gs, views, |views|) && i <= j <= |views|
    ensures forall n :: n in gs[i].classes ==> n in gs[j].classes && gs[j].classes[n].node == gs[i].classes[n].node
  {
    hide Overlaid, LinksBy, AllLinked;
    if i < j {
      NodesKept(gs, views, i, j - 1);
      assert Merges(gs[j - 1], views[j - 1], gs[j]);
    }
  }

  lemma LinksKept(g: Graph, h: Graph)
    requires forall n :: n in g.classes ==> n in h.classes && h.classes[n].node == g.classes[n].node
    ensures forall s, t :: LinkedTo(s, t, g) ==> LinkedTo(s, t, h)
    ensures forall names, linked :: AllLinked(names, linked, g) ==> AllLinked(names, linked, h)
  {
  }

  ghost predicate NamesApart(views: seq<ClassView>) {
    forall i, j :: 0 <= i < j < |views| ==> views[i].node.name != views[j].node.name
  }

  /** Before its turn a class of the batch is as it was stored, and after it as its turn left it. */
  lemma TurnOf(g: Graph, views: seq<ClassView>, gs: seq<Graph>, i: nat)
    requires Merging(gs, views, |views|) && StoredIn(g, views, gs[0]) && NamesApart(views) && i < |views|
    ensures var n := views[i].node.name;
      && n in gs[0].classes && n in gs[i].classes && gs[i].classes[n] == gs[0].classes[n]
      && n in gs[i + 1].classes && n in gs[|views|].classes && gs[|views|].classes[n] == gs[i + 1].classes[n]
      && Merges(gs[i], views[i], gs[i + 1])
  {
    hide Merges;
    var n := views[i].node.name;
    ClassKept(gs, views, 0, i, n);
    assert Merges(gs[i], views[i], gs[i + 1]);
    MergesNamed(gs[i], views[i], gs[i + 1]);
    ClassKept(gs, views, i + 1, |views|, n);
  }

  lemma MergesNamed(g: Graph, v: ClassView, h: Graph)
    requires Merges(g, v, h)
    ensures v.node.name in g.classes && v.node.name in h.classes
    ensures if g.classes[v.node.name].node == v.node then Adds(v, h) else OverridesBy(g.classes[v.node.name], v, h)
  {
  }

  /** After the merge a new class of the batch has its members as the parser left them, and superclass and
      interfaces are the classes of the database of those names. */
  lemma MergedAdds(g: Graph, views: seq<ClassView>, gs: seq<Graph>, i: nat)
    requires Merging(gs, views, |views|) && StoredIn(g, views, gs[0]) && NamesApart(views) && i < |views|
    requires views[i].node.name !in g.classes
    ensures views[i].node.name in gs[|views|].classes && Adds(views[i], gs[|views|])
  {
    hide Merges, AllLinked, LinkedTo;
    TurnOf(g, views, gs, i);
    MergesNamed(gs[i], views[i], gs[i + 1]);
    NodesKept(gs, views, i + 1, |views|);
    LinksKept(gs[i + 1], gs[|views|]);
  }

  lemma ApartNames(db: AnalyzerDatabase, batch: seq<ModelClass>)
    requires MayMerge(db, batch)
    ensures NamesApart(Views(batch))
  {
    hide Mergeable;
  }

  lemma NewAreAdded(g: Graph, views: seq<ClassView>, gs: seq<Graph>)
    requires Merging(gs, views, |views|) && StoredIn(g, views, gs[0]) && NamesApart(views)
    ensures |gs| == |views| + 1 && NewAdded(views, g.classes.Keys, gs[|views|])
  {
    hide StoredIn, NamesApart, Adds, Merges;
    forall i | 0 <= i < |views| && views[i].node.name !in g.classes.Keys
      ensures views[i].node.name in gs[|views|].classes && Adds(views[i], gs[|views|])
    {
      MergedAdds(g, views, gs, i);
    }
  }

  /** After the merge a class that the batch overrides has the new members over the old ones, and the
      interfaces and the superclass that it got at its turn. */
  lemma MergedOverrides(g: Graph, views: seq<ClassView>, gs: seq<Graph>, i: nat)
    requires Merging(gs, views, |views|) && StoredIn(g, views, gs[0]) && NamesApart(views) && i < |views|
    requires views[i].node.name in g.classes && g.classes[views[i].node.name].node != views[i].node
    ensures var n := views[i].node.name;
      && n in gs[i + 1].classes && OverridesBy(g.classes[n], views[i], gs[i + 1])
      && n in gs[|views|].classes && gs[|views|].classes[n] == gs[i + 1].classes[n]
      && (|views[i].interfaces| != |g.classes[n].interfaces| ==>
            AllLinked(views[i].interfaces, gs[|views|].classes[n].interfaces, gs[|views|]))
  {
    hide Merges, AllLinked, LinkedTo, Overlaid, SuperBy;
    TurnOf(g, views, gs, i);
    MergesNamed(gs[i], views[i], gs[i + 1]);
    NodesKept(gs, views, i + 1, |views|);
    LinksKept(gs[i + 1], gs[|views|]);
  }

  /** A class of another name stays as it is, and one that is new without being one of the batch is a
      missing class, and empty. */
  lemma MergedKeeps(g: Graph, views: seq<ClassView>, gs: seq<Graph>, n: string)
    requires Merging(gs, views, |views|) && StoredIn(g, views, gs[0])
    requires forall i :: 0 <= i < |views| ==> views[i].node.name != n
    ensures n in g.classes ==> n in gs[|views|].classes && gs[|views|].classes[n] == g.classes[n]
    ensures n !in g.classes && n in gs[|views|].classes ==>
      gs[|views|].classes[n] == EmptyView(gs[|views|].classes[n].node) && gs[|views|].classes[n].node.missing
  {
    if n in g.classes {
      ClassKept(gs, views, 0, |views|, n);
    } else {
      EmptyKept(gs, views, |views|, n);
    }
  }

  lemma {:induction false} EmptyKept(gs: seq<Graph>, views: seq<ClassView>, j: nat, n: string)
    requires Merging(gs, views, |views|) && j <= |views| && n !in gs[0].classes
    requires forall i :: 0 <= i < |views| ==> views[i].node.name != n
    ensures n in gs[j].classes ==> gs[j].classes[n] == EmptyView(gs[j].classes[n].node) && gs[j].classes[n].node.missing
  {
    hide Adds, OverridesBy;
    if j > 0 {
      EmptyKept(gs, views, j - 1, n);
      assert Merges(gs[j - 1], views[j - 1], gs[j]);
    }
  }

  /** Every member is found under its signature: a declared one as itself, an inherited slot at
      least as the definition that replaced it. */
  lemma IndexComplete(g: Graph, stale: set<Sig>, n: string)
    requires g.Consistent({}, stale) && n in g.classes
    ensures var t := g.classes[n].methods.at;
      forall k :: k in t ==> Signature(t[k].sig) in g.methods && (k.Signature? ==> g.methods[k] == t[k])
    ensures var t := g.classes[n].fields.at;
      forall k :: k in t ==> k in g.fields && g.fields[k] == t[k]
  {
    assert g.ClassShape(n) && g.MembersIndexed(n, stale);
    var t := g.classes[n].methods.at;
    assert forall k :: k in t ==> g.Indexed(t[k], k, stale);
  }

  /** Every inherited slot holds the node that is indexed under its signature. */
  ghost predicate SlotsCurrent(g: Graph) {
    forall k :: k in g.methods && k.ByFqcn? ==> g.HasMethod(g.methods[k])
  }

  /** The slots alone decide whether the indexes agree with the classes in full. */
  lemma ValidIff(g: Graph, stale: set<Sig>)
    requires g.Consistent({}, stale)
    ensures g.Valid() <==> SlotsCurrent(g)
  {
    hide Graph.ClassShape;
    if g.Valid() {
      assert forall k :: k in g.methods ==> g.MethodEntry(k, {});
    }
    if SlotsCurrent(g) {
      forall n | n in g.classes
        ensures g.MembersIndexed(n, {})
      {
        assert g.MembersIndexed(n, stale);
        var t := g.classes[n].methods.at;
        assert forall k :: k in t ==> g.Indexed(t[k], k, stale) && g.Indexed(t[k], k, {});
      }
      forall k | k in g.methods
        ensures g.MethodEntry(k, {})
      {
        assert g.MethodEntry(k, stale);
      }
    }
  }

  /** No inherited slot holds a method that these classes replace. */
  ghost predicate SlotsUnreplaced(g: Graph, views: seq<ClassView>) {
    forall k :: k in g.methods && k.ByFqcn? ==> g.methods[k].sig !in Stale(views, g.classes.Keys)
  }

  /** The nodes of the classes are new to the index. */
  ghost predicate NewNodes(views: seq<ClassView>, index: map<Key, ModelMethod>) {
    forall j, k :: 0 <= j < |views| && k in views[j].methods.at ==> views[j].methods.at[k] !in index.Values
  }

  /** A signature of a known class is replaced exactly if some table has it. */
  lemma ReplacedIff(views: seq<ClassView>, known: set<string>, s: Sig)
    requires s.fqcn in known && forall j :: 0 <= j < |views| ==> OwnMethods(views[j])
    ensures s in Stale(views, known) <==> exists j :: 0 <= j < |views| && Signature(s) in views[j].methods.at
  {
    if s in Stale(views, known) {
      var v, k :| v in views && v.node.name in known && k in v.methods.at && v.methods.at[k].sig == s;
      var j :| 0 <= j < |views| && views[j] == v;
      assert OwnMethods(views[j]) && Signature(s) in views[j].methods.at;
    }
    if j :| 0 <= j < |views| && Signature(s) in views[j].methods.at {
      assert OwnMethods(views[j]) && views[j] in views;
    }
  }

  /** A merge stores nothing under the name of a class. */
  lemma SlotStays(base: map<Key, ModelMethod>, views: seq<ClassView>, rank: string -> nat, k: Key)
    requires ParsedApart(views, rank) && k.ByFqcn?
    ensures var index := Over(base, MethodTables(views), |views|);
      (k in index <==> k in base) && (k in base ==> index[k] == base[k])
  {
    hide Over, ParsedApart, Apart;
    TablesApart(views, rank);
    OverAt(base, MethodTables(views), |views|, k);
    forall j | 0 <= j < |views|
      ensures k !in MethodTables(views)[j]
    {
      assert OwnMethods(views[j]);
    }
  }

  /** A node of the index stays the indexed one of its signature exactly if the batch does not
      replace it. */
  lemma CurrentAfter(base: map<Key, ModelMethod>, views: seq<ClassView>, rank: string -> nat, known: set<string>,
      m: ModelMethod)
    requires ParsedApart(views, rank) && NewNodes(views, base) && m in base.Values
    requires Signature(m.sig) in base && m.sig.fqcn in known
    ensures var index, s := Over(base, MethodTables(views), |views|), Signature(m.sig);
      s in index && (index[s] == m <==> base[s] == m && m.sig !in Stale(views, known))
  {
    hide Over, ParsedApart, Apart, OwnMethods, Stale;
    TablesApart(views, rank);
    OverAt(base, MethodTables(views), |views|, Signature(m.sig));
    ReplacedIff(views, known, m.sig);
  }

  /** Whether the merge of a batch of new nodes leaves the indexes in full agreement with the
      classes can be told before it: every inherited slot has to hold the indexed node of its
      signature, and no class of the batch may replace that signature. */
  lemma MergedValidIff(g: Graph, stale: set<Sig>, views: seq<ClassView>, h: Graph)
    requires g.Consistent({}, stale) && ParsedApart(views, g.rank) && NewNodes(views, g.methods)
    requires h.Consistent({}, stale + Stale(views, g.classes.Keys))
    requires h.methods == Over(g.methods, MethodTables(views), |views|)
    ensures h.Valid() <==> SlotsCurrent(g) && SlotsUnreplaced(g, views)
  {
    hide Graph.Consistent;
    hide Over, Stale, ParsedApart, NewNodes, Graph.Valid;
    ValidIff(h, stale + Stale(views, g.classes.Keys));
    forall k: Key | k.ByFqcn?
      ensures k in h.methods <==> k in g.methods
      ensures k in g.methods ==> h.methods[k] == g.methods[k]
      ensures k in g.methods ==> (h.HasMethod(g.methods[k]) <==>
        g.HasMethod(g.methods[k]) && g.methods[k].sig !in Stale(views, g.classes.Keys))
    {
      SlotStays(g.methods, views, g.rank, k);
      if k in g.methods {
        SlotSigned(g, stale, k);
        CurrentAfter(g.methods, views, g.rank, g.classes.Keys, g.methods[k]);
      }
    }
  }

  lemma SlotSigned(g: Graph, stale: set<Sig>, k: Key)
    requires g.Consistent({}, stale) && k in g.methods
    ensures Signature(g.methods[k].sig) in g.methods && g.methods[k].sig.fqcn in g.classes
  {
    assert g.MethodEntry(k, stale) && g.MethodEntry(Signature(g.methods[k].sig), stale);
  }

  /** The classes after the merge are those of the database and of the batch, and the referenced
      ones; a class defined on either side is never created as missing. */
  lemma FinalClasses(before: map<string, ModelClass>, stored: map<string, ModelClass>, batch: seq<ModelClass>,
      m: seq<MissingNode>, after: Stock, names: set<string>)
    requires Stored(before, stored, batch) && Grown(Stock(stored, m), after, names)
    ensures after.classes.Keys == before.Keys + Names(batch) + names
    ensures forall i :: |m| <= i < |after.missing| ==>
      after.missing[i].MissingClass? && after.missing[i].cls.name in names - before.Keys - Names(batch)
  {
  }

  lemma {:induction false} InUnion(refs: seq<set<string>>, i: nat, n: string)
    requires i <= |refs|
    ensures n in Union(refs, i) <==> exists j :: 0 <= j < i && n in refs[j]
  {
    if i > 0 {
      InUnion(refs, i - 1, n);
    }
  }

  /** Which names a merge refers to does not depend on the order of the batch. */
  lemma OrderFree(db: AnalyzerDatabase, a: seq<ModelClass>, b: seq<ModelClass>)
    requires forall v :: v in a <==> v in b
    ensures Names(a) == Names(b) && ReferredBy(db, a) == ReferredBy(db, b)
  {
    var r, s := Refs(Targets(db, a), a), Refs(Targets(db, b), b);
    forall n
      ensures n in Union(r, |r|) <==> n in Union(s, |s|)
    {
      InUnion(r, |r|, n);
      InUnion(s, |s|, n);
      if i: nat :| i < |r| && n in r[i] {
        assert a[i] in b;
        var j: nat :| j < |b| && b[j] == a[i];
        assert n in s[j];
      }
      if i: nat :| i < |s| && n in s[i] {
        assert b[i] in a;
        var j: nat :| j < |a| && a[j] == b[i];
        assert n in r[j];
      }
    }
  }
}
