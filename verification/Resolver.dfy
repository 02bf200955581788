/** Resolution of method and class references, with the inheritance walk and the
    creation of "missing" nodes. */
module Resolver {
  import opened Model

  // ---------- specification of the inheritance walk ----------

  predicate Admissible(m: ModelMethod, name: string) {
    m.sig.name == name && (m.missing || !m.isPrivate)
  }

  ghost predicate Declares(c: ClassView, name: string) {
    exists k :: k in c.methods.at && Admissible(c.methods.at[k], name)
  }

  ghost predicate IsFirst(keys: seq<Key>, at: map<Key, ModelMethod>, name: string, i: int) {
    && 0 <= i < |keys| && keys[i] in at && Admissible(at[keys[i]], name)
    && forall j :: 0 <= j < i && keys[j] in at ==> !Admissible(at[keys[j]], name)
  }

  /** The first admissible member among the keys, in insertion order. */
  function FirstAdmissible(keys: seq<Key>, at: map<Key, ModelMethod>, name: string): (r: Option<ModelMethod>)
    ensures r.Some? ==> exists i :: IsFirst(keys, at, name, i) && at[keys[i]] == r.value
    ensures r.None? ==> forall i :: 0 <= i < |keys| && keys[i] in at ==> !Admissible(at[keys[i]], name)
  {
    if keys == [] then None
    else if keys[0] in at && Admissible(at[keys[0]], name) then Some(at[keys[0]])
    else
      var r := FirstAdmissible(keys[1..], at, name);
      assert forall i :: 0 < i < |keys| ==> keys[1..][i - 1] == keys[i];
      assert forall i :: IsFirst(keys[1..], at, name, i) ==> IsFirst(keys, at, name, i + 1);
      r
  }

  datatype Found = Found(meth: ModelMethod, holder: ModelClass)

  /** Which member a walk up `extends` from class `n` meets first, and where. */
  ghost function Inherited(db: Graph, n: string, name: string): Option<Found>
    requires db.Shaped() && n in db.classes
    decreases db.rank(n)
  {
    assert db.ClassShape(n);
    var c := db.classes[n];
    match FirstAdmissible(c.methods.keys, c.methods.at, name)
    case Some(m) => Some(Found(m, c.node))
    case None => if c.superClass.Resolved? then Inherited(db, c.superClass.cls.name, name) else None
  }

  /** The class followed by its linked superclasses, nearest first. */
  ghost function Chain(db: Graph, n: string): (s: seq<string>)
    requires db.Shaped() && n in db.classes
    ensures |s| > 0 && s[0] == n && forall d :: d in s ==> d in db.classes
    ensures forall i :: 0 <= i < |s| - 1 ==>
      db.classes[s[i]].superClass.Resolved? && db.classes[s[i]].superClass.cls.name == s[i + 1]
    ensures !db.classes[s[|s| - 1]].superClass.Resolved?
    decreases db.rank(n)
  {
    assert db.ClassShape(n);
    var c := db.classes[n];
    [n] + if c.superClass.Resolved? then Chain(db, c.superClass.cls.name) else []
  }

  /** The walk fails exactly when no class of the chain declares an admissible member. */
  lemma {:induction false} InheritedFails(db: Graph, n: string, name: string)
    requires db.Shaped() && n in db.classes
    ensures Inherited(db, n, name).None? <==> forall d :: d in Chain(db, n) ==> !Declares(db.classes[d], name)
    decreases db.rank(n)
  {
    assert db.ClassShape(n);
    var c := db.classes[n];
    assert n in Chain(db, n);
    assert Declares(c, name) <==> FirstAdmissible(c.methods.keys, c.methods.at, name).Some?;
    if !Declares(c, name) && c.superClass.Resolved? {
      InheritedFails(db, c.superClass.cls.name, name);
    }
  }

  ghost predicate FirstIn(c: ClassView, name: string, m: ModelMethod) {
    exists i :: IsFirst(c.methods.keys, c.methods.at, name, i) && c.methods.at[c.methods.keys[i]] == m
  }

  lemma FirstOf(c: ClassView, name: string)
    requires c.methods.Valid()
    ensures var f := FirstAdmissible(c.methods.keys, c.methods.at, name);
      if f.Some? then FirstIn(c, name, f.value) else !Declares(c, name)
  {
    forall k | k in c.methods.at
      ensures k in c.methods.keys
    {
    }
  }

  /** A successful walk stops at the nearest class of the chain declaring an admissible member
      of that name, and takes the first one this class holds. */
  lemma {:induction false} InheritedIsNearest(db: Graph, n: string, name: string) returns (i: nat)
    requires db.Shaped() && n in db.classes && Inherited(db, n, name).Some?
    ensures i < |Chain(db, n)| && db.classes[Chain(db, n)[i]].node == Inherited(db, n, name).value.holder
    ensures FirstIn(db.classes[Chain(db, n)[i]], name, Inherited(db, n, name).value.meth)
    ensures forall j :: 0 <= j < i ==> !Declares(db.classes[Chain(db, n)[j]], name)
    decreases db.rank(n)
  {
    hide FirstIn, Declares, FirstAdmissible, Graph.Shaped, Graph.ClassShape, Inherited, Chain;
    WalkStep(db, n, name);
    var c := db.classes[n];
    if FirstAdmissible(c.methods.keys, c.methods.at, name).Some? {
      i := 0;
    } else {
      var s := c.superClass.cls.name;
      var k := InheritedIsNearest(db, s, name);
      i := k + 1;
      var up := Chain(db, s);
      forall j | 0 <= j < i
        ensures !Declares(db.classes[Chain(db, n)[j]], name)
      {
        assert j > 0 ==> Chain(db, n)[j] == up[j - 1];
      }
    }
  }

  /** One step of the walk, beside one step of the chain. */
  lemma WalkStep(db: Graph, n: string, name: string)
    requires db.Shaped() && n in db.classes
    ensures var c := db.classes[n];
      var f, up := FirstAdmissible(c.methods.keys, c.methods.at, name), c.superClass;
      && (if f.Some? then Inherited(db, n, name) == Some(Found(f.value, c.node)) && FirstIn(c, name, f.value)
          else !Declares(c, name))
      && (f.None? && !up.Resolved? ==> Inherited(db, n, name) == None)
      && (up.Resolved? ==> up.cls.name in db.classes && db.rank(up.cls.name) < db.rank(n))
      && (f.None? && up.Resolved? ==> Inherited(db, n, name) == Inherited(db, up.cls.name, name))
      && Chain(db, n) == [n] + if up.Resolved? then Chain(db, up.cls.name) else []
  {
    hide FirstAdmissible, FirstIn, Declares;
    assert db.ClassShape(n);
    FirstOf(db.classes[n], name);
  }

  /** Every member of that name is private, and not missing. */
  ghost predicate AllHidden(t: map<Key, ModelMethod>, name: string) {
    forall k :: k in t && t[k].sig.name == name ==> t[k].isPrivate && !t[k].missing
  }

  /** What that means member by member: the one found has the name, and is missing or not private; each
      member of that name before it in its class, and each in a nearer class, is private and not missing. */
  lemma InheritedMeets(db: Graph, n: string, name: string) returns (i: nat, p: nat)
    requires db.Shaped() && n in db.classes && Inherited(db, n, name).Some?
    ensures i < |Chain(db, n)| && db.classes[Chain(db, n)[i]].node == Inherited(db, n, name).value.holder
    ensures var t, m := db.classes[Chain(db, n)[i]].methods, Inherited(db, n, name).value.meth;
      && p < |t.keys| && t.keys[p] in t.at && t.at[t.keys[p]] == m
      && m.sig.name == name && (m.missing || !m.isPrivate)
      && forall q :: 0 <= q < p && t.keys[q] in t.at && t.at[t.keys[q]].sig.name == name ==>
        t.at[t.keys[q]].isPrivate && !t.at[t.keys[q]].missing
    ensures forall j :: 0 <= j < i ==> AllHidden(db.classes[Chain(db, n)[j]].methods.at, name)
  {
    hide Graph.Shaped, Inherited, Chain;
    i := InheritedIsNearest(db, n, name);
    var t := db.classes[Chain(db, n)[i]].methods;
    p :| IsFirst(t.keys, t.at, name, p) && t.at[t.keys[p]] == Inherited(db, n, name).value.meth;
  }

  /** The walk fails exactly when every member of that name, in every class of the chain, is private and
      not missing. */
  lemma InheritedNowhere(db: Graph, n: string, name: string)
    requires db.Shaped() && n in db.classes
    ensures Inherited(db, n, name).None? <==>
      forall d :: d in Chain(db, n) ==> AllHidden(db.classes[d].methods.at, name)
  {
    hide Graph.Shaped, Inherited, Chain;
    InheritedFails(db, n, name);
    forall d | d in Chain(db, n)
      ensures Declares(db.classes[d], name) <==> !AllHidden(db.classes[d].methods.at, name)
    {
    }
  }

  ghost function InheritedMethod(db: Graph, n: string, name: string): Option<ModelMethod>
    requires db.Shaped() && n in db.classes
  {
    match Inherited(db, n, name)
    case Some(f) => Some(f.meth)
    case None => None
  }

  /** The node a reference denotes without creating anything: the indexed one, else the
      inherited one. */
  ghost function Lookup(db: Graph, ref: Sig): Option<ModelMethod>
    requires db.Shaped()
  {
    if Signature(ref) in db.methods then Some(db.methods[Signature(ref)])
    else if ref.fqcn in db.classes then
      assert db.ClassShape(ref.fqcn);
      var c := db.classes[ref.fqcn];
      if c.superClass.Resolved? then InheritedMethod(db, c.superClass.cls.name, ref.name) else None
    else None
  }

  /** What the walk from the superclass of the named class meets, and where. */
  ghost function Above(db: Graph, ref: Sig): Option<Found>
    requires db.Shaped()
  {
    if ref.fqcn in db.classes then
      assert db.ClassShape(ref.fqcn);
      var up := db.classes[ref.fqcn].superClass;
      if up.Resolved? then Inherited(db, up.cls.name, ref.name) else None
    else None
  }

  /** The method that resolving the reference binds anew, and the class where it is met: the inherited
      one, if the reference is not indexed and the method is not missing. */
  ghost function Rebinding(db: Graph, ref: Sig): Option<Found>
    requires db.Shaped()
  {
    var f := Above(db, ref);
    if Signature(ref) !in db.methods && f.Some? && !f.value.meth.missing then f else None
  }

  /** The class that encloses a method, and the one that it is said to be declared in. */
  datatype Place = Place(enclosing: ModelClass?, declaring: ModelClass?)

  ghost function PlacesOf(nodes: set<ModelMethod>): (p: map<ModelMethod, Place>)
    reads nodes`enclosing, nodes`declaring
    ensures p.Keys == nodes && forall m :: m in nodes ==> p[m] == Place(m.enclosing, m.declaring)
  {
    map m | m in nodes :: Place(m.enclosing, m.declaring)
  }

  ghost function CallersOf(nodes: set<ModelMethod>): (c: map<ModelMethod, seq<ModelMethod>>)
    reads nodes`callers
    ensures c.Keys == nodes && forall m :: m in nodes ==> c[m] == m.callers
  {
    map m | m in nodes :: m.callers
  }

  /** The method found is declared where it was enclosed, and enclosed where it was met. */
  ghost function Moved(places: map<ModelMethod, Place>, f: Option<Found>): map<ModelMethod, Place> {
    if f.Some? && f.value.meth in places then
      places[f.value.meth := Place(f.value.holder, places[f.value.meth].enclosing)]
    else places
  }

  lemma MovedAt(places: map<ModelMethod, Place>, f: Option<Found>)
    ensures f.None? ==> Moved(places, f) == places
    ensures f.Some? && f.value.meth in places ==>
      f.value.meth in Moved(places, f)
      && Moved(places, f)[f.value.meth] == Place(f.value.holder, places[f.value.meth].enclosing)
  {
  }

  lemma {:induction false} InheritedIndexed(db: Graph, n: string, name: string, stale: set<Sig>)
    requires db.Consistent({}, stale) && n in db.classes && Inherited(db, n, name).Some?
    ensures db.Listed(Inherited(db, n, name).value.meth, stale)
    ensures Admissible(Inherited(db, n, name).value.meth, name)
    decreases db.rank(n)
  {
    hide Graph.MethodsCanonical, Graph.MethodEntry;
    assert db.ClassShape(n) && db.MembersIndexed(n, stale);
    var c := db.classes[n];
    var f := FirstAdmissible(c.methods.keys, c.methods.at, name);
    if f.Some? {
      var i :| IsFirst(c.methods.keys, c.methods.at, name, i) && c.methods.at[c.methods.keys[i]] == f.value;
      assert db.Indexed(f.value, c.methods.keys[i], stale);
    } else {
      InheritedIndexed(db, c.superClass.cls.name, name, stale);
    }
  }

  lemma ClassNamed(db: Graph, n: string)
    requires db.Shaped() && n in db.classes
    ensures db.classes[n].node.name == n && db.HasClass(db.classes[n].node)
  {
    assert db.ClassShape(n);
  }

  lemma IndexedMethod(db: Graph, ref: Sig, stale: set<Sig>)
    requires db.MethodsCanonical(stale) && Signature(ref) in db.methods
    ensures db.HasMethod(db.methods[Signature(ref)]) && db.methods[Signature(ref)].sig == ref
  {
    assert db.MethodEntry(Signature(ref), stale);
  }

  lemma EntrySigs(db: Graph, stale: set<Sig>)
    requires db.MethodsCanonical(stale)
    ensures forall k :: k in db.methods && k.Signature? ==> db.methods[k].sig == k.sig
  {
    assert forall k :: k in db.methods ==> db.MethodEntry(k, stale);
  }

  lemma LookupNamed(db: Graph, ref: Sig, stale: set<Sig>)
    requires db.Consistent({}, stale) && Lookup(db, ref).Some?
    ensures db.Listed(Lookup(db, ref).value, stale) && Lookup(db, ref).value.sig.name == ref.name
  {
    if Signature(ref) in db.methods {
      IndexedMethod(db, ref, stale);
    } else {
      assert db.ClassShape(ref.fqcn);
      InheritedIndexed(db, db.classes[ref.fqcn].superClass.cls.name, ref.name, stale);
    }
  }

  // ---------- what each creation does to the graph ----------

  /** A member's index entry only depends on the indexes. */
  lemma MethodsFrame(g: Graph, h: Graph, n: string, stale: set<Sig>)
    requires n in g.classes && g.MethodsIndexed(n, stale) && n in h.classes
    requires h.classes[n].methods == g.classes[n].methods && h.methods == g.methods
    ensures h.MethodsIndexed(n, stale)
  {
    var t := g.classes[n].methods.at;
    assert forall k :: k in t ==> g.Indexed(t[k], k, stale) && h.Indexed(t[k], k, stale);
  }

  lemma FieldsFrame(g: Graph, h: Graph, n: string)
    requires n in g.classes && g.FieldsIndexed(n) && n in h.classes
    requires h.classes[n].fields == g.classes[n].fields && h.fields == g.fields
    ensures h.FieldsIndexed(n)
  {
    var t := g.classes[n].fields.at;
    assert forall k :: k in t ==> g.HasField(t[k]) && h.HasField(t[k]);
  }

  lemma MembersFrame(g: Graph, h: Graph, n: string, stale: set<Sig>)
    requires n in g.classes && g.MembersIndexed(n, stale) && n in h.classes
    requires h.classes[n].methods == g.classes[n].methods && h.classes[n].fields == g.classes[n].fields
    requires h.methods == g.methods && h.fields == g.fields
    ensures h.MembersIndexed(n, stale)
  {
    MethodsFrame(g, h, n, stale);
    FieldsFrame(g, h, n);
  }

  /** The entries only depend on the members of the classes. */
  lemma EntriesFrame(g: Graph, h: Graph, stale: set<Sig>)
    requires g.MethodsCanonical(stale) && h.methods == g.methods
    requires forall n :: n in g.classes ==> n in h.classes && h.classes[n].methods == g.classes[n].methods
    ensures h.MethodsCanonical(stale)
  {
    forall k | k in h.methods
      ensures h.MethodEntry(k, stale)
    {
      assert g.MethodEntry(k, stale);
    }
  }

  /** The classes that are not pending keep their members indexed. */
  lemma AllMembersFrame(g: Graph, h: Graph, before: set<string>, after: set<string>, stale: set<Sig>)
    requires forall n :: n in g.classes && n !in before ==> g.MembersIndexed(n, stale)
    requires forall n :: n in h.classes && n !in after ==> n in g.classes && n !in before
    requires forall n :: n in h.classes && n !in after ==>
      h.classes[n].methods == g.classes[n].methods && h.classes[n].fields == g.classes[n].fields
    requires h.methods == g.methods && h.fields == g.fields
    ensures forall n :: n in h.classes && n !in after ==> h.MembersIndexed(n, stale)
  {
    hide Graph.MembersIndexed;
    forall n | n in h.classes && n !in after
      ensures h.MembersIndexed(n, stale)
    {
      MembersFrame(g, h, n, stale);
    }
  }

  lemma EmptyClassKeeps(db: Graph, c: ModelClass, pending: set<string>, stale: set<Sig>)
    requires db.Consistent(pending, stale) && c.name !in db.classes
    ensures db.WithClass(c, EmptyView(c)).Consistent(pending, stale)
  {
    hide Graph.MethodsCanonical;
    var after := db.WithClass(c, EmptyView(c));
    EntriesFrame(db, after, stale);
    forall n | n in after.classes
      ensures after.ClassShape(n) && (n !in pending ==> after.MembersIndexed(n, stale))
    {
      if n != c.name {
        assert db.ClassShape(n);
        if n !in pending {
          MembersFrame(db, after, n, stale);
        }
      }
    }
  }

  ghost predicate SameBelow(g: Graph, h: Graph, n: string) {
    && g.rank == h.rank
    && forall d :: d in g.classes && g.rank(d) <= g.rank(n) ==>
         && d in h.classes && h.classes[d].node == g.classes[d].node
         && h.classes[d].superClass == g.classes[d].superClass && h.classes[d].methods == g.classes[d].methods
  }

  /** A walk only depends on the classes ranked at or below its start. */
  lemma {:induction false} InheritedFrame(g: Graph, h: Graph, n: string, name: string)
    requires g.Shaped() && h.Shaped() && n in g.classes && SameBelow(g, h, n)
    ensures n in h.classes && Inherited(g, n, name) == Inherited(h, n, name)
    decreases g.rank(n)
  {
    assert g.ClassShape(n) && h.ClassShape(n);
    if g.classes[n].superClass.Resolved? {
      InheritedFrame(g, h, g.classes[n].superClass.cls.name, name);
    }
  }

  /** The graph once `m` is a member of `c` under key `k`, and indexed under that key. */
  ghost function WithMember(g: Graph, c: ModelClass, k: Key, m: ModelMethod): Graph
    requires g.HasClass(c) && g.Shaped()
  {
    assert g.ClassShape(c.name);
    var v := g.classes[c.name];
    g.WithClass(c, Joining(v, k, m)).(methods := g.methods[k := m])
  }

  /** The class with `m` under key `k`; what is stored under a class name is inherited. */
  ghost function Joining(v: ClassView, k: Key, m: ModelMethod): ClassView
    requires v.methods.Valid()
  {
    v.(methods := v.methods.Put(k, m), inherit := if k.ByFqcn? then v.inherit[k := m] else v.inherit)
  }

  /** The index only grew: methods indexed under a signature stay indexed. */
  ghost predicate Grows(index: map<Key, ModelMethod>, after: map<Key, ModelMethod>) {
    forall k :: k in index && k.Signature? ==> k in after && after[k] == index[k]
  }

  /** The graph only grew: indexed methods stay indexed, classes stay, and tables lose no key. */
  ghost predicate Extends(g: Graph, h: Graph) {
    && Grows(g.methods, h.methods)
    && forall n :: n in g.classes ==>
         && n in h.classes && h.classes[n].node == g.classes[n].node
         && g.classes[n].methods.at.Keys <= h.classes[n].methods.at.Keys
  }

  lemma MemberExtends(g: Graph, c: ModelClass, k: Key, m: ModelMethod)
    requires g.Shaped() && g.HasClass(c) && (k.Signature? ==> k !in g.methods)
    ensures Extends(g, WithMember(g, c, k, m))
  {
    assert g.ClassShape(c.name);
  }

  /** A member may join a class as a newly indexed signature, or as an inherited slot. */
  ghost predicate MayJoin(g: Graph, c: ModelClass, k: Key, m: ModelMethod, stale: set<Sig>) {
    && g.HasClass(c)
    && ((k == Signature(m.sig) && m.sig.fqcn == c.name && k !in g.methods)
        || (k == ByFqcn(c.name) && g.Listed(m, stale)))
  }

  lemma MemberShape(g: Graph, c: ModelClass, k: Key, m: ModelMethod)
    requires g.Shaped() && g.HasClass(c) && ((k == Signature(m.sig) && m.sig.fqcn == c.name) || k == ByFqcn(c.name))
    ensures WithMember(g, c, k, m).Shaped()
  {
    hide Graph.ClassShape, Joining;
    var h := WithMember(g, c, k, m);
    assert forall d :: g.HasClass(d) ==> h.HasClass(d) by {
      JoinedView(g, c, k, m);
    }
    forall n | n in h.classes
      ensures h.ClassShape(n)
    {
      if n == c.name {
        JoinedShape(g, h, c, k, m);
      } else {
        OtherShape(g, h, n);
      }
    }
  }

  lemma JoinedView(g: Graph, c: ModelClass, k: Key, m: ModelMethod)
    requires g.Shaped() && g.HasClass(c)
    ensures g.classes[c.name].methods.Valid() && Joining(g.classes[c.name], k, m).node == c
  {
    assert g.ClassShape(c.name);
  }

  lemma JoinedShape(g: Graph, h: Graph, c: ModelClass, k: Key, m: ModelMethod)
    requires g.Shaped() && g.HasClass(c) && ((k == Signature(m.sig) && m.sig.fqcn == c.name) || k == ByFqcn(c.name))
    requires c.name in h.classes && h.classes[c.name] == WithMember(g, c, k, m).classes[c.name] && h.rank == g.rank
    requires forall d :: g.HasClass(d) ==> h.HasClass(d)
    ensures h.ClassShape(c.name)
  {
    assert g.ClassShape(c.name);
  }

  lemma OtherShape(g: Graph, h: Graph, n: string)
    requires g.Shaped() && n in g.classes && n in h.classes && h.classes[n] == g.classes[n] && h.rank == g.rank
    requires forall d :: g.HasClass(d) ==> h.HasClass(d)
    ensures h.ClassShape(n)
  {
    assert g.ClassShape(n);
  }

  /** A member that was indexed still is. */
  lemma KeepsIndexed(g: Graph, c: ModelClass, k: Key, m: ModelMethod, o: ModelMethod, j: Key, stale: set<Sig>)
    requires g.Shaped() && MayJoin(g, c, k, m, stale) && g.Indexed(o, j, stale) && j != k
    ensures WithMember(g, c, k, m).Indexed(o, j, stale)
  {
    hide Graph.Shaped, Graph.Listed;
  }

  /** So is the new one. */
  lemma JoinsIndexed(g: Graph, c: ModelClass, k: Key, m: ModelMethod, stale: set<Sig>)
    requires g.Shaped() && MayJoin(g, c, k, m, stale)
    ensures WithMember(g, c, k, m).Indexed(m, k, stale)
  {
    hide Graph.Shaped;
  }

  lemma MemberIndexes(g: Graph, c: ModelClass, k: Key, m: ModelMethod, n: string, stale: set<Sig>)
    requires g.Shaped() && MayJoin(g, c, k, m, stale) && n in g.classes && g.MembersIndexed(n, stale)
    ensures WithMember(g, c, k, m).MembersIndexed(n, stale)
  {
    hide Graph.Indexed, Graph.Listed;
    var h := WithMember(g, c, k, m);
    var t := h.classes[n].methods;
    assert g.ClassShape(n) && g.ClassShape(c.name);
    JoinsIndexed(g, c, k, m, stale);
    forall j | j in t.at
      ensures h.Indexed(t.at[j], j, stale)
    {
      if j != k {
        KeepsIndexed(g, c, k, m, t.at[j], j, stale);
      }
    }
    FieldsFrame(g, h, n);
  }

  lemma MemberEntry(g: Graph, c: ModelClass, k: Key, m: ModelMethod, j: Key, stale: set<Sig>)
    requires g.Shaped() && MayJoin(g, c, k, m, stale) && j in WithMember(g, c, k, m).methods
    requires j != k ==> g.MethodEntry(j, stale)
    ensures WithMember(g, c, k, m).MethodEntry(j, stale)
  {
    assert g.ClassShape(c.name);
  }

  /** Creating a missing method, or sharing an inherited one, keeps the indexes consistent. */
  lemma MemberKeeps(g: Graph, c: ModelClass, k: Key, m: ModelMethod, stale: set<Sig>)
    requires g.Consistent({}, stale) && MayJoin(g, c, k, m, stale)
    ensures WithMember(g, c, k, m).Consistent({}, stale)
  {
    hide Graph.ClassShape, Graph.MembersIndexed, Graph.MethodEntry;
    var h := WithMember(g, c, k, m);
    MemberShape(g, c, k, m);
    forall n | n in h.classes
      ensures h.MembersIndexed(n, stale)
    {
      ClassNamed(g, c.name);
      MemberIndexes(g, c, k, m, n, stale);
    }
    forall j | j in h.methods
      ensures h.MethodEntry(j, stale)
    {
      MemberEntry(g, c, k, m, j, stale);
    }
  }

  /** Sharing an inherited method under the FQCN of the inheriting class does not change what
      the reference denotes. */
  lemma SlotKeepsLookup(g: Graph, c: ModelClass, ref: Sig, m: ModelMethod)
    requires g.Shaped() && g.HasClass(c) && ref.fqcn == c.name && Signature(ref) !in g.methods
    requires Lookup(g, ref) == Some(m)
    ensures WithMember(g, c, ByFqcn(c.name), m).Shaped()
    ensures Lookup(WithMember(g, c, ByFqcn(c.name), m), ref) == Some(m)
    ensures Above(WithMember(g, c, ByFqcn(c.name), m), ref) == Above(g, ref)
  {
    hide Inherited, Table.Put, Table.Valid, SameBelow;
    MemberShape(g, c, ByFqcn(c.name), m);
    assert g.ClassShape(c.name);
    var h := WithMember(g, c, ByFqcn(c.name), m);
    var up := g.classes[c.name].superClass.cls.name;
    SlotAbove(g, c, m, up);
    InheritedFrame(g, h, up, ref.name);
  }

  lemma SlotAbove(g: Graph, c: ModelClass, m: ModelMethod, up: string)
    requires g.Shaped() && g.HasClass(c) && g.rank(up) < g.rank(c.name)
    ensures SameBelow(g, WithMember(g, c, ByFqcn(c.name), m), up)
  {
    hide Graph.Shaped, Table.Put;
  }

  /** The shared node stays listed, and as current as it was. */
  lemma SlotListed(g: Graph, c: ModelClass, m: ModelMethod, stale: set<Sig>)
    requires g.Shaped() && g.HasClass(c) && g.Listed(m, stale)
    ensures var h := WithMember(g, c, ByFqcn(c.name), m);
      h.Listed(m, stale) && (h.HasMethod(m) <==> g.HasMethod(m))
  {
    assert WithMember(g, c, ByFqcn(c.name), m).methods[ByFqcn(c.name)] == m;
  }

  // ---------- the resolver ----------

  method FindMember(table: Table<ModelMethod>, name: string) returns (r: Option<ModelMethod>)
    requires table.Valid()
    ensures r == FirstAdmissible(table.keys, table.at, name)
  {
    var keys := table.keys;
    for i := 0 to |keys|
      invariant FirstAdmissible(keys, table.at, name) == FirstAdmissible(keys[i..], table.at, name)
    {
      assert keys[i] in keys;
      var m := table.at[keys[i]];
      if m.sig.name == name {
        if m.missing || !m.isPrivate {
          return Some(m);
        }
      }
      assert keys[i..][1..] == keys[i + 1..];
    }
    r := None;
  }

  /** One step of the walk, as the search takes it. */
  lemma WalkOf(g: Graph, n: string, name: string)
    requires g.Shaped() && n in g.classes
    ensures var c := g.classes[n];
      var f, up := FirstAdmissible(c.methods.keys, c.methods.at, name), c.superClass;
      && c.methods.Valid() && (up.Resolved? ==> g.HasClass(up.cls) && g.rank(up.cls.name) < g.rank(n))
      && Inherited(g, n, name) ==
           if f.Some? then Some(Found(f.value, c.node))
           else if up.Resolved? then Inherited(g, up.cls.name, name) else None
  {
    hide FirstAdmissible;
    assert g.ClassShape(n);
  }

  method FindInherited(db: AnalyzerDatabase, name: string, c: ModelClass) returns (r: Option<Found>)
    requires db.View().Shaped() && db.View().HasClass(c)
    ensures r == old(Inherited(db.View(), c.name, name))
    decreases db.rank(c.name)
  {
    hide FirstAdmissible, Graph.Shaped, Graph.ClassShape, Table.Valid;
    ghost var v := db.View();
    WalkOf(v, c.name, name);
    assert c.View() == v.classes[c.name];
    var found := FindMember(c.methods, name);
    if found.Some? {
      r := Some(Found(found.value, c));
    } else if c.superClass.Resolved? {
      r := FindInherited(db, name, c.superClass.cls);
    } else {
      r := None;
    }
  }

  /** A method found by the walk is declared where it was enclosed, and enclosed where it
      was met. */
  method Rebind(db: AnalyzerDatabase, m: ModelMethod, c: ModelClass, ghost nodes: set<ModelMethod>)
    modifies m`enclosing, m`declaring
    ensures db.View() == old(db.View())
    ensures m.declaring == old(m.enclosing) && m.enclosing == c
    ensures PlacesOf(nodes) == old(Moved(PlacesOf(nodes), Some(Found(m, c))))
    ensures CallersOf(nodes) == old(CallersOf(nodes))
  {
    m.declaring := m.enclosing;
    m.enclosing := c;
  }

  method ResolveInheritedMethod(db: AnalyzerDatabase, name: string, c: ModelClass, ghost nodes: set<ModelMethod>,
      ghost stale: set<Sig>) returns (r: Option<ModelMethod>)
    requires db.View().Consistent({}, stale) && db.View().HasClass(c)
    modifies db.methods.Values`enclosing, db.methods.Values`declaring
    ensures db.View() == old(db.View())
    ensures r == old(InheritedMethod(db.View(), c.name, name))
    ensures r.Some? ==> old(db.View()).Listed(r.value, stale) && r.value in old(db.methods.Values)
    ensures r.Some? && !r.value.missing ==>
      && r.value.declaring == old(r.value.enclosing)
      && r.value.enclosing == old(Inherited(db.View(), c.name, name).value.holder)
    ensures var f := old(Inherited(db.View(), c.name, name));
      PlacesOf(nodes) == old(Moved(PlacesOf(nodes), if f.Some? && !f.value.meth.missing then f else None))
    ensures CallersOf(nodes) == old(CallersOf(nodes))
  {
    hide *;
    WalkParts(db, name, c, stale);
    MovedAt(PlacesOf(nodes), None);
    var found := FindInherited(db, name, c);
    if found.None? {
      return None;
    }
    var m := found.value.meth;
    if !m.missing {
      Rebind(db, m, found.value.holder, nodes);
    }
    r := Some(m);
  }

  lemma WalkParts(db: AnalyzerDatabase, name: string, c: ModelClass, stale: set<Sig>)
    requires db.View().Consistent({}, stale) && db.View().HasClass(c)
    ensures db.View().Shaped() && c.name in db.View().classes
    ensures var f := Inherited(db.View(), c.name, name);
      && InheritedMethod(db.View(), c.name, name) == (if f.Some? then Some(f.value.meth) else None)
      && (f.Some? ==> db.View().Listed(f.value.meth, stale) && f.value.meth in db.methods.Values)
  {
    hide Inherited, Graph.Consistent;
    ShapedOf(db.View(), {}, stale);
    if Inherited(db.View(), c.name, name).Some? {
      InheritedIndexed(db.View(), c.name, name, stale);
    }
  }

  method CreateMissingClass(db: AnalyzerDatabase, fqcn: string, ghost pending: set<string>, ghost stale: set<Sig>)
      returns (c: ModelClass)
    requires db.View().Consistent(pending, stale) && fqcn !in db.classes
    modifies db`classes, db`missing
    ensures db.View().Consistent(pending, stale)
    ensures fresh(c) && c.name == fqcn && c.missing && c.superClass == NoSuper && c.interfaces == []
    ensures db.classes == old(db.classes)[fqcn := c] && db.missing == old(db.missing) + [MissingClass(c)]
    ensures db.View() == old(db.View()).WithClass(c, c.View())
    ensures c.View() == EmptyView(c)
  {
    ghost var v := db.View();
    c := new ModelClass(fqcn, true);
    assert db.View() == v;
    db.classes := db.classes[fqcn := c];
    db.missing := db.missing + [MissingClass(c)];
    assert db.View().classes == v.classes[c.name := c.View()];
    EmptyClassKeeps(v, c, pending, stale);
  }

  method ResolveType(db: AnalyzerDatabase, fqcn: string, ghost pending: set<string>, ghost stale: set<Sig>)
      returns (c: ModelClass)
    requires db.View().Consistent(pending, stale)
    modifies db`classes, db`missing
    ensures db.View().Consistent(pending, stale) && db.View().HasClass(c) && c.name == fqcn
    ensures db.View() == WithMissing(old(db.View()), c) && fqcn in db.classes && db.classes[fqcn] == c
    ensures fqcn in old(db.classes) ==> db.classes == old(db.classes) && db.missing == old(db.missing)
    ensures fqcn !in old(db.classes) ==>
      && fresh(c) && c.missing && c.superClass == NoSuper && c.View() == EmptyView(c)
      && db.classes == old(db.classes)[fqcn := c] && db.missing == old(db.missing) + [MissingClass(c)]
  {
    if fqcn in db.classes {
      c := db.classes[fqcn];
      assert db.View().ClassShape(fqcn);
    } else {
      c := CreateMissingClass(db, fqcn, pending, stale);
    }
  }

  method CreateMissingMethod(db: AnalyzerDatabase, ref: Sig, cls: ModelClass, isStatic: bool, ghost stale: set<Sig>)
      returns (m: ModelMethod)
    requires db.View().Consistent({}, stale) && db.View().HasClass(cls)
    requires cls.name == ref.fqcn && Signature(ref) !in db.methods
    modifies db`methods, db`missing, cls`methods
    ensures db.View() == WithMember(old(db.View()), cls, Signature(ref), m)
    ensures fresh(m) && IsMissingMethod(m, ref, isStatic) && m.enclosing == cls && m.declaring == null
    ensures db.View().Listed(m, stale) && db.View().HasMethod(m)
    ensures db.missing == old(db.missing) + [MissingMethod(m)] && db.methods == old(db.methods)[Signature(ref) := m]
    ensures db.View().Consistent({}, stale) && Lookup(db.View(), ref) == Some(m)
    ensures Extends(old(db.View()), db.View())
  {
    hide Graph.Consistent, Graph.Shaped, Graph.ClassShape, Extends, Graph.Listed, Table.Valid;
    ghost var v := db.View();
    TableOf(db, cls, stale);
    m := new ModelMethod(ref, true, false, isStatic, cls, []);
    cls.methods := cls.methods.Put(Signature(ref), m);
    db.methods := db.methods[Signature(ref) := m];
    db.missing := db.missing + [MissingMethod(m)];
    ViewWithMember(v, db, cls, Signature(ref), m);
    MemberExtends(v, cls, Signature(ref), m);
    MemberKeeps(v, cls, Signature(ref), m, stale);
    ShapedOf(db.View(), {}, stale);
    CurrentListed(db, m, stale);
  }

  lemma CurrentListed(db: AnalyzerDatabase, m: ModelMethod, stale: set<Sig>)
    requires Signature(m.sig) in db.methods && db.methods[Signature(m.sig)] == m
    ensures db.View().Listed(m, stale) && db.View().HasMethod(m)
  {
  }

  lemma TableOf(db: AnalyzerDatabase, cls: ModelClass, stale: set<Sig>)
    requires db.View().Consistent({}, stale) && db.View().HasClass(cls)
    ensures db.View().Shaped() && cls.methods.Valid() && db.View().classes[cls.name] == cls.View()
    ensures forall n :: n in db.classes ==> db.View().classes[n] == db.classes[n].View() && db.classes[n].name == n
  {
    assert forall n :: n in db.View().classes ==> db.View().ClassShape(n);
  }

  /** The graph once the class and the index hold the member. */
  lemma ViewWithMember(v: Graph, db: AnalyzerDatabase, cls: ModelClass, k: Key, m: ModelMethod)
    requires v.Shaped() && v.HasClass(cls) && v.classes[cls.name].methods.Valid()
    requires db.classes.Keys == v.classes.Keys && forall n :: n in db.classes && n != cls.name ==>
      db.classes[n].View() == v.classes[n]
    requires db.classes[cls.name].View() == Joining(v.classes[cls.name], k, m)
    requires db.methods == v.methods[k := m] && db.fields == v.fields && db.rank == v.rank
    ensures db.View() == WithMember(v, cls, k, m)
  {
    hide Graph.Shaped, Table.Put, Table.Valid;
    assert db.View().classes == WithMember(v, cls, k, m).classes;
  }

  /** A node for a method that was found nowhere: public, without code, callers or calls. */
  ghost predicate IsMissingMethod(m: ModelMethod, ref: Sig, isStatic: bool)
    reads m
  {
    && m.sig == ref && m.missing && !m.isPrivate && m.isStatic == isStatic
    && m.instr == [] && m.callers == [] && m.useMethod == map[] && m.useMethodCtr == 0
  }

  method ShareInherited(db: AnalyzerDatabase, ref: Sig, cls: ModelClass, m: ModelMethod, ghost stale: set<Sig>)
    requires db.View().Consistent({}, stale) && db.View().HasClass(cls) && db.View().Listed(m, stale)
    requires cls.name == ref.fqcn
    modifies db`methods, cls`methods, cls`inherit
    ensures db.View() == WithMember(old(db.View()), cls, ByFqcn(ref.fqcn), m)
    ensures db.View().Consistent({}, stale)
  {
    hide Graph.Consistent, Graph.Shaped, Graph.ClassShape, Graph.Listed, Table.Valid;
    ghost var v := db.View();
    TableOf(db, cls, stale);
    cls.AddInheritedMethod(ref, m);
    db.methods := db.methods[ByFqcn(ref.fqcn) := m];
    ViewWithMember(v, db, cls, ByFqcn(ref.fqcn), m);
    MemberKeeps(v, cls, ByFqcn(ref.fqcn), m, stale);
  }

  /** The graph with a class of that name, which is empty if it is new. */
  ghost function WithMissing(g: Graph, c: ModelClass): Graph {
    if c.name in g.classes then g else g.WithClass(c, EmptyView(c))
  }

  /** What one resolution, by a static call or not, does to the graph: nothing if the reference is indexed; a
      slot in the named class if it is inherited; else a new missing method, in a missing class if need be. */
  ghost predicate Resolves(g: Graph, ref: Sig, isStatic: bool, r: ModelMethod, h: Graph)
    requires g.Shaped()
  {
    if Signature(ref) in g.methods then r == g.methods[Signature(ref)] && h == g
    else if Lookup(g, ref).Some? then
      assert g.ClassShape(ref.fqcn);
      Lookup(g, ref) == Some(r) && h == WithMember(g, g.classes[ref.fqcn].node, ByFqcn(ref.fqcn), r)
    else Creates(g, ref, isStatic, r, h)
  }

  ghost predicate Creates(g: Graph, ref: Sig, isStatic: bool, r: ModelMethod, h: Graph)
    requires g.Shaped()
  {
    && r.sig == ref && r.missing && !r.isPrivate && r.isStatic == isStatic && ref.fqcn in h.classes
    && var c := h.classes[ref.fqcn].node;
       var base := WithMissing(g, c);
       c.name == ref.fqcn && base.Shaped() && base.HasClass(c) && h == WithMember(base, c, Signature(ref), r)
  }

  /** The reference denotes nothing yet, or the node that is indexed under the signature of that node. */
  ghost predicate CurrentRef(g: Graph, ref: Sig)
    requires g.Shaped()
  {
    Lookup(g, ref).Some? ==> g.HasMethod(Lookup(g, ref).value)
  }

  /** The walk from the superclass of the named class. */
  method InheritFrom(db: AnalyzerDatabase, ref: Sig, cls: ModelClass, ghost nodes: set<ModelMethod>,
      ghost stale: set<Sig>)
      returns (r: Option<ModelMethod>)
    requires db.View().Consistent({}, stale) && db.View().HasClass(cls)
    requires cls.name == ref.fqcn && Signature(ref) !in db.methods
    modifies db.methods.Values`enclosing, db.methods.Values`declaring
    ensures db.View() == old(db.View()) && r == old(Lookup(db.View(), ref))
    ensures r.Some? ==> r.value in db.methods.Values && db.View().Listed(r.value, stale)
    ensures PlacesOf(nodes) == old(Moved(PlacesOf(nodes), Rebinding(db.View(), ref)))
    ensures CallersOf(nodes) == old(CallersOf(nodes))
  {
    hide Graph.MembersIndexed, Graph.MethodsCanonical, Graph.Listed, Inherited;
    ghost var v := db.View();
    assert v.ClassShape(cls.name);
    assert v.classes[cls.name].superClass == cls.superClass;
    if cls.superClass.Resolved? {
      r := ResolveInheritedMethod(db, ref.name, cls.superClass.cls, nodes, stale);
    } else {
      r := None;
    }
  }

  /** Step 2 of the resolution: an inherited member becomes a member of the class, is declared where it
      was enclosed, and enclosed where it was met. */
  method ResolveByInheritance(db: AnalyzerDatabase, ref: Sig, cls: ModelClass, ghost isStatic: bool,
      ghost nodes: set<ModelMethod>, ghost stale: set<Sig>)
      returns (r: Option<ModelMethod>)
    requires db.View().Consistent({}, stale) && db.View().HasClass(cls)
    requires cls.name == ref.fqcn && Signature(ref) !in db.methods
    modifies db`methods, cls`methods, cls`inherit
    modifies db.methods.Values`enclosing, db.methods.Values`declaring
    ensures r == old(Lookup(db.View(), ref))
    ensures PlacesOf(nodes) == old(Moved(PlacesOf(nodes), Rebinding(db.View(), ref)))
    ensures CallersOf(nodes) == old(CallersOf(nodes))
    ensures r.None? ==> db.View() == old(db.View()) && db.methods == old(db.methods)
    ensures Extends(old(db.View()), db.View())
    ensures r.Some? ==> r.value in old(db.methods.Values)
    ensures r.Some? ==>
      && old(db.View()).Listed(r.value, stale) && db.View().Listed(r.value, stale)
      && (db.View().HasMethod(r.value) <==> old(db.View()).HasMethod(r.value))
      && db.methods == old(db.methods)[ByFqcn(ref.fqcn) := r.value]
      && Resolves(old(db.View()), ref, isStatic, r.value, db.View())
      && db.View().Consistent({}, stale) && Lookup(db.View(), ref) == r
  {
    hide *;
    ghost var v := db.View();
    ClassParts(db, cls, stale);
    SameExtends(v);
    r := InheritFrom(db, ref, cls, nodes, stale);
    if r.Some? {
      SlotKeepsLookup(v, cls, ref, r.value);
      SlotListed(v, cls, r.value, stale);
      MemberExtends(v, cls, ByFqcn(cls.name), r.value);
      ShareInherited(db, ref, cls, r.value, stale);
      InheritsSo(v, ref, isStatic, cls, r.value);
      InView(db);
    }
  }

  lemma SameExtends(g: Graph)
    ensures Extends(g, g)
  {
  }

  lemma ClassParts(db: AnalyzerDatabase, cls: ModelClass, stale: set<Sig>)
    requires db.View().Consistent({}, stale) && db.View().HasClass(cls)
    ensures db.View().Shaped() && db.View().methods == db.methods
  {
  }

  lemma InheritsSo(g: Graph, ref: Sig, isStatic: bool, c: ModelClass, r: ModelMethod)
    requires g.Shaped() && g.HasClass(c) && c.name == ref.fqcn && Signature(ref) !in g.methods
    requires Lookup(g, ref) == Some(r)
    ensures Resolves(g, ref, isStatic, r, WithMember(g, c, ByFqcn(ref.fqcn), r))
    ensures WithMember(g, c, ByFqcn(ref.fqcn), r).methods == g.methods[ByFqcn(ref.fqcn) := r]
  {
    hide Lookup;
  }

  /** What a resolution adds to the database when the reference denotes nothing. */
  ghost predicate CreatedFor(ref: Sig, r: ModelMethod, before: map<string, ModelClass>, after: map<string, ModelClass>,
      m: seq<MissingNode>, n: seq<MissingNode>)
  {
    if ref.fqcn in before then after == before && n == m + [MissingMethod(r)]
    else
      && ref.fqcn in after && after[ref.fqcn].missing && after == before[ref.fqcn := after[ref.fqcn]]
      && n == m + [MissingClass(after[ref.fqcn]), MissingMethod(r)]
  }

  /** The last step of the resolution: a missing method, in a missing class if need be. */
  method CreateMissing(db: AnalyzerDatabase, ref: Sig, isStatic: bool, ghost nodes: set<ModelMethod>,
      ghost stale: set<Sig>) returns (r: ModelMethod)
    requires db.View().Consistent({}, stale) && Signature(ref) !in db.methods
    modifies db`classes, db`methods, db`missing, db.classes.Values`methods
    ensures db.View().Consistent({}, stale) && Lookup(db.View(), ref) == Some(r)
    ensures db.View().Listed(r, stale) && db.View().HasMethod(r)
    ensures fresh(r) && IsMissingMethod(r, ref, isStatic) && db.methods == old(db.methods)[Signature(ref) := r]
    ensures ref.fqcn in db.classes && r.enclosing == db.classes[ref.fqcn] && r.declaring == null
    ensures CreatedFor(ref, r, old(db.classes), db.classes, old(db.missing), db.missing)
    ensures fresh(db.classes.Values - old(db.classes.Values)) && Extends(old(db.View()), db.View())
    ensures old(db.View()).Shaped() && Creates(old(db.View()), ref, isStatic, r, db.View())
    ensures PlacesOf(nodes) == old(PlacesOf(nodes)) && CallersOf(nodes) == old(CallersOf(nodes))
  {
    hide Graph.Consistent, Graph.Shaped, Graph.ClassShape, Lookup, Extends, WithMissing, WithMember, Creates;
    hide Graph.Listed, PlacesOf, CallersOf, ModelClass.View, Graph.HasMethod;
    ghost var g := db.View();
    ShapedOf(g, {}, stale);
    var cls := ClassFor(db, ref.fqcn, stale);
    ghost var h := db.View();
    r := CreateMissingMethod(db, ref, cls, isStatic, stale);
    ExtendsTwice(g, h, db.View());
    ShapedOf(h, {}, stale);
    CreatedSo(g, ref, isStatic, cls, r, db.View());
  }

  lemma CreatedSo(g: Graph, ref: Sig, isStatic: bool, c: ModelClass, r: ModelMethod, h: Graph)
    requires g.Shaped() && c.name == ref.fqcn && r.sig == ref && r.missing && !r.isPrivate && r.isStatic == isStatic
    requires WithMissing(g, c).Shaped() && WithMissing(g, c).HasClass(c)
    requires h == WithMember(WithMissing(g, c), c, Signature(ref), r)
    ensures Creates(g, ref, isStatic, r, h)
  {
  }

  lemma ExtendsTwice(g: Graph, h: Graph, k: Graph)
    requires Extends(g, h) && Extends(h, k)
    ensures Extends(g, k)
  {
  }

  /** The class of that name, created as missing if need be. */
  method ClassFor(db: AnalyzerDatabase, fqcn: string, ghost stale: set<Sig>) returns (c: ModelClass)
    requires db.View().Consistent({}, stale)
    modifies db`classes, db`missing
    ensures db.View().Consistent({}, stale) && db.View().HasClass(c) && c.name == fqcn
    ensures Extends(old(db.View()), db.View()) && db.methods == old(db.methods)
    ensures fqcn in old(db.classes) ==>
      db.classes == old(db.classes) && db.missing == old(db.missing) && c == db.classes[fqcn]
    ensures fqcn !in old(db.classes) ==>
      && fresh(c) && c.missing
      && db.classes == old(db.classes)[fqcn := c] && db.missing == old(db.missing) + [MissingClass(c)]
    ensures db.View() == WithMissing(old(db.View()), c)
  {
    hide Graph.Consistent, Graph.ClassShape;
    if fqcn in db.classes {
      c := db.classes[fqcn];
      ShapedOf(db.View(), {}, stale);
      ClassNamed(db.View(), fqcn);
    } else {
      c := CreateMissingClass(db, fqcn, {}, stale);
    }
  }

  lemma ShapedOf(g: Graph, pending: set<string>, stale: set<Sig>)
    requires g.Consistent(pending, stale)
    ensures g.Shaped() && g.MethodsCanonical(stale)
  {
  }

  lemma ResolvedSo(g: Graph, ref: Sig, isStatic: bool, r: ModelMethod, h: Graph)
    requires g.Shaped()
    requires if Signature(ref) in g.methods then r == g.methods[Signature(ref)] && h == g
             else Lookup(g, ref).None? && Creates(g, ref, isStatic, r, h)
    ensures Resolves(g, ref, isStatic, r, h)
  {
    hide Creates, Lookup, WithMember;
  }

  /** What the database says of a reference before it is resolved. */
  lemma LookupCases(db: AnalyzerDatabase, ref: Sig, stale: set<Sig>)
    requires db.View().Consistent({}, stale)
    ensures db.View().Shaped() && Extends(db.View(), db.View()) && db.View().methods == db.methods
    ensures Signature(ref) in db.methods ==>
      var r := db.methods[Signature(ref)];
      Lookup(db.View(), ref) == Some(r) && db.View().HasMethod(r) && db.View().Listed(r, stale)
    ensures Signature(ref) !in db.methods && ref.fqcn !in db.classes ==> Lookup(db.View(), ref) == None
    ensures Signature(ref) in db.methods || ref.fqcn !in db.classes ==> Rebinding(db.View(), ref) == None
    ensures Rebinding(db.View(), ref).Some? ==> Lookup(db.View(), ref) == Some(Rebinding(db.View(), ref).value.meth)
    ensures Signature(ref) !in db.methods && Lookup(db.View(), ref).Some? && !Lookup(db.View(), ref).value.missing ==>
      && Rebinding(db.View(), ref) == Above(db.View(), ref) && Rebinding(db.View(), ref).Some?
      && Some(Rebinding(db.View(), ref).value.meth) == Lookup(db.View(), ref)
    ensures ref.fqcn in db.classes ==>
      db.View().HasClass(db.classes[ref.fqcn]) && db.classes[ref.fqcn].name == ref.fqcn
  {
    if Signature(ref) in db.methods {
      IndexedMethod(db.View(), ref, stale);
    }
    if ref.fqcn in db.classes {
      ClassNamed(db.View(), ref.fqcn);
    }
  }

  /** Resolves a method reference; never fails. The result is the indexed method, else the
      inherited one, else a missing method; and from then on the reference denotes it. The result
      is the indexed node of its signature, unless it was inherited from a stale slot. */
  method ResolveMethod(db: AnalyzerDatabase, ref: Sig, isStatic: bool, ghost nodes: set<ModelMethod>,
      ghost stale: set<Sig>) returns (r: ModelMethod)
    requires db.View().Consistent({}, stale) && db.methods.Values <= nodes
    modifies db`classes, db`methods, db`missing
    modifies db.classes.Values`methods, db.classes.Values`inherit
    modifies db.methods.Values`enclosing, db.methods.Values`declaring
    ensures db.View().Consistent({}, stale) && db.View().Listed(r, stale) && Lookup(db.View(), ref) == Some(r)
    ensures fresh(db.classes.Values - old(db.classes.Values)) && fresh(db.methods.Values - old(db.methods.Values))
    ensures Extends(old(db.View()), db.View())
    ensures db.View().HasMethod(r) <==>
      old(Lookup(db.View(), ref)).None? || old(db.View()).HasMethod(r)
    ensures Signature(ref) in old(db.methods) ==>
      r == old(db.methods)[Signature(ref)] && db.View() == old(db.View()) && db.missing == old(db.missing)
    ensures Signature(ref) !in old(db.methods) && old(Lookup(db.View(), ref)).Some? ==>
      && Some(r) == old(Lookup(db.View(), ref)) && old(db.View()).Listed(r, stale)
      && db.classes == old(db.classes) && db.missing == old(db.missing)
      && db.methods == old(db.methods)[ByFqcn(ref.fqcn) := r]
    ensures Resolves(old(db.View()), ref, isStatic, r, db.View())
    ensures old(Lookup(db.View(), ref)).None? ==>
      && fresh(r) && IsMissingMethod(r, ref, isStatic) && db.methods == old(db.methods)[Signature(ref) := r]
      && ref.fqcn in db.classes && r.enclosing == db.classes[ref.fqcn] && r.declaring == null
      && CreatedFor(ref, r, old(db.classes), db.classes, old(db.missing), db.missing)
    ensures PlacesOf(nodes) == old(Moved(PlacesOf(nodes), Rebinding(db.View(), ref)))
    ensures CallersOf(nodes) == old(CallersOf(nodes))
    ensures Signature(ref) !in old(db.methods) && old(Lookup(db.View(), ref)).Some? && !r.missing ==>
      var f := old(Above(db.View(), ref));
      f.Some? && r in old(db.methods.Values) && r.declaring == old(r.enclosing) && r.enclosing == f.value.holder
  {
    hide *;
    ghost var v := db.View();
    LookupCases(db, ref, stale);
    MovedAt(PlacesOf(nodes), Rebinding(v, ref));
    if Signature(ref) in db.methods {
      r := db.methods[Signature(ref)];
      InView(db);
      ResolvedSo(v, ref, isStatic, r, v);
      return;
    }
    if ref.fqcn in db.classes {
      var m := ResolveByInheritance(db, ref, db.classes[ref.fqcn], isStatic, nodes, stale);
      if m.Some? {
        return m.value;
      }
    }
    r := CreateMissing(db, ref, isStatic, nodes, stale);
    ResolvedSo(v, ref, isStatic, r, db.View());
    assert old(Lookup(db.View(), ref)).None?;
  }

  lemma InView(db: AnalyzerDatabase)
    ensures db.View().methods == db.methods
  {
  }

  lemma RebindingParts(g: Graph, ref: Sig)
    requires g.Shaped() && Rebinding(g, ref).Some?
    ensures Above(g, ref) == Rebinding(g, ref) && Signature(ref) !in g.methods && ref.fqcn in g.classes
    ensures Lookup(g, ref) == Some(Rebinding(g, ref).value.meth) && !Rebinding(g, ref).value.meth.missing
  {
  }

  /** After a method was bound anew, resolving the same reference again would do so again. */
  lemma RebindsAgain(g: Graph, ref: Sig, isStatic: bool, r: ModelMethod, h: Graph, stale: set<Sig>)
    requires g.Consistent({}, stale) && h.Shaped() && Resolves(g, ref, isStatic, r, h) && Rebinding(g, ref).Some?
    ensures Rebinding(h, ref) == Rebinding(g, ref) && Rebinding(g, ref).value.meth == r
    ensures r in g.methods.Values
  {
    hide Graph.Consistent, Graph.Shaped, Graph.ClassShape, Inherited;
    ShapedOf(g, {}, stale);
    ClassNamed(g, ref.fqcn);
    LookupNamed(g, ref, stale);
    SlotKeepsLookup(g, g.classes[ref.fqcn].node, ref, r);
    hide Above;
    assert Signature(ref) !in h.methods;
  }

  /** Resolving the same reference twice gives the same node and creates nothing more. But a method that
      was bound anew is bound anew again, and so forgets where it was declared. */
  method ResolveTwice(db: AnalyzerDatabase, ref: Sig, isStatic: bool, ghost stale: set<Sig>)
      returns (r: ModelMethod, again: ModelMethod, ghost missing: seq<MissingNode>)
    requires db.View().Consistent({}, stale)
    modifies db`classes, db`methods, db`missing
    modifies db.classes.Values`methods, db.classes.Values`inherit
    modifies db.methods.Values`enclosing, db.methods.Values`declaring
    ensures again == r && db.missing == missing
    ensures missing == old(db.missing) <==> old(Lookup(db.View(), ref)).Some?
    ensures var f := old(Rebinding(db.View(), ref));
      f.Some? ==> r == f.value.meth && r.enclosing == f.value.holder && r.declaring == f.value.holder
  {
    hide *;
    ghost var g := db.View();
    InView(db);
    ShapedOf(g, {}, stale);
    ghost var before, m := db.classes, db.missing;
    if Rebinding(g, ref).Some? {
      RebindingParts(g, ref);
    }
    r := ResolveMethod(db, ref, isStatic, db.methods.Values, stale);
    missing := db.missing;
    if Lookup(g, ref).None? {
      AddsMissing(ref, r, before, db.classes, m, missing);
    }
    ShapedOf(db.View(), {}, stale);
    if Rebinding(g, ref).Some? {
      RebindsAgain(g, ref, isStatic, r, db.View(), stale);
      RebindingParts(db.View(), ref);
      ListedIn(db, r, stale);
      assert r.enclosing == Rebinding(g, ref).value.holder;
      InView(db);
    }
    again := ResolveMethod(db, ref, isStatic, db.methods.Values, stale);
  }

  lemma AddsMissing(ref: Sig, r: ModelMethod, before: map<string, ModelClass>, after: map<string, ModelClass>,
      m: seq<MissingNode>, n: seq<MissingNode>)
    requires CreatedFor(ref, r, before, after, m, n)
    ensures n != m
  {
  }

  lemma ListedIn(db: AnalyzerDatabase, r: ModelMethod, stale: set<Sig>)
    requires db.View().Listed(r, stale)
    ensures r in db.methods.Values
  {
  }
}
