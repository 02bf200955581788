/** The package forest: nodes named by dotted paths, each listed by its direct parent. */
module Packages {
  import opened Text

  const DOT := '.'

  datatype Child = SubPackage(name: string) | ClassChild(name: string)

  /** Which children each package lists, in order. */
  type Forest = map<string, seq<Child>>

  // ---------- specification ----------

  ghost predicate HasParent(n: string) {
    |Split(n, DOT)| > 1
  }

  ghost function Parent(n: string): string
    requires HasParent(n)
  {
    var parts := Split(n, DOT);
    Join(parts[..|parts| - 1], DOT)
  }

  ghost predicate IsPath(parts: seq<string>) {
    |parts| > 0 && forall p :: p in parts ==> DOT !in p
  }

  /** The package named by the first segments of a path. */
  ghost function Prefix(parts: seq<string>, k: nat): string
    requires 0 < k <= |parts|
  {
    Join(parts[..k], DOT)
  }

  lemma PrefixSplit(parts: seq<string>, k: nat)
    requires IsPath(parts) && 0 < k <= |parts|
    ensures Split(Prefix(parts, k), DOT) == parts[..k]
    ensures HasParent(Prefix(parts, k)) <==> k > 1
    ensures k > 1 ==> Parent(Prefix(parts, k)) == Prefix(parts, k - 1)
  {
    SplitJoin(parts[..k], DOT);
    assert k > 1 ==> parts[..k][..k - 1] == parts[..k - 1];
  }

  /** Every parent exists, and a package is a child of its direct parent, once, and of no other. */
  ghost predicate WellFormed(f: Forest) {
    && (forall n :: n in f && HasParent(n) ==> Parent(n) in f)
    && (forall p, c :: p in f ==>
          multiset(f[p])[SubPackage(c)] == if c in f && HasParent(c) && Parent(c) == p then 1 else 0)
  }

  /** One turn of the loop: the package of the first `i + 1` segments exists and, if it is new,
      its parent lists it. */
  ghost function Step(f: Forest, parts: seq<string>, i: nat): Forest
    requires i < |parts|
  {
    var pkg := Prefix(parts, i + 1);
    if pkg in f then f
    else if i == 0 || Prefix(parts, i) !in f then f[pkg := []]
    else f[pkg := []][Prefix(parts, i) := f[Prefix(parts, i)] + [SubPackage(pkg)]]
  }

  ghost function Steps(f: Forest, parts: seq<string>, k: nat): (g: Forest)
    requires k <= |parts|
    ensures f.Keys <= g.Keys
    ensures k > 0 ==> Prefix(parts, k) in g
  {
    if k == 0 then f else Step(Steps(f, parts, k - 1), parts, k - 1)
  }

  ghost function AddPackage(f: Forest, name: string): (g: Forest)
    ensures name in g
  {
    var parts := Split(name, DOT);
    JoinSplit(name, DOT);
    assert parts[..|parts|] == parts;
    Steps(f, parts, |parts|)
  }

  /** A package may be created if it has no parent or its parent exists, which then lists it. */
  lemma LinkKeeps(f: Forest, n: string)
    requires WellFormed(f) && n !in f && (HasParent(n) ==> Parent(n) in f)
    ensures WellFormed(Linked(f, n))
  {
    var g := Linked(f, n);
    if HasParent(n) {
      ParentShorter(n);
    }
    forall p, c | p in g
      ensures multiset(g[p])[SubPackage(c)] == if c in g && HasParent(c) && Parent(c) == p then 1 else 0
    {
      if p == n {
        assert c in f && HasParent(c) ==> Parent(c) in f;
      } else if HasParent(n) && p == Parent(n) {
        assert multiset(g[p]) == multiset(f[p]) + multiset{SubPackage(n)};
      } else {
        assert g[p] == f[p];
      }
    }
  }

  ghost function Linked(f: Forest, n: string): Forest
    requires HasParent(n) ==> Parent(n) in f
  {
    if HasParent(n) then f[n := []][Parent(n) := f[Parent(n)] + [SubPackage(n)]] else f[n := []]
  }

  lemma ParentShorter(n: string)
    requires HasParent(n)
    ensures Parent(n) != n
  {
    var parts := Split(n, DOT);
    SplitJoin(parts[..|parts| - 1], DOT);
  }

  lemma StepKeeps(f: Forest, parts: seq<string>, i: nat)
    requires WellFormed(f) && IsPath(parts) && i < |parts| && (i > 0 ==> Prefix(parts, i) in f)
    ensures WellFormed(Step(f, parts, i))
  {
    hide WellFormed, HasParent, Parent, Prefix, Split;
    var n := Prefix(parts, i + 1);
    PrefixSplit(parts, i + 1);
    if n !in f {
      LinkKeeps(f, n);
    }
  }

  lemma {:induction false} StepsKeep(f: Forest, parts: seq<string>, k: nat)
    requires WellFormed(f) && IsPath(parts) && k <= |parts|
    ensures WellFormed(Steps(f, parts, k))
  {
    hide WellFormed, Step, Prefix;
    if k > 0 {
      StepsKeep(f, parts, k - 1);
      StepKeeps(Steps(f, parts, k - 1), parts, k - 1);
    }
  }

  /** `createPackage` keeps the forest well formed. */
  lemma AddKeeps(f: Forest, name: string)
    requires WellFormed(f)
    ensures WellFormed(AddPackage(f, name))
  {
    var parts := Split(name, DOT);
    StepsKeep(f, parts, |parts|);
  }

  ghost predicate IsPrefix(n: string, name: string) {
    exists k :: PrefixAt(n, name, k)
  }

  ghost predicate PrefixAt(n: string, name: string, k: int) {
    0 < k <= |Split(name, DOT)| && n == Prefix(Split(name, DOT), k)
  }

  lemma {:induction false} StepsNames(f: Forest, parts: seq<string>, k: nat, n: string)
    requires k <= |parts|
    ensures n in Steps(f, parts, k) <==> n in f || exists j :: 0 < j <= k && n == Prefix(parts, j)
  {
    if k > 0 {
      StepsNames(f, parts, k - 1, n);
    }
  }

  /** The packages after the call are the former ones and every prefix of the name. */
  lemma AddNames(f: Forest, name: string, n: string)
    ensures n in AddPackage(f, name) <==> n in f || IsPrefix(n, name)
  {
    var parts := Split(name, DOT);
    StepsNames(f, parts, |parts|, n);
    if j :| 0 < j <= |parts| && n == Prefix(parts, j) {
      assert PrefixAt(n, name, j);
    }
  }

  lemma {:induction false} PrefixClosed(f: Forest, parts: seq<string>, k: nat)
    requires WellFormed(f) && IsPath(parts) && 0 < k <= |parts| && Prefix(parts, k) in f
    ensures forall j :: 0 < j <= k ==> Prefix(parts, j) in f
  {
    hide Split, Prefix;
    if k > 1 {
      PrefixSplit(parts, k);
      PrefixClosed(f, parts, k - 1);
    }
  }

  lemma {:induction false} StepsStay(f: Forest, parts: seq<string>, k: nat)
    requires k <= |parts| && forall j :: 0 < j <= k ==> Prefix(parts, j) in f
    ensures Steps(f, parts, k) == f
  {
    if k > 0 {
      StepsStay(f, parts, k - 1);
    }
  }

  /** Creating a package that exists changes nothing; so does creating one twice. */
  lemma AddIdempotent(f: Forest, name: string)
    requires WellFormed(f)
    ensures name in f ==> AddPackage(f, name) == f
    ensures AddPackage(AddPackage(f, name), name) == AddPackage(f, name)
  {
    var parts, g := Split(name, DOT), AddPackage(f, name);
    AddKeeps(f, name);
    JoinSplit(name, DOT);
    assert parts[..|parts|] == parts;
    if name in f {
      PrefixClosed(f, parts, |parts|);
      StepsStay(f, parts, |parts|);
    }
    PrefixClosed(g, parts, |parts|);
    StepsStay(g, parts, |parts|);
  }

  /** The lists of children only grow at their end, by packages that are new. */
  ghost predicate ChildrenGrow(f: Forest, g: Forest) {
    && f.Keys <= g.Keys
    && (forall p :: p in f ==> f[p] <= g[p])
    && forall p, k :: p in g && (if p in f then |f[p]| else 0) <= k < |g[p]| ==>
         g[p][k].SubPackage? && g[p][k].name !in f && g[p][k].name in g
  }

  lemma {:induction false} StepsGrow(f: Forest, parts: seq<string>, k: nat)
    requires k <= |parts|
    ensures ChildrenGrow(f, Steps(f, parts, k))
  {
    hide Prefix;
    if k > 0 {
      StepsGrow(f, parts, k - 1);
    }
  }

  lemma AddGrows(f: Forest, name: string)
    ensures ChildrenGrow(f, AddPackage(f, name))
  {
    StepsGrow(f, Split(name, DOT), |Split(name, DOT)|);
  }

  /** A new package has no children yet. */
  lemma NewIsEmpty(f: Forest, name: string)
    requires name !in f
    ensures AddPackage(f, name)[name] == []
  {
    hide Split;
    var parts := Split(name, DOT);
    var n := |parts|;
    JoinSplit(name, DOT);
    assert parts[..n] == parts;
    LastIsNew(f, parts, n - 1);
    if n > 1 {
      PrefixSplit(parts, n);
      ParentShorter(name);
    }
  }

  /** The earlier turns of the loop do not create the package itself. */
  lemma LastIsNew(f: Forest, parts: seq<string>, k: nat)
    requires IsPath(parts) && k < |parts| && Prefix(parts, |parts|) !in f
    ensures Prefix(parts, |parts|) !in Steps(f, parts, k)
  {
    hide Prefix, Split;
    StepsNames(f, parts, k, Prefix(parts, |parts|));
    forall j | 0 < j <= k
      ensures Prefix(parts, j) != Prefix(parts, |parts|)
    {
      PrefixSplit(parts, j);
      PrefixSplit(parts, |parts|);
    }
  }

  // ---------- runs ----------

  ghost function Run(names: seq<string>): Forest {
    if names == [] then map[] else AddPackage(Run(names[..|names| - 1]), names[|names| - 1])
  }

  /** After any sequence of creations the packages are exactly the prefixes of the names, and
      every package with several segments is listed once, by its direct parent only. */
  lemma {:induction false} RunForest(names: seq<string>)
    ensures WellFormed(Run(names))
    ensures forall n :: n in Run(names) <==> exists i :: 0 <= i < |names| && IsPrefix(n, names[i])
  {
    if names != [] {
      var init, last := names[..|names| - 1], names[|names| - 1];
      RunForest(init);
      AddKeeps(Run(init), last);
      forall n
        ensures n in Run(names) <==> exists i :: 0 <= i < |names| && IsPrefix(n, names[i])
      {
        AddNames(Run(init), last, n);
        if i :| 0 <= i < |init| && IsPrefix(n, init[i]) {
          assert IsPrefix(n, names[i]);
        }
        if i :| 0 <= i < |names| && IsPrefix(n, names[i]) && n !in Run(init) {
          assert i < |init| ==> IsPrefix(n, init[i]);
        }
      }
    }
  }

  // ---------- registration by the resolver ----------

  /** A missing class registers its package without creating or informing any parent. */
  ghost function RegisterMissing(f: Forest, pkg: string): Forest {
    if pkg in f then f else f[pkg := []]
  }

  /** This keeps the forest well formed exactly when the package exists or has one segment. */
  lemma RegisterMissingKeeps(f: Forest, pkg: string)
    requires WellFormed(f)
    ensures WellFormed(RegisterMissing(f, pkg)) <==> pkg in f || !HasParent(pkg)
  {
    var g := RegisterMissing(f, pkg);
    if pkg !in f && HasParent(pkg) {
      var p := Parent(pkg);
      SplitJoin(Split(pkg, DOT)[..|Split(pkg, DOT)| - 1], DOT);
      assert p != pkg;
      if p in f {
        assert multiset(f[p])[SubPackage(pkg)] == 0 && g[p] == f[p];
        assert multiset(g[p])[SubPackage(pkg)] != 1;
      }
    } else if pkg !in f {
      forall p, c | p in g
        ensures multiset(g[p])[SubPackage(c)] == if c in g && HasParent(c) && Parent(c) == p then 1 else 0
      {
        assert p != pkg ==> g[p] == f[p];
        assert c in f && HasParent(c) ==> Parent(c) in f;
      }
    }
  }

  /** A class appended to its package disturbs no link between packages. */
  lemma AppendClassKeeps(f: Forest, pkg: string, cls: string)
    requires WellFormed(f) && pkg in f
    ensures WellFormed(f[pkg := f[pkg] + [ClassChild(cls)]])
  {
    var g := f[pkg := f[pkg] + [ClassChild(cls)]];
    forall p, c | p in g
      ensures multiset(g[p])[SubPackage(c)] == multiset(f[p])[SubPackage(c)]
    {
      assert p == pkg ==> multiset(g[p]) == multiset(f[p]) + multiset{ClassChild(cls)};
    }
  }

  // ---------- runs with registrations ----------

  /** Pass 3 creates packages and files classes; the resolver registers packages of missing classes. */
  datatype Call = Create(name: string) | File(cls: string, pkg: string) | Register(pkg: string)

  ghost function Filed(f: Forest, cls: string, pkg: string): Forest {
    var g := if pkg in f then f else AddPackage(f, pkg);
    g[pkg := g[pkg] + [ClassChild(cls)]]
  }

  /** A class that is filed becomes the last child of its package, and the only one if the package is new; the
      other lists only grow by new packages. */
  lemma FiledLast(f: Forest, cls: string, pkg: string)
    ensures pkg in Filed(f, cls, pkg)
    ensures Filed(f, cls, pkg)[pkg] == (if pkg in f then f[pkg] else []) + [ClassChild(cls)]
    ensures pkg in f ==> forall p :: p in f && p != pkg ==> Filed(f, cls, pkg)[p] == f[p]
    ensures pkg in f ==> Filed(f, cls, pkg).Keys == f.Keys
    ensures ChildrenGrow(f, Filed(f, cls, pkg) - {pkg} + map[pkg := if pkg in f then f[pkg] else []])
  {
    hide AddPackage;
    AddGrows(f, pkg);
    if pkg !in f {
      NewIsEmpty(f, pkg);
    }
    var g := if pkg in f then f else AddPackage(f, pkg);
    assert Filed(f, cls, pkg) - {pkg} + map[pkg := if pkg in f then f[pkg] else []] == g;
  }

  ghost function Apply(f: Forest, c: Call): Forest {
    match c
    case Create(name) => AddPackage(f, name)
    case File(cls, pkg) => Filed(f, cls, pkg)
    case Register(pkg) => RegisterMissing(f, pkg)
  }

  ghost function Calls(f: Forest, cs: seq<Call>): Forest {
    if cs == [] then f else Apply(Calls(f, cs[..|cs| - 1]), cs[|cs| - 1])
  }

  /** What a registration needs. */
  ghost predicate Met(f: Forest, c: Call) {
    c.Register? ==> c.pkg in f || !HasParent(c.pkg)
  }

  ghost predicate AllMet(f: Forest, cs: seq<Call>) {
    forall i :: 0 <= i < |cs| ==> Met(Calls(f, cs[..i]), cs[i])
  }

  /** A package that its parent does not list. */
  ghost predicate Orphan(f: Forest, n: string) {
    n in f && HasParent(n) && (Parent(n) in f ==> SubPackage(n) !in f[Parent(n)])
  }

  lemma OrphanBreaks(f: Forest, n: string)
    requires Orphan(f, n)
    ensures !WellFormed(f)
  {
    if Parent(n) in f {
      assert multiset(f[Parent(n)])[SubPackage(n)] == 0;
    }
  }

  lemma {:induction false} StepsOrphan(f: Forest, parts: seq<string>, k: nat, n: string)
    requires Orphan(f, n) && k <= |parts|
    ensures Orphan(Steps(f, parts, k), n)
  {
    hide Prefix, HasParent, Parent;
    if k > 0 {
      StepsOrphan(f, parts, k - 1, n);
    }
  }

  /** No call adopts an orphan. */
  lemma OrphanStays(f: Forest, c: Call, n: string)
    requires Orphan(f, n)
    ensures Orphan(Apply(f, c), n)
  {
    hide HasParent, Parent, Prefix;
    match c
    case Create(name) => StepsOrphan(f, Split(name, DOT), |Split(name, DOT)|, n);
    case File(cls, pkg) => StepsOrphan(f, Split(pkg, DOT), |Split(pkg, DOT)|, n);
    case Register(pkg) =>
  }

  lemma ApplyKeeps(f: Forest, c: Call)
    requires WellFormed(f) && Met(f, c)
    ensures WellFormed(Apply(f, c))
  {
    match c
    case Create(name) => AddKeeps(f, name);
    case File(cls, pkg) =>
      AddKeeps(f, pkg);
      AppendClassKeeps(if pkg in f then f else AddPackage(f, pkg), pkg, cls);
    case Register(pkg) => RegisterMissingKeeps(f, pkg);
  }

  lemma AllMetNext(f: Forest, cs: seq<Call>)
    requires cs != []
    ensures AllMet(f, cs) <==> AllMet(f, cs[..|cs| - 1]) && Met(Calls(f, cs[..|cs| - 1]), cs[|cs| - 1])
  {
    hide Calls, Met;
    var n := |cs| - 1;
    var init := cs[..n];
    assert forall i :: 0 <= i < n ==> init[..i] == cs[..i] && init[i] == cs[i];
    assert AllMet(f, cs) <==>
      (forall i :: 0 <= i < n ==> Met(Calls(f, cs[..i]), cs[i])) && Met(Calls(f, cs[..n]), cs[n]);
  }

  /** A run leaves a well-formed forest if and only if each registration met its condition when it
      came: a package that was registered without a parent to list it stays an orphan, whatever
      follows. */
  lemma {:induction false} RunWellFormedIff(f: Forest, cs: seq<Call>)
    requires WellFormed(f)
    ensures WellFormed(Calls(f, cs)) <==> AllMet(f, cs)
    ensures AllMet(f, cs) || exists n :: Orphan(Calls(f, cs), n)
  {
    if cs != [] {
      var init, last := cs[..|cs| - 1], cs[|cs| - 1];
      var g := Calls(f, init);
      RunWellFormedIff(f, init);
      AllMetNext(f, cs);
      hide WellFormed, AllMet, HasParent, Parent;
      if AllMet(f, cs) {
        ApplyKeeps(g, last);
      } else {
        var n: string;
        if AllMet(f, init) {
          n := last.pkg;
          NewOrphan(g, n);
        } else {
          n :| Orphan(g, n);
          OrphanStays(g, last, n);
        }
        OrphanBreaks(Calls(f, cs), n);
      }
    }
  }

  lemma NewOrphan(f: Forest, n: string)
    requires WellFormed(f) && n !in f && HasParent(n)
    ensures Orphan(RegisterMissing(f, n), n)
  {
    ParentShorter(n);
    assert Parent(n) in f ==> multiset(f[Parent(n)])[SubPackage(n)] == 0;
  }

  /** Registering `a.b` first leaves it an orphan, also when a package below it is created later. */
  lemma RegisteredOrphan()
    ensures !WellFormed(Calls(map[], [Register("a.b"), Create("a.b.c")]))
  {
    hide Split, Join, AddPackage;
    var cs, none: Forest := [Register("a.b"), Create("a.b.c")], map[];
    SplitJoin(["a", "b"], DOT);
    JoinCons("a", ["b"], DOT);
    JoinSingle("b", DOT);
    assert ["a"] + ["b"] == ["a", "b"] && "a" + [DOT] + "b" == "a.b";
    RunWellFormedIff(none, cs);
    assert cs[..0] == [] && !Met(Calls(none, cs[..0]), cs[0]);
  }

  lemma JoinSingle(s: string, c: char)
    ensures Join([s], c) == s
  {
  }

  // ---------- the package nodes ----------

  class ModelPackage {
    const name: string
    var children: seq<Child>

    constructor (name: string)
      ensures this.name == name && children == []
    {
      this.name, children := name, [];
    }

    method ChildAppend(c: Child)
      modifies this
      ensures children == old(children) + [c]
    {
      children := children + [c];
    }
  }

  /** One more segment of the path. */
  lemma NextLevel(f: Forest, parts: seq<string>, i: nat)
    requires i < |parts|
    ensures Prefix(parts, i + 1) == if i == 0 then parts[0] else Prefix(parts, i) + [DOT] + parts[i]
    ensures var g, pkg := Steps(f, parts, i), Prefix(parts, i + 1);
      && (i > 0 ==> Prefix(parts, i) in g)
      && Steps(f, parts, i + 1) ==
           if pkg in g then g
           else if i == 0 then g[pkg := []]
           else g[pkg := []][Prefix(parts, i) := g[Prefix(parts, i)] + [SubPackage(pkg)]]
  {
    if i == 0 {
      assert parts[..1] == [parts[0]];
    } else {
      JoinAppend(parts[..i], parts[i], DOT);
      assert parts[..i + 1] == parts[..i] + [parts[i]];
    }
  }

  class PackageStore {
    var packages: map<string, ModelPackage>

    constructor ()
      ensures Valid() && View() == map[]
    {
      packages := map[];
    }

    ghost predicate Valid()
      reads this
    {
      forall n :: n in packages ==> packages[n].name == n
    }

    ghost function View(): Forest
      reads this, packages.Values
    {
      map n | n in packages :: packages[n].children
    }

    /** One turn of the loop of `createPackage`. */
    method CreateLevel(pkg: string, parent: string, first: bool)
      requires Valid() && (!first ==> parent in packages)
      modifies this, packages.Values
      ensures Valid() && fresh(packages.Values - old(packages.Values))
      ensures View() == old(
        if pkg in packages then View()
        else if first then View()[pkg := []]
        else View()[pkg := []][parent := View()[parent] + [SubPackage(pkg)]])
    {
      if pkg !in packages {
        ghost var f := View();
        var node := new ModelPackage(pkg);
        packages := packages[pkg := node];
        assert View() == f[pkg := []];
        if !first {
          packages[parent].ChildAppend(SubPackage(pkg));
        }
      }
    }

    method CreatePackage(name: string)
      requires Valid()
      modifies this, packages.Values
      ensures Valid() && fresh(packages.Values - old(packages.Values))
      ensures View() == AddPackage(old(View()), name)
    {
      hide Split, Prefix, Step;
      ghost var f := View();
      var p := Split(name, DOT);
      var pkg, parent := "", "";
      for i := 0 to |p|
        invariant Valid() && fresh(packages.Values - old(packages.Values))
        invariant i > 0 ==> pkg == Prefix(p, i)
        invariant View() == Steps(f, p, i)
      {
        NextLevel(f, p, i);
        parent := pkg;
        if i == 0 {
          pkg := p[0];
        } else {
          pkg := pkg + [DOT] + p[i];
        }
        CreateLevel(pkg, parent, i == 0);
      }
    }

    /** Pass 3 files a class under its package, which it first creates if needed. */
    method FileClass(cls: string, pkg: string)
      requires Valid()
      modifies this, packages.Values
      ensures Valid()
      ensures View() == old(
        var f := if pkg in packages then View() else AddPackage(View(), pkg);
        f[pkg := f[pkg] + [ClassChild(cls)]])
    {
      ghost var g := View();
      if pkg !in packages {
        g := AddPackage(g, pkg);
        CreatePackage(pkg);
      }
      assert View() == g && pkg in g;
      packages[pkg].ChildAppend(ClassChild(cls));
    }
  }
}
