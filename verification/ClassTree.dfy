/** The tree of class names of the script generator, and its printer. */
module ClassTree {
  import opened Text
  import opened Model

  const DOT := '.'

  datatype Entry<T> = Entry(key: string, value: T)

  /** An object whose properties are kept in insertion order, or the name at the end of a path. */
  datatype Tree = Leaf(fqcn: string) | Obj(entries: seq<Entry<Tree>>)

  // ---------- insertion ----------

  function IndexOf<T>(es: seq<Entry<T>>, key: string): (i: nat)
    ensures i <= |es| && forall j :: 0 <= j < i ==> es[j].key != key
    ensures i < |es| ==> es[i].key == key
  {
    if es == [] then 0 else if es[0].key == key then 0 else 1 + IndexOf(es[1..], key)
  }

  function Put<T>(es: seq<Entry<T>>, key: string, t: T): seq<Entry<T>> {
    var i := IndexOf(es, key);
    if i < |es| then es[i := Entry(key, t)] else es + [Entry(key, t)]
  }

  function Get<T>(es: seq<Entry<T>>, key: string): Option<T> {
    var i := IndexOf(es, key);
    if i < |es| then Some(es[i].value) else None
  }

  lemma {:induction false} IndexOfPut<T>(es: seq<Entry<T>>, key: string, t: T, k: string)
    ensures Get(Put(es, key, t), k) == if k == key then Some(t) else Get(es, k)
  {
    var put := Put(es, key, t);
    var i, j := IndexOf(es, k), IndexOf(put, k);
    var m := IndexOf(es, key);
    assert forall n :: 0 <= n < |es| ==> put[n].key == es[n].key;
    assert m < |es| ==> put[m].value == t;
    assert m == |es| ==> put[m] == Entry(key, t);
    assert i < |es| ==> j == i;
    assert i == |es| && k != key ==> j == |put|;
  }

  /** Inserts a name at a path; none if a name is in the way, where the program fails. */
  function Insert(t: Tree, fqcn: string, path: seq<string>): Option<Tree>
    requires |path| > 0
    decreases |path|
  {
    if t.Leaf? then None
    else if |path| == 1 then Some(Obj(Put(t.entries, path[0], Leaf(fqcn))))
    else
      var sub := Get(t.entries, path[0]);
      match Insert(if sub.Some? then sub.value else Obj([]), fqcn, path[1..])
      case None => None
      case Some(s) => Some(Obj(Put(t.entries, path[0], s)))
  }

  function Build(names: seq<string>): Option<Tree> {
    if names == [] then Some(Obj([])) else
      match Build(names[..|names| - 1])
      case None => None
      case Some(t) => Insert(t, names[|names| - 1], Split(names[|names| - 1], DOT))
  }

  // ---------- what is in a tree ----------

  function LeafAt(t: Tree, path: seq<string>): Option<string>
    decreases |path|
  {
    if path == [] then (if t.Leaf? then Some(t.fqcn) else None)
    else if t.Obj? && Get(t.entries, path[0]).Some? then LeafAt(Get(t.entries, path[0]).value, path[1..])
    else None
  }

  /** A name sits on the way to `path`. */
  ghost predicate Blocked(t: Tree, path: seq<string>) {
    exists k :: 0 <= k < |path| && LeafAt(t, path[..k]).Some?
  }

  lemma BlockedStep(t: Tree, path: seq<string>, sub: Tree)
    requires |path| > 1 && t.Obj?
    requires sub == if Get(t.entries, path[0]).Some? then Get(t.entries, path[0]).value else Obj([])
    ensures Blocked(t, path) <==> Blocked(sub, path[1..])
  {
    var rest := path[1..];
    assert forall k :: 0 < k < |path| ==> path[..k][1..] == rest[..k - 1] && path[..k][0] == path[0];
    if k :| 0 <= k < |path| && LeafAt(t, path[..k]).Some? {
      assert LeafAt(sub, rest[..k - 1]).Some?;
    }
    if k :| 0 <= k < |rest| && LeafAt(sub, rest[..k]).Some? {
      assert path[..k + 1][1..] == rest[..k];
      assert LeafAt(t, path[..k + 1]).Some?;
    }
  }

  /** Insertion fails exactly when a name is in the way; otherwise it puts the name at its path,
      loses what was below that path, and keeps every other name in its place. */
  lemma {:induction false} InsertLeaves(t: Tree, fqcn: string, path: seq<string>, p: seq<string>)
    requires |path| > 0
    ensures Insert(t, fqcn, path).None? <==> Blocked(t, path)
    ensures Insert(t, fqcn, path).Some? ==>
      LeafAt(Insert(t, fqcn, path).value, p) ==
        if p == path then Some(fqcn) else if path <= p then None else LeafAt(t, p)
    decreases |path|
  {
    if t.Leaf? {
      assert path[..0] == [];
      assert LeafAt(t, path[..0]).Some?;
    } else {
      var sub := if Get(t.entries, path[0]).Some? then Get(t.entries, path[0]).value else Obj([]);
      if p != [] {
        IndexOfPut(t.entries, path[0], Leaf(fqcn), p[0]);
      }
      if |path| == 1 {
        assert path[..0] == [];
        assert p != [] && p[0] == path[0] ==> path <= p && (p[1..] == [] <==> p == path);
      } else {
        BlockedStep(t, path, sub);
        InsertLeaves(sub, fqcn, path[1..], if p == [] then [] else p[1..]);
        if p != [] && Insert(t, fqcn, path).Some? {
          IndexOfPut(t.entries, path[0], Insert(sub, fqcn, path[1..]).value, p[0]);
          assert p[0] == path[0] ==> (p == path <==> p[1..] == path[1..]) && (path <= p <==> path[1..] <= p[1..]);
        }
      }
    }
  }

  // ---------- dotted names ----------

  /** `a` is `b` cut at one of its dots. */
  predicate DotPrefix(a: string, b: string) {
    |a| < |b| && b[..|a|] == a && b[|a|] == DOT
  }

  lemma {:induction false} JoinConcat(a: seq<string>, b: seq<string>)
    requires |a| > 0 && |b| > 0
    ensures Join(a + b, DOT) == Join(a, DOT) + [DOT] + Join(b, DOT)
  {
    assert (a + b)[1..] == a[1..] + b;
    if |a| > 1 {
      JoinConcat(a[1..], b);
    }
  }

  lemma DotPrefixIsPathPrefix(a: string, b: string)
    ensures DotPrefix(a, b) <==> Split(a, DOT) < Split(b, DOT)
  {
    hide Split, Join;
    var p, q := Split(a, DOT), Split(b, DOT);
    JoinSplit(a, DOT);
    JoinSplit(b, DOT);
    if DotPrefix(a, b) {
      var rest := b[|a| + 1..];
      var r := Split(rest, DOT);
      JoinSplit(rest, DOT);
      assert b == a + [DOT] + rest;
      JoinConcat(p, r);
      SplitJoin(p + r, DOT);
    }
    if p < q {
      assert q == p + q[|p|..];
      JoinConcat(p, q[|p|..]);
    }
  }

  lemma SplitInjective(a: string, b: string)
    ensures Split(a, DOT) == Split(b, DOT) <==> a == b
  {
    hide Split;
    JoinSplit(a, DOT);
    JoinSplit(b, DOT);
  }

  // ---------- building from a list of names ----------

  ghost predicate LeavesAreNames(t: Tree, names: seq<string>) {
    forall p :: LeafAt(t, p).Some? ==> LeafAt(t, p).value in names && Split(LeafAt(t, p).value, DOT) == p
  }

  /** Some name sits on the path of `n`, at its end or before. */
  ghost predicate Covered(t: Tree, n: string) {
    exists p :: p <= Split(n, DOT) && LeafAt(t, p).Some?
  }

  lemma {:induction false} BuildInvariant(names: seq<string>)
    ensures Build(names).Some? ==> LeavesAreNames(Build(names).value, names)
    ensures Build(names).Some? ==> forall n :: n in names ==> Covered(Build(names).value, n)
  {
    hide Split;
    if names == [] {
      assert forall p :: LeafAt(Obj([]), p).None?;
    } else if Build(names).Some? {
      var init, last := names[..|names| - 1], names[|names| - 1];
      var t, u, path := Build(init).value, Build(names).value, Split(last, DOT);
      assert names == init + [last];
      BuildInvariant(init);
      forall p | LeafAt(u, p).Some?
        ensures LeafAt(u, p).value in names && Split(LeafAt(u, p).value, DOT) == p
      {
        InsertLeaves(t, last, path, p);
      }
      InsertLeaves(t, last, path, path);
      forall n | n in names
        ensures Covered(u, n)
      {
        if n != last {
          var p :| p <= Split(n, DOT) && LeafAt(t, p).Some?;
          InsertLeaves(t, last, path, p);
        }
      }
    }
  }

  ghost predicate ClashAt(names: seq<string>, i: int, j: int) {
    0 <= i < |names| && 0 <= j < |names| && DotPrefix(names[i], names[j])
  }

  lemma PrefixBlocks(t: Tree, p: seq<string>, path: seq<string>)
    requires LeafAt(t, p).Some? && p < path
    ensures Blocked(t, path)
  {
    assert p == path[..|p|];
  }

  lemma BlockedIff(t: Tree, names: seq<string>, n: string)
    requires LeavesAreNames(t, names) && forall m :: m in names ==> Covered(t, m)
    ensures Blocked(t, Split(n, DOT)) <==> exists i :: 0 <= i < |names| && DotPrefix(names[i], n)
  {
    hide Split, LeafAt, DotPrefix, Blocked, LeavesAreNames, Covered;
    if Blocked(t, Split(n, DOT)) {
      BlockedBy(t, names, n);
    }
    if i :| 0 <= i < |names| && DotPrefix(names[i], n) {
      PrefixBlocksName(t, names[i], n);
    }
  }

  lemma BlockedBy(t: Tree, names: seq<string>, n: string)
    requires LeavesAreNames(t, names) && Blocked(t, Split(n, DOT))
    ensures exists i :: 0 <= i < |names| && DotPrefix(names[i], n)
  {
    hide Split, LeafAt, DotPrefix;
    var path := Split(n, DOT);
    var k :| 0 <= k < |path| && LeafAt(t, path[..k]).Some?;
    var m := LeafAt(t, path[..k]).value;
    assert m in names && Split(m, DOT) < path;
    DotPrefixIsPathPrefix(m, n);
  }

  lemma PrefixBlocksName(t: Tree, m: string, n: string)
    requires Covered(t, m) && DotPrefix(m, n)
    ensures Blocked(t, Split(n, DOT))
  {
    hide Split, LeafAt, DotPrefix, Blocked;
    DotPrefixIsPathPrefix(m, n);
    var p :| p <= Split(m, DOT) && LeafAt(t, p).Some?;
    PrefixBlocks(t, p, Split(n, DOT));
  }

  /** Some name before place `n` is a dot-prefix of a later one before place `n`. */
  ghost predicate LateClash(names: seq<string>, n: nat) {
    exists i, j :: ClashAt(names, i, j) && i < j < n
  }

  lemma LateClashNext(names: seq<string>, n: nat)
    requires n < |names|
    ensures LateClash(names, n + 1) <==> LateClash(names, n) || exists i :: 0 <= i < n && DotPrefix(names[i], names[n])
  {
    if i :| 0 <= i < n && DotPrefix(names[i], names[n]) {
      assert ClashAt(names, i, n);
    }
  }

  lemma BuildNext(names: seq<string>, n: nat)
    requires n < |names|
    ensures Build(names[..n + 1]).None? <==>
      Build(names[..n]).None? || exists i :: 0 <= i < n && DotPrefix(names[i], names[n])
  {
    hide Split, DotPrefix, Blocked, LeafAt, Insert, Covered, LeavesAreNames;
    var init := names[..n];
    assert names[..n + 1][..n] == init;
    if Build(init).Some? {
      BuildInvariant(init);
      BlockedIff(Build(init).value, init, names[n]);
      InsertLeaves(Build(init).value, names[n], Split(names[n], DOT), []);
      assert forall i :: 0 <= i < n ==> init[i] == names[i];
    }
  }

  lemma {:induction false} BuildFailsUpto(names: seq<string>, n: nat)
    requires n <= |names|
    ensures Build(names[..n]).None? <==> LateClash(names, n)
  {
    if n > 0 {
      BuildFailsUpto(names, n - 1);
      hide Build, LateClash, DotPrefix;
      LateClashNext(names, n - 1);
      BuildNext(names, n - 1);
    }
  }

  /** The program fails exactly when a name comes after one of its dot-prefixes. */
  lemma BuildFails(names: seq<string>)
    ensures Build(names).None? <==> exists i, j :: ClashAt(names, i, j) && i < j
  {
    hide Build, DotPrefix;
    assert names[..|names|] == names;
    BuildFailsUpto(names, |names|);
  }

  /** The leaves of the tree are exactly the names, each at its own path. */
  ghost predicate Exact(t: Tree, names: seq<string>) {
    forall p, n :: LeafAt(t, p) == Some(n) <==> n in names && p == Split(n, DOT)
  }

  /** The tree holds exactly the names if and only if no name is a dot-prefix of another. */
  lemma ExactIff(names: seq<string>)
    ensures Build(names).Some? && Exact(Build(names).value, names) <==> !exists i, j :: ClashAt(names, i, j)
  {
    hide Split;
    BuildFails(names);
    BuildInvariant(names);
    if Build(names).Some? {
      var t := Build(names).value;
      if i, j :| ClashAt(names, i, j) && Exact(t, names) {
        DotPrefixIsPathPrefix(names[i], names[j]);
        assert LeafAt(t, Split(names[i], DOT)) == Some(names[i]);
        LeafEnds(t, Split(names[i], DOT), Split(names[j], DOT));
        assert false;
      }
      if !exists i, j :: ClashAt(names, i, j) {
        forall p, n
          ensures LeafAt(t, p) == Some(n) <==> n in names && p == Split(n, DOT)
        {
          if n in names && p == Split(n, DOT) {
            var q :| q <= Split(n, DOT) && LeafAt(t, q).Some?;
            var m := LeafAt(t, q).value;
            DotPrefixIsPathPrefix(m, n);
            SplitInjective(m, n);
            var i :| 0 <= i < |names| && names[i] == m;
            var j :| 0 <= j < |names| && names[j] == n;
            assert !ClashAt(names, i, j);
          }
        }
      }
    }
  }

  lemma {:induction false} LeafEnds(t: Tree, p: seq<string>, q: seq<string>)
    requires LeafAt(t, p).Some? && p < q
    ensures LeafAt(t, q).None?
    decreases |p|
  {
    if p != [] {
      LeafEnds(Get(t.entries, p[0]).value, p[1..], q[1..]);
    }
  }

  // ---------- printing ----------

  const OPEN := "{\n"
  const CLOSE := "},\n\n    "
  const USE := " Java.use('"
  const END := "'),\n"

  function Print(t: Tree): string
    requires t.Obj?
    decreases t, 0
  {
    OPEN + PrintEntries(t.entries) + CLOSE
  }

  function PrintValue(t: Tree): string
    decreases t, 1
  {
    if t.Obj? then Print(t) else USE + t.fqcn + END
  }

  function PrintEntry(e: Entry<Tree>): string {
    e.key + ": " + PrintValue(e.value)
  }

  function PrintEntries(es: seq<Entry<Tree>>): string {
    if es == [] then "" else PrintEntry(es[0]) + PrintEntries(es[1..])
  }

  predicate SafeName(s: string) {
    ':' !in s && '}' !in s && '\'' !in s
  }

  predicate SafeEntry(e: Entry<Tree>) {
    SafeName(e.key) &&
    match e.value
    case Leaf(n) => SafeName(n)
    case Obj(sub) => Safe(sub)
  }

  predicate Safe(es: seq<Entry<Tree>>) {
    forall i :: 0 <= i < |es| ==> SafeEntry(es[i])
  }

  // ---------- reading ----------

  /** Reads a printed value: an object up to its end, or a class up to the end of its line. */
  function ReadValue(s: string): (r: Option<(Tree, string)>)
    ensures r.Some? ==> |r.value.1| < |s|
    decreases |s|, 0
  {
    if "{\n" <= s then
      match ReadEntries(s[2..])
      case None => None
      case Some((es, rest)) => Some((Obj(es), rest))
    else if " Java.use('" <= s then
      var i := Find(s[11..], '\'');
      if "'),\n" <= s[11 + i..] then Some((Leaf(s[11..11 + i]), s[15 + i..])) else None
    else None
  }

  function ReadEntries(s: string): (r: Option<(seq<Entry<Tree>>, string)>)
    ensures r.Some? ==> |r.value.1| <= |s|
    decreases |s|, 1
  {
    if "},\n\n    " <= s then Some(([], s[8..]))
    else
      var i := Find(s, ':');
      if ": " <= s[i..] then
        match ReadValue(s[i + 2..])
        case None => None
        case Some((v, rest)) =>
          match ReadEntries(rest)
          case None => None
          case Some((es, last)) => Some(([Entry(s[..i], v)] + es, last))
      else None
  }

  /** Reads a script: the value of the one variable it sets. */
  function ReadScript(s: string): Option<Tree> {
    if "var CLS=" <= s then
      match ReadValue(s[8..])
      case Some((t, rest)) => if rest == ";" then Some(t) else None
      case None => None
    else None
  }

  predicate SafeValue(t: Tree) {
    match t
    case Leaf(n) => SafeName(n)
    case Obj(es) => Safe(es)
  }

  lemma ReadClass(n: string, x: string)
    requires '\'' !in n
    ensures ReadValue(" Java.use('" + (n + ['\''] + ("),\n" + x))) == Some((Leaf(n), x))
  {
    hide Find, ReadEntries;
    var u := n + ['\''] + ("),\n" + x);
    var s := " Java.use('" + u;
    FindAfter(n, '\'', "),\n" + x);
    assert s[0] == ' ' && s[11..] == u;
    assert s[11..11 + |n|] == n;
    assert s[11 + |n|..] == "'),\n" + x;
    assert s[15 + |n|..] == x;
  }

  lemma ReadObject(body: string)
    ensures ReadEntries(body).Some? ==>
      ReadValue("{\n" + body) == Some((Obj(ReadEntries(body).value.0), ReadEntries(body).value.1))
  {
    hide ReadEntries;
    assert ("{\n" + body)[2..] == body;
  }

  lemma ReadEnd(x: string)
    ensures ReadEntries("},\n\n    " + x) == Some(([], x))
  {
    assert ("},\n\n    " + x)[8..] == x;
  }

  lemma ReadEntry(key: string, body: string)
    requires ':' !in key && '}' !in key
    ensures ReadValue(body).Some? && ReadEntries(ReadValue(body).value.1).Some? ==>
      var v := ReadValue(body).value;
      var es := ReadEntries(v.1).value;
      ReadEntries(key + [':'] + (" " + body)) == Some(([Entry(key, v.0)] + es.0, es.1))
  {
    hide ReadValue, Find;
    var s, n := key + [':'] + (" " + body), |key|;
    FindAfter(key, ':', " " + body);
    assert s[..n] == key && s[n..] == ": " + body && s[n + 2..] == body;
    assert key != "" ==> key[0] in key;
    assert s[0] != '}';
  }

  lemma ValueText(t: Tree, x: string)
    ensures PrintValue(t) + x ==
      match t
      case Leaf(n) => " Java.use('" + (n + ['\''] + ("),\n" + x))
      case Obj(es) => "{\n" + (PrintEntries(es) + CLOSE + x)
  {
  }

  lemma EntriesText(es: seq<Entry<Tree>>, x: string)
    requires es != []
    ensures PrintEntries(es) + CLOSE + x ==
      es[0].key + [':'] + (" " + (PrintValue(es[0].value) + (PrintEntries(es[1..]) + CLOSE + x)))
  {
    hide PrintValue;
  }

  /** A printed value is read back, whatever follows it. */
  lemma {:induction false} ReadsValue(t: Tree, x: string)
    requires SafeValue(t)
    ensures ReadValue(PrintValue(t) + x) == Some((t, x))
    decreases t, 0
  {
    hide ReadValue, ReadEntries, PrintValue;
    ValueText(t, x);
    match t
    case Leaf(n) => ReadClass(n, x);
    case Obj(es) =>
      ReadsEntries(es, x);
      ReadObject(PrintEntries(es) + CLOSE + x);
  }

  lemma {:induction false} ReadsEntries(es: seq<Entry<Tree>>, x: string)
    requires Safe(es)
    ensures ReadEntries(PrintEntries(es) + CLOSE + x) == Some((es, x))
    decreases es, 1
  {
    hide ReadValue, ReadEntries, PrintValue;
    if es == [] {
      assert PrintEntries(es) + CLOSE + x == "},\n\n    " + x;
      ReadEnd(x);
    } else {
      var e, rest := es[0], PrintEntries(es[1..]) + CLOSE + x;
      assert SafeEntry(e) && SafeValue(e.value);
      ReadsEntries(es[1..], x);
      ReadsValue(e.value, rest);
      EntriesText(es, x);
      ReadEntry(e.key, PrintValue(e.value) + rest);
      assert [Entry(e.key, e.value)] + es[1..] == es;
    }
  }

  /** The printer is injective on trees of safe keys and names. */
  lemma PrintInjective(a: Tree, b: Tree)
    requires a.Obj? && b.Obj? && Safe(a.entries) && Safe(b.entries) && Print(a) == Print(b)
    ensures a == b
  {
    ReadsValue(a, "");
    ReadsValue(b, "");
  }

  // ---------- the script ----------

  function Script(t: Tree): string
    requires t.Obj?
  {
    "var CLS=" + Print(t) + ";"
  }

  lemma {:induction false} InsertSafe(t: Tree, fqcn: string, path: seq<string>)
    requires |path| > 0 && SafeName(fqcn) && (t.Obj? ==> Safe(t.entries))
    requires forall p :: p in path ==> SafeName(p)
    ensures var u := Insert(t, fqcn, path); u.Some? ==> u.value.Obj? && Safe(u.value.entries)
    decreases |path|
  {
    if t.Obj? && |path| > 1 {
      var sub := Get(t.entries, path[0]);
      InsertSafe(if sub.Some? then sub.value else Obj([]), fqcn, path[1..]);
    }
  }

  lemma {:induction false} BuildSafe(names: seq<string>)
    requires forall n :: n in names ==> SafeName(n)
    ensures Build(names).Some? ==> Build(names).value.Obj? && Safe(Build(names).value.entries)
  {
    if names != [] && Build(names).Some? {
      var last := names[|names| - 1];
      BuildSafe(names[..|names| - 1]);
      SplitWithin(last);
      InsertSafe(Build(names[..|names| - 1]).value, last, Split(last, DOT));
    }
  }

  lemma {:induction false} SplitWithin(s: string)
    ensures forall p, c :: p in Split(s, DOT) && c in p ==> c in s
    decreases |s|
  {
    SplitStep(s, DOT);
    if DOT in s {
      SplitWithin(s[Find(s, DOT) + 1..]);
    }
  }

  /** A printed script is read back. */
  lemma ScriptReads(t: Tree)
    requires t.Obj? && Safe(t.entries)
    ensures ReadScript(Script(t)) == Some(t)
  {
    ReadsValue(t, ";");
    var s := Script(t);
    assert s == "var CLS=" + (PrintValue(t) + ";") && s[8..] == PrintValue(t) + ";";
  }

  /** The script for class names none of which is a dot-prefix of another is read back as a tree that has
      exactly these names, each at its own path. */
  lemma ScriptShows(names: seq<string>)
    requires (forall n :: n in names ==> SafeName(n)) && forall i, j :: !ClashAt(names, i, j)
    ensures Build(names).Some? && Build(names).value.Obj?
    ensures var r := ReadScript(Script(Build(names).value)); r.Some? && Exact(r.value, names)
  {
    hide Split, Build, Script, ReadScript, Exact, Safe;
    ExactIff(names);
    BuildSafe(names);
    ScriptReads(Build(names).value);
  }

  /** The generated script determines the set of class names. */
  lemma ScriptDetermines(a: seq<string>, b: seq<string>)
    requires forall n :: n in a || n in b ==> SafeName(n)
    requires forall i, j :: !ClashAt(a, i, j) && !ClashAt(b, i, j)
    ensures Build(a).Some? && Build(a).value.Obj? && Build(b).Some? && Build(b).value.Obj?
    ensures Script(Build(a).value) == Script(Build(b).value) ==> forall n :: n in a <==> n in b
  {
    hide Split, Build, Script, ReadScript, LeafAt;
    ScriptShows(a);
    ScriptShows(b);
    if Script(Build(a).value) == Script(Build(b).value) {
      var t := Build(a).value;
      var r := ReadScript(Script(t)).value;
      assert forall n :: LeafAt(r, Split(n, DOT)) == Some(n) <==> n in a;
      assert forall n :: LeafAt(r, Split(n, DOT)) == Some(n) <==> n in b;
    }
  }

  // ---------- the objects ----------

  lemma PutTwice<T>(es: seq<Entry<T>>, key: string, t: T, u: T)
    ensures Put(Put(es, key, t), key, u) == Put(es, key, u)
  {
    IndexOfPut(es, key, t, key);
    var i, put := IndexOf(es, key), Put(es, key, t);
    assert put[i].key == key && forall j :: 0 <= j < i ==> put[j].key == es[j].key != key;
    assert IndexOf(put, key) == i;
  }

  datatype Slot = Name(fqcn: string) | Child(node: TreeNode)

  /** A nested object of the tree under construction. */
  class TreeNode {
    var entries: seq<Entry<Slot>>
    ghost var repr: set<TreeNode>
    ghost var view: Tree

    static ghost function Value(s: Slot): Tree
      reads if s.Child? then {s.node} else {}
    {
      match s
      case Name(n) => Leaf(n)
      case Child(c) => c.view
    }

    ghost predicate ShowsAt(i: nat)
      requires i < |entries|
      reads this, repr
    {
      && view.Obj? && i < |view.entries|
      && match entries[i].value
         case Name(n) => view.entries[i].value == Leaf(n)
         case Child(c) =>
           c in repr && c in c.repr && c != this && c.repr < repr && this !in c.repr && view.entries[i].value == c.view
    }

    ghost predicate Apart(i: nat, j: nat)
      requires i < |entries| && j < |entries| && ShowsAt(i) && ShowsAt(j)
      reads this, repr
    {
      entries[i].value.Child? && entries[j].value.Child? ==> entries[i].value.node.repr !! entries[j].value.node.repr
    }

    ghost predicate Local()
      reads this, repr
    {
      && this in repr && view.Obj? && |view.entries| == |entries|
      && (forall i :: 0 <= i < |entries| ==> view.entries[i].key == entries[i].key)
      && (forall i :: 0 <= i < |entries| ==> ShowsAt(i))
      && (forall i, j :: 0 <= i < j < |entries| ==> Apart(i, j))
    }

    ghost predicate Valid()
      reads this, repr
      decreases repr
    {
      Local() && forall i :: 0 <= i < |entries| && entries[i].value.Child? ==>
        ShowsAt(i) && entries[i].value.node.Valid()
    }

    constructor ()
      ensures Valid() && view == Obj([]) && repr == {this}
    {
      entries, repr, view := [], {this}, Obj([]);
    }

    /** The assignment of a property, as far as this object is concerned. */
    method Assign(k: string, s: Slot)
      requires Local()
      requires s.Child? ==> s.node != this && this !in s.node.repr && s.node in s.node.repr && s.node.repr !! repr
      modifies this
      ensures Local() && entries == Put(old(entries), k, s)
      ensures view == Obj(Put(old(view.entries), k, Value(s)))
      ensures repr == old(repr) + (if s.Child? then s.node.repr else {})
    {
      hide IndexOf, Put;
      ghost var n, es, vs := IndexOf(entries, k), entries, view.entries;
      SameKeys(es, vs, k);
      PutAt(es, k, s);
      PutAt(vs, k, Value(s));
      view := Obj(Put(vs, k, Value(s)));
      repr := repr + (if s.Child? then s.node.repr else {});
      entries := Put(entries, k, s);
      forall i | 0 <= i < |entries|
        ensures ShowsAt(i)
      {
        assert i != n ==> old(i < |entries| && ShowsAt(i)) && entries[i] == es[i];
      }
      forall i, j | 0 <= i < j < |entries|
        ensures Apart(i, j)
      {
        assert i != n ==> old(i < |entries| && ShowsAt(i)) && entries[i] == es[i];
        assert j != n ==> old(j < |entries| && ShowsAt(j)) && entries[j] == es[j];
        assert i != n && j != n ==> old(j < |entries| && Apart(i, j));
      }
    }

    /** `if (tree[p] == null) tree[p] = {}` */
    method Open(p: string) returns (n: nat)
      requires Valid()
      modifies this
      ensures Valid() && fresh(repr - old(repr))
      ensures n < |entries| && n == IndexOf(view.entries, p)
      ensures view ==
        Obj(if Get(old(view.entries), p).Some? then old(view.entries) else Put(old(view.entries), p, Obj([])))
    {
      SameKeys(entries, view.entries, p);
      if IndexOf(entries, p) == |entries| {
        IndexOfPut(view.entries, p, Obj([]), p);
        var node := new TreeNode();
        Set(p, Child(node));
        SameKeys(entries, view.entries, p);
      }
      n := IndexOf(entries, p);
    }

    /** Brings the ghost state up to date after the nested object at `n` has grown. */
    method Renew(n: nat)
      requires n < |entries| && view.Obj? && |view.entries| == |entries| && this in repr
      requires entries[n].value.Child? && entries[n].value.node.Valid() && this !in entries[n].value.node.repr
      requires forall i :: 0 <= i < |entries| ==> view.entries[i].key == entries[i].key
      requires forall i :: 0 <= i < |entries| && i != n ==> ShowsAt(i)
      requires forall i :: 0 <= i < |entries| && i != n && entries[i].value.Child? ==>
        entries[i].value.node.Valid() && entries[i].value.node.repr !! entries[n].value.node.repr
      requires forall i, j :: 0 <= i < j < |entries| && i != n && j != n ==> Apart(i, j)
      modifies this`view, this`repr
      ensures Valid() && repr == old(repr) + entries[n].value.node.repr
      ensures view == Obj(old(view.entries)[n := Entry(entries[n].key, entries[n].value.node.view)])
    {
      view := Obj(view.entries[n := Entry(entries[n].key, entries[n].value.node.view)]);
      repr := repr + entries[n].value.node.repr;
      forall i | 0 <= i < |entries|
        ensures ShowsAt(i)
      {
        assert i != n ==> old(ShowsAt(i));
      }
      forall i, j | 0 <= i < j < |entries|
        ensures Apart(i, j)
      {
        assert i != n && j != n ==> old(Apart(i, j));
      }
    }

    method Set(k: string, s: Slot)
      requires Valid()
      requires s.Child? ==> s.node.Valid() && s.node.repr !! repr
      modifies this
      ensures Valid() && entries == Put(old(entries), k, s)
      ensures view == Obj(Put(old(view.entries), k, Value(s)))
      ensures repr == old(repr) + (if s.Child? then s.node.repr else {})
    {
      Assign(k, s);
    }
  }

  /** The program's `makeTree`: it fails where it would set a property of a name. */
  method MakeTree(tree: TreeNode, fqcn: string, suffix: string) returns (ok: bool)
    requires tree.Valid()
    modifies tree.repr
    ensures ok <==> Insert(old(tree.view), fqcn, Split(suffix, DOT)).Some?
    ensures ok ==> tree.Valid() && fresh(tree.repr - old(tree.repr))
    ensures ok ==> tree.view == Insert(old(tree.view), fqcn, Split(suffix, DOT)).value
    decreases |suffix|, 0
  {
    SplitStep(suffix, DOT);
    var o := Find(suffix, DOT);
    if o == |suffix| {
      tree.Set(suffix, Name(fqcn));
      return true;
    }
    hide Split, Find;
    var p, rest := suffix[..o], suffix[o + 1..];
    ghost var v := tree.view;
    var n := tree.Open(p);
    InsertBelow(v, fqcn, p, Split(rest, DOT), tree.view, n);
    ok := Descend(tree, n, fqcn, rest);
  }

  /** Inserting below a property: first create an empty object if it is missing, then go on there. */
  lemma InsertBelow(t: Tree, fqcn: string, p: string, rest: seq<string>, grown: Tree, n: nat)
    requires t.Obj? && |rest| > 0
    requires grown == if Get(t.entries, p).Some? then t else Obj(Put(t.entries, p, Obj([])))
    requires n == IndexOf(grown.entries, p)
    ensures n < |grown.entries|
    ensures Insert(t, fqcn, [p] + rest) == match Insert(grown.entries[n].value, fqcn, rest)
      case None => None
      case Some(s) => Some(Obj(grown.entries[n := Entry(p, s)]))
  {
    IndexOfPut(t.entries, p, Obj([]), p);
    assert ([p] + rest)[1..] == rest;
    var s := Insert(grown.entries[n].value, fqcn, rest);
    if s.Some? {
      PutTwice(t.entries, p, Obj([]), s.value);
    }
  }

  method Descend(tree: TreeNode, n: nat, fqcn: string, rest: string) returns (ok: bool)
    requires tree.Valid() && n < |tree.entries|
    modifies tree.repr
    ensures ok <==> Insert(old(tree.view.entries[n].value), fqcn, Split(rest, DOT)).Some?
    ensures ok ==> tree.Valid() && fresh(tree.repr - old(tree.repr))
    ensures ok ==> tree.view == Obj(old(tree.view.entries)[n :=
      Entry(old(tree.entries[n].key), Insert(old(tree.view.entries[n].value), fqcn, Split(rest, DOT)).value)])
    decreases |rest|, 1
  {
    hide Split;
    assert tree.ShowsAt(n);
    if tree.entries[n].value.Name? {
      return false;
    }
    hide Insert;
    var child := tree.entries[n].value.node;
    assert forall i :: 0 <= i < |tree.entries| && i != n ==> tree.ShowsAt(i) && (tree.entries[i].value.Child? ==>
      tree.entries[i].value.node.Valid() && (if i < n then tree.Apart(i, n) else tree.Apart(n, i)));
    ok := MakeTree(child, fqcn, rest);
    if ok {
      assert forall i :: 0 <= i < |tree.entries| && i != n ==> old(tree.ShowsAt(i));
      assert forall i :: 0 <= i < |tree.entries| && i != n ==> tree.ShowsAt(i);
      forall i, j | 0 <= i < j < |tree.entries| && i != n && j != n
        ensures tree.Apart(i, j)
      {
        assert old(tree.Apart(i, j)) && old(tree.ShowsAt(i)) && old(tree.ShowsAt(j));
      }
      tree.Renew(n);
    }
  }

  lemma PutAt<T>(es: seq<Entry<T>>, k: string, v: T)
    ensures var put, n := Put(es, k, v), IndexOf(es, k);
      && |put| == (if n < |es| then |es| else n + 1)
      && forall i :: 0 <= i < |put| ==> put[i] == if i == n then Entry(k, v) else es[i]
  {
  }

  lemma SameKeys<T, U>(a: seq<Entry<T>>, b: seq<Entry<U>>, k: string)
    requires |a| == |b| && forall i :: 0 <= i < |a| ==> a[i].key == b[i].key
    ensures IndexOf(a, k) == IndexOf(b, k)
  {
    var i, j := IndexOf(a, k), IndexOf(b, k);
    assert i < |a| ==> b[i].key == k;
    assert j < |b| ==> a[j].key == k;
  }

  lemma {:induction false} PrintAppend(es: seq<Entry<Tree>>, e: Entry<Tree>)
    ensures PrintEntries(es + [e]) == PrintEntries(es) + PrintEntry(e)
  {
    if es == [] {
      assert es + [e] == [e];
    } else {
      assert (es + [e])[1..] == es[1..] + [e];
      PrintAppend(es[1..], e);
    }
  }

  lemma NothingPrinted()
    ensures PrintEntries([]) == "" && OPEN + "" == OPEN
  {
  }

  method Tree2Str(tree: TreeNode) returns (p: string)
    requires tree.Valid()
    ensures p == Print(tree.view)
    decreases tree.repr
  {
    hide PrintEntries;
    p := OPEN;
    ghost var es := tree.view.entries;
    NothingPrinted();
    for i := 0 to |tree.entries|
      invariant p == OPEN + PrintEntries(es[..i])
    {
      assert tree.ShowsAt(i) && es[..i + 1] == es[..i] + [es[i]];
      PrintAppend(es[..i], es[i]);
      ghost var printed := PrintEntries(es[..i]);
      var key := tree.entries[i].key;
      p := p + key + ": ";
      match tree.entries[i].value
      case Child(c) =>
        var sub := Tree2Str(c);
        p := p + sub;
        assert p == OPEN + (printed + (key + ": " + sub));
      case Name(n) =>
        p := p + USE + n + END;
        assert p == OPEN + (printed + (key + ": " + USE + n + END));
    }
    assert es[..|tree.entries|] == es;
    p := p + CLOSE;
  }

  /** A search result: class nodes are kept, other nodes are passed over. */
  datatype Item = ClassItem(name: string) | OtherItem

  function Names(res: seq<Item>): seq<string> {
    if res == [] then [] else
      Names(res[..|res| - 1]) + if res[|res| - 1].ClassItem? then [res[|res| - 1].name] else []
  }

  lemma NamesStep(res: seq<Item>, i: nat)
    requires i < |res|
    ensures Names(res[..i + 1]) == if res[i].ClassItem? then Names(res[..i]) + [res[i].name] else Names(res[..i])
  {
    assert res[..i + 1][..i] == res[..i];
  }

  class FridaGenerator {
    var script: string

    constructor ()
      ensures script == ""
    {
      script := "";
    }

    /** Generates the script for a search result, or fails and leaves the former script. */
    method Class(res: seq<Item>) returns (ok: bool)
      modifies this
      ensures ok <==> Build(Names(res)).Some?
      ensures ok ==> Build(Names(res)).value.Obj? && script == Script(Build(Names(res)).value)
      ensures !ok ==> script == old(script)
    {
      hide Names, Build, Insert, Split;
      var tree := new TreeNode();
      ok := true;
      assert Build(Names(res[..0])) == Some(Obj([])) by {
        BuildNothing(res[..0]);
      }
      var i := 0;
      while i < |res| && ok
        invariant 0 <= i <= |res| && fresh(tree) && script == old(script)
        invariant ok ==> tree.Valid() && fresh(tree.repr) && Build(Names(res[..i])) == Some(tree.view)
        invariant !ok ==> Build(Names(res)).None?
      {
        NamesStep(res, i);
        if res[i].ClassItem? {
          BuildAppend(Names(res[..i]), res[i].name);
          ok := MakeTree(tree, res[i].name, res[i].name);
          if !ok {
            BuildStaysNone(res, i + 1);
          }
        }
        i := i + 1;
      }
      if ok {
        assert res[..i] == res;
        var text := Tree2Str(tree);
        script := "var CLS=" + text + ";";
      }
    }
  }

  lemma BuildNothing(res: seq<Item>)
    ensures res == [] ==> Build(Names(res)) == Some(Obj([]))
  {
  }

  lemma BuildAppend(names: seq<string>, n: string)
    ensures Build(names + [n]) == match Build(names) case None => None case Some(t) => Insert(t, n, Split(n, DOT))
  {
    assert (names + [n])[..|names|] == names;
  }

  lemma {:induction false} BuildStaysNone(res: seq<Item>, i: nat)
    requires i <= |res| && Build(Names(res[..i])).None?
    ensures Build(Names(res)).None?
    decreases |res| - i
  {
    hide Names, Build, Insert, Split;
    if i < |res| {
      NamesStep(res, i);
      if res[i].ClassItem? {
        BuildAppend(Names(res[..i]), res[i].name);
      }
      BuildStaysNone(res, i + 1);
    } else {
      assert res[..i] == res;
    }
  }
}
