/** Upgrading the options of a hook set, and the change record that tells how to go back. */
module HookSet {
  import opened Text
  import opened Model

  /** A shared value, by its JSON text. */
  datatype Json = Null | Json(text: string)

  type Share = map<string, Json>

  datatype Strategy = Strategy(name: string, options: map<string, string>)

  datatype Options = Options(
    name: Option<string>, description: Option<string>, hookShare: Option<Share>, require: Option<seq<string>>,
    prologue: Option<string>, strategies: seq<Strategy>)

  datatype Mode = REPLACE | PRESERVATIVE

  datatype Record = Record(key: string, value: Json)

  datatype ShareDiff = ShareDiff(added: seq<Record>, removed: seq<Record>, modified: seq<Record>)
  datatype ShareChange = ShareChange(value: Option<Share>, diff: Option<ShareDiff>)
  datatype RequireChange = RequireChange(value: Option<seq<string>>, removed: seq<string>, added: seq<string>)
  datatype StrategyChange = StrategyChange(
    value: seq<Strategy>, added: seq<Strategy>, modified: seq<Strategy>, removed: seq<Strategy>)

  /** The former value of each option that changed. */
  datatype Changes = Changes(
    name: Option<Option<string>>, description: Option<Option<string>>, hookShare: Option<ShareChange>,
    require: Option<RequireChange>, prologue: Option<string>, strategies: StrategyChange)

  // ---------- shared values ----------

  /** A missing property reads as null. */
  function At(m: Share, k: string): Json {
    if k in m then m[k] else Null
  }

  function Removed(o: Share, n: Share): Share {
    map k | k in o && At(n, k) == Null :: o[k]
  }

  function Modified(o: Share, n: Share): Share {
    map k | k in o && At(n, k) != Null && n[k] != o[k] :: o[k]
  }

  function Added(o: Share, n: Share): Share {
    map k | k in n && At(o, k) == Null :: n[k]
  }

  /** The records list the entries of the map, each key once. */
  ghost predicate Lists(rs: seq<Record>, m: Share) {
    && (forall r :: r in rs ==> r.key in m && m[r.key] == r.value)
    && (forall k :: k in m ==> Record(k, m[k]) in rs)
    && (forall i, j :: 0 <= i < j < |rs| ==> rs[i].key != rs[j].key)
  }

  function Drop(m: Share, rs: seq<Record>): Share {
    if rs == [] then m else Drop(m, rs[..|rs| - 1]) - {rs[|rs| - 1].key}
  }

  function Restore(m: Share, rs: seq<Record>): Share {
    if rs == [] then m else Restore(m, rs[..|rs| - 1])[rs[|rs| - 1].key := rs[|rs| - 1].value]
  }

  function Undo(m: Share, d: ShareDiff): Share {
    Restore(Restore(Drop(m, d.added), d.modified), d.removed)
  }

  ghost predicate Keyed(rs: seq<Record>, k: string) {
    exists r :: r in rs && r.key == k
  }

  lemma {:induction false} DropAt(m: Share, rs: seq<Record>, k: string)
    ensures k in Drop(m, rs) <==> k in m && !Keyed(rs, k)
    ensures k in Drop(m, rs) ==> Drop(m, rs)[k] == m[k]
  {
    if rs != [] {
      var init, last := rs[..|rs| - 1], rs[|rs| - 1];
      assert rs == init + [last];
      DropAt(m, init, k);
    }
  }

  lemma {:induction false} RestoreAt(m: Share, rs: seq<Record>, k: string)
    ensures k in Restore(m, rs) <==> k in m || Keyed(rs, k)
    ensures k in Restore(m, rs) ==>
      Record(k, Restore(m, rs)[k]) in rs || (k in m && Restore(m, rs)[k] == m[k] && !Keyed(rs, k))
  {
    if rs != [] {
      var init, last := rs[..|rs| - 1], rs[|rs| - 1];
      assert rs == init + [last];
      RestoreAt(m, init, k);
    }
  }

  lemma ListsKeyed(rs: seq<Record>, m: Share, k: string)
    requires Lists(rs, m)
    ensures Keyed(rs, k) <==> k in m
  {
  }

  /** Deleting what was added, restoring what was modified and adding again what was removed turns
      the new shared values into the old ones. */
  lemma UndoShare(o: Share, n: Share, d: ShareDiff)
    requires Lists(d.added, Added(o, n)) && Lists(d.removed, Removed(o, n)) && Lists(d.modified, Modified(o, n))
    ensures Undo(n, d) == o
  {
    var a := Drop(n, d.added);
    var b := Restore(a, d.modified);
    var u := Undo(n, d);
    forall k
      ensures k in u <==> k in o
      ensures k in u ==> u[k] == o[k]
    {
      DropAt(n, d.added, k);
      RestoreAt(a, d.modified, k);
      RestoreAt(b, d.removed, k);
      ListsKeyed(d.added, Added(o, n), k);
      ListsKeyed(d.modified, Modified(o, n), k);
      ListsKeyed(d.removed, Removed(o, n), k);
    }
  }

  lemma ListNext(rs: seq<Record>, m: Share, rest: set<string>, k: string)
    requires Lists(rs, m - rest) && k in rest
    ensures k in m ==> Lists(rs + [Record(k, m[k])], m - (rest - {k}))
    ensures k !in m ==> Lists(rs, m - (rest - {k}))
  {
    if k in m {
      var next := rs + [Record(k, m[k])];
      forall j | j in m - (rest - {k})
        ensures Record(j, m[j]) in next
      {
        assert j != k ==> j in m - rest;
      }
    } else {
      assert m - (rest - {k}) == m - rest;
    }
  }

  lemma DiffTells(o: Share, n: Share, d: ShareDiff)
    requires Lists(d.added, Added(o, n)) && Lists(d.removed, Removed(o, n)) && Lists(d.modified, Modified(o, n))
    ensures forall k :: Keyed(d.removed, k) <==> k in o && (k !in n || n[k] == Null)
    ensures forall k :: Keyed(d.modified, k) <==> k in o && k in n && n[k] != Null && n[k] != o[k]
    ensures forall k :: Keyed(d.added, k) <==> k in n && (k !in o || o[k] == Null)
    ensures forall r :: r in d.removed || r in d.modified ==> r.key in o && r.value == o[r.key]
    ensures forall r :: r in d.added ==> r.key in n && r.value == n[r.key]
  {
    forall k
      ensures Keyed(d.added, k) <==> k in Added(o, n)
      ensures Keyed(d.removed, k) <==> k in Removed(o, n)
      ensures Keyed(d.modified, k) <==> k in Modified(o, n)
    {
      ListsKeyed(d.added, Added(o, n), k);
      ListsKeyed(d.removed, Removed(o, n), k);
      ListsKeyed(d.modified, Modified(o, n), k);
    }
  }

  /** The two loops over the shared values, in whatever order the keys come. */
  method DiffShare(o: Share, n: Share) returns (d: ShareDiff)
    ensures Lists(d.added, Added(o, n)) && Lists(d.removed, Removed(o, n)) && Lists(d.modified, Modified(o, n))
    ensures forall k :: Keyed(d.removed, k) <==> k in o && (k !in n || n[k] == Null)
    ensures forall k :: Keyed(d.modified, k) <==> k in o && k in n && n[k] != Null && n[k] != o[k]
    ensures forall k :: Keyed(d.added, k) <==> k in n && (k !in o || o[k] == Null)
    ensures forall r :: r in d.removed || r in d.modified ==> r.key in o && r.value == o[r.key]
    ensures forall r :: r in d.added ==> r.key in n && r.value == n[r.key]
  {
    var added, removed, modified := [], [], [];
    var rest := o.Keys;
    while rest != {}
      invariant rest <= o.Keys
      invariant Lists(removed, Removed(o, n) - rest) && Lists(modified, Modified(o, n) - rest)
    {
      var k :| k in rest;
      ListNext(removed, Removed(o, n), rest, k);
      ListNext(modified, Modified(o, n), rest, k);
      if At(n, k) == Null {
        removed := removed + [Record(k, o[k])];
      } else if n[k] != o[k] {
        modified := modified + [Record(k, o[k])];
      }
      rest := rest - {k};
    }
    rest := n.Keys;
    while rest != {}
      invariant rest <= n.Keys
      invariant Lists(added, Added(o, n) - rest)
    {
      var k :| k in rest;
      ListNext(added, Added(o, n), rest, k);
      if At(o, k) == Null {
        added := added + [Record(k, n[k])];
      }
      rest := rest - {k};
    }
    d := ShareDiff(added, removed, modified);
    assert Removed(o, n) - {} == Removed(o, n) && Modified(o, n) - {} == Modified(o, n);
    assert Added(o, n) - {} == Added(o, n);
    DiffTells(o, n, d);
  }

  // ---------- required modules ----------

  function JoinAll(xs: seq<string>): string {
    if xs == [] then "" else Join(xs, ',')
  }

  function ListOf(xs: Option<seq<string>>): seq<string> {
    if xs.Some? then xs.value else []
  }

  /** The elements of `xs` that are not in `ys`. */
  function Minus(xs: seq<string>, ys: seq<string>): seq<string> {
    if xs == [] then [] else
      var x := xs[|xs| - 1];
      Minus(xs[..|xs| - 1], ys) + if x in ys then [] else [x]
  }

  ghost function Elements(xs: seq<string>): set<string> {
    set x | x in xs
  }

  lemma ElementsAppend(xs: seq<string>, x: string)
    ensures Elements(xs + [x]) == Elements(xs) + {x}
  {
    assert x in xs + [x];
    assert forall y :: y in xs ==> y in xs + [x];
  }

  lemma {:induction false} MinusElements(xs: seq<string>, ys: seq<string>)
    ensures Elements(Minus(xs, ys)) == Elements(xs) - Elements(ys)
  {
    if xs != [] {
      var init, x := xs[..|xs| - 1], xs[|xs| - 1];
      assert xs == init + [x];
      MinusElements(init, ys);
      ElementsAppend(init, x);
      ElementsAppend(Minus(init, ys), x);
      assert Minus(init, ys) + [] == Minus(init, ys);
    }
  }

  /** What is recorded when the required modules change; none if no change is seen. */
  function RequireDiff(o: Option<seq<string>>, n: Option<seq<string>>): Option<RequireChange> {
    var x, y := ListOf(o), ListOf(n);
    if JoinAll(x) == JoinAll(y) || (Minus(x, y) == [] && Minus(y, x) == []) then None
    else Some(RequireChange(o, Minus(x, y), Minus(y, x)))
  }

  /** A recorded change takes the new set back to the old one. */
  lemma UndoRequire(o: Option<seq<string>>, n: Option<seq<string>>)
    ensures RequireDiff(o, n).Some? ==> var c := RequireDiff(o, n).value;
      Elements(ListOf(o)) == Elements(ListOf(n)) - Elements(c.added) + Elements(c.removed)
  {
    MinusElements(ListOf(o), ListOf(n));
    MinusElements(ListOf(n), ListOf(o));
  }

  /** A change goes unseen exactly when the lists have the same elements or read the same once joined
      with commas. */
  lemma RequireSeen(o: Option<seq<string>>, n: Option<seq<string>>)
    ensures RequireDiff(o, n).None? <==>
      JoinAll(ListOf(o)) == JoinAll(ListOf(n)) || Elements(ListOf(o)) == Elements(ListOf(n))
  {
    var x, y := ListOf(o), ListOf(n);
    MinusElements(x, y);
    MinusElements(y, x);
    assert Minus(x, y) == [] <==> Elements(Minus(x, y)) == {} by {
      NoElements(Minus(x, y));
    }
    assert Minus(y, x) == [] <==> Elements(Minus(y, x)) == {} by {
      NoElements(Minus(y, x));
    }
    assert Elements(x) - Elements(y) == {} && Elements(y) - Elements(x) == {} <==> Elements(x) == Elements(y);
  }

  lemma NoElements(xs: seq<string>)
    ensures xs == [] <==> Elements(xs) == {}
  {
    if xs == [] {
      assert forall x :: x !in Elements(xs);
    } else {
      assert xs[0] in Elements(xs);
    }
  }

  /** For names without a comma only one change of elements is missed: between no module and one
      module with an empty name. */
  lemma RequireMissed(x: seq<string>, y: seq<string>)
    requires forall s :: s in x || s in y ==> ',' !in s
    ensures JoinAll(x) == JoinAll(y) <==> x == y || (x == [] && y == [""]) || (x == [""] && y == [])
  {
    if x != [] {
      SplitJoin(x, ',');
    }
    if y != [] {
      SplitJoin(y, ',');
    }
    assert Join([""], ',') == "";
    SplitStep("", ',');
  }

  // ---------- strategies ----------

  /** `find`: the first strategy of that name. */
  function Find(ss: seq<Strategy>, name: string): (i: nat)
    ensures i <= |ss| && (i < |ss| ==> ss[i].name == name)
    ensures i == |ss| <==> !Named(ss, name)
  {
    if ss == [] then 0
    else if ss[0].name == name then 0
    else
      assert ss == [ss[0]] + ss[1..];
      1 + Find(ss[1..], name)
  }

  predicate Named(ss: seq<Strategy>, name: string) {
    exists s :: s in ss && s.name == name
  }

  ghost predicate Distinct(ss: seq<Strategy>) {
    forall i, j :: 0 <= i < j < |ss| ==> ss[i].name != ss[j].name
  }

  /** The old strategies whose name is gone. */
  function Gone(o: seq<Strategy>, n: seq<Strategy>): seq<Strategy> {
    if o == [] then [] else
      var s := o[|o| - 1];
      Gone(o[..|o| - 1], n) + if Named(n, s.name) then [] else [s]
  }

  /** The old strategy met by each new one of the same name. */
  function Matched(o: seq<Strategy>, n: seq<Strategy>): seq<Strategy> {
    if n == [] then [] else
      var i := Find(o, n[|n| - 1].name);
      Matched(o, n[..|n| - 1]) + if i < |o| then [o[i]] else []
  }

  /** In REPLACE mode a new strategy is stored twice when an old one has its name. */
  function Replaced(o: seq<Strategy>, n: seq<Strategy>): seq<Strategy> {
    if n == [] then [] else
      var s := n[|n| - 1];
      Replaced(o, n[..|n| - 1]) + if Named(o, s.name) then [s, s] else [s]
  }

  const KNOWN := {"autoEmit", "descr", "emitEvent", "loadOn", "unloadOn", "after", "before", "replace", "search"}

  /** Merges options of two strategies of one name: a known option is only replaced where it was set. */
  function Merged(o: Strategy, n: Strategy): Strategy {
    Strategy(o.name, o.options + map k | k in n.options && (k in o.options || k !in KNOWN) :: n.options[k])
  }

  datatype Merging = Merging(old_: seq<Strategy>, list: seq<Strategy>, modified: seq<Strategy>, added: seq<Strategy>)

  /** In PRESERVATIVE mode the merged strategy is stored, and then the new one as well. */
  function Preserved(o: seq<Strategy>, n: seq<Strategy>): (m: Merging)
    ensures |m.old_| == |o|
  {
    if n == [] then Merging(o, [], [], []) else
      var s, m := n[|n| - 1], Preserved(o, n[..|n| - 1]);
      var i := Find(m.old_, s.name);
      if i == |m.old_| then m.(list := m.list + [s], added := m.added + [s])
      else
        var merged := Merged(m.old_[i], s);
        m.(old_ := m.old_[i := merged], list := m.list + [merged, s], modified := m.modified + [merged])
  }

  function StrategyDiff(o: seq<Strategy>, n: seq<Strategy>, mode: Mode): Option<(seq<Strategy>, StrategyChange)> {
    if mode == REPLACE then Some((Replaced(o, n), StrategyChange(o, Gone(n, o), [], Gone(o, n) + Matched(o, n))))
    else if Gone(o, n) != [] then None
    else
      var m := Preserved(o, n);
      Some((m.list, StrategyChange(o, m.added, m.modified, [])))
  }

  // ---------- what the strategies become ----------

  lemma NamedAppend(ss: seq<Strategy>, s: Strategy, x: string)
    ensures Named(ss + [s], x) <==> Named(ss, x) || s.name == x
  {
    assert s in ss + [s];
    assert forall r :: r in ss ==> r in ss + [s];
  }

  lemma NamedLast(ss: seq<Strategy>, x: string)
    requires ss != []
    ensures Named(ss, x) <==> Named(ss[..|ss| - 1], x) || ss[|ss| - 1].name == x
  {
    NamedAppend(ss[..|ss| - 1], ss[|ss| - 1], x);
    assert ss == ss[..|ss| - 1] + [ss[|ss| - 1]];
  }

  /** The names after a replacement are the new ones. */
  lemma {:induction false} ReplacedNames(o: seq<Strategy>, n: seq<Strategy>, x: string)
    ensures Named(Replaced(o, n), x) <==> Named(n, x)
  {
    if n != [] {
      var s, rest := n[|n| - 1], Replaced(o, n[..|n| - 1]);
      ReplacedNames(o, n[..|n| - 1], x);
      NamedLast(n, x);
      NamedAppend(rest, s, x);
      NamedAppend(rest + [s], s, x);
      assert rest + [s] + [s] == rest + [s, s];
    }
  }

  /** The new strategies replace the old ones as they are exactly when no name is kept; each kept
      name makes the list longer by one. */
  lemma {:induction false} ReplacedIsNew(o: seq<Strategy>, n: seq<Strategy>)
    ensures |Replaced(o, n)| == |n| + |Matched(o, n)|
    ensures Replaced(o, n) == n <==> forall s :: s in n ==> !Named(o, s.name)
  {
    if n != [] {
      var init, s := n[..|n| - 1], n[|n| - 1];
      assert n == init + [s];
      ReplacedIsNew(o, init);
      if Replaced(o, n) == n {
        assert |Matched(o, n)| == 0;
      }
    }
  }

  /** Added are the new strategies whose name is new, removed are (first) the old ones whose name is gone. */
  lemma {:induction false} GoneCount(o: seq<Strategy>, n: seq<Strategy>, s: Strategy)
    ensures multiset(Gone(o, n))[s] == if Named(n, s.name) then 0 else multiset(o)[s]
  {
    if o != [] {
      assert o == o[..|o| - 1] + [o[|o| - 1]];
      GoneCount(o[..|o| - 1], n, s);
    }
  }

  function CountNamed(ss: seq<Strategy>, name: string): nat {
    if ss == [] then 0 else CountNamed(ss[..|ss| - 1], name) + if ss[|ss| - 1].name == name then 1 else 0
  }

  /** A kept old strategy is recorded as removed once for each new one of its name; of several old
      ones of a name only the first is. */
  lemma {:induction false} MatchedCount(o: seq<Strategy>, n: seq<Strategy>, s: Strategy)
    ensures multiset(Matched(o, n))[s] ==
      if Named(o, s.name) && o[Find(o, s.name)] == s then CountNamed(n, s.name) else 0
  {
    if n != [] {
      MatchedCount(o, n[..|n| - 1], s);
    }
  }

  lemma {:induction false} CountDistinct(ss: seq<Strategy>, name: string)
    requires Distinct(ss)
    ensures CountNamed(ss, name) == if Named(ss, name) then 1 else 0
  {
    if ss != [] {
      CountDistinct(ss[..|ss| - 1], name);
      NamedLast(ss, name);
    }
  }

  lemma {:induction false} OnlyOnce(ss: seq<Strategy>, s: Strategy)
    requires Distinct(ss)
    ensures multiset(ss)[s] == if Named(ss, s.name) && ss[Find(ss, s.name)] == s then 1 else 0
  {
    if s in ss {
      var i :| 0 <= i < |ss| && ss[i] == s;
      assert ss == ss[..i] + [s] + ss[i + 1..];
      assert s !in ss[..i] && s !in ss[i + 1..];
      assert multiset(ss) == multiset(ss[..i]) + multiset{s} + multiset(ss[i + 1..]);
    }
  }

  /** With distinct names the removed strategies of a replacement are the old ones, rearranged. */
  lemma RemovedIsOld(o: seq<Strategy>, n: seq<Strategy>)
    requires Distinct(o) && Distinct(n)
    ensures multiset(StrategyDiff(o, n, REPLACE).value.1.removed) == multiset(o)
  {
    forall s
      ensures multiset(Gone(o, n) + Matched(o, n))[s] == multiset(o)[s]
    {
      GoneCount(o, n, s);
      MatchedCount(o, n, s);
      CountDistinct(n, s.name);
      OnlyOnce(o, s);
      assert multiset(Gone(o, n) + Matched(o, n)) == multiset(Gone(o, n)) + multiset(Matched(o, n));
    }
  }

  lemma {:induction false} GoneIff(o: seq<Strategy>, n: seq<Strategy>)
    ensures Gone(o, n) == [] <==> forall s :: s in o ==> Named(n, s.name)
  {
    if o != [] {
      assert o == o[..|o| - 1] + [o[|o| - 1]];
      GoneIff(o[..|o| - 1], n);
    }
  }

  /** An upgrade that preserves keeps every name, and stores a kept name twice as well. */
  lemma {:induction false} PreservedNames(o: seq<Strategy>, n: seq<Strategy>, x: string)
    ensures Named(Preserved(o, n).list, x) <==> Named(n, x)
    ensures forall i :: 0 <= i < |o| ==> Preserved(o, n).old_[i].name == o[i].name
    ensures |Preserved(o, n).list| == |n| + |Preserved(o, n).modified|
  {
    if n != [] {
      var init, s := n[..|n| - 1], n[|n| - 1];
      PreservedNames(o, init, x);
      NamedLast(n, x);
      var m := Preserved(o, init);
      var i := Find(m.old_, s.name);
      if i < |m.old_| {
        var merged := Merged(m.old_[i], s);
        NamedAppend(m.list, merged, x);
        NamedAppend(m.list + [merged], s, x);
        assert m.list + [merged] + [s] == m.list + [merged, s];
      } else {
        NamedAppend(m.list, s, x);
      }
    }
  }

  /** Where two strategies of one name are merged the new value wins, unless the option is one of the known
      ones and the old strategy does not have it; an option that only the old one has stays. */
  lemma MergedOptions(o: Strategy, n: Strategy)
    ensures var m, known := Merged(o, n),
        {"autoEmit", "descr", "emitEvent", "loadOn", "unloadOn", "after", "before", "replace", "search"};
      && m.name == o.name
      && forall k ::
        && (k !in n.options ==> (k in m.options <==> k in o.options))
        && (k !in n.options && k in o.options ==> m.options[k] == o.options[k])
        && (k in n.options && k in known && k !in o.options ==> k !in m.options)
        && (k in n.options && (k !in known || k in o.options) ==> k in m.options && m.options[k] == n.options[k])
  {
  }

  lemma ReplacedLast(o: seq<Strategy>, n: seq<Strategy>)
    requires n != []
    ensures var s := n[|n| - 1];
      Replaced(o, n) == Replaced(o, n[..|n| - 1]) + if Named(o, s.name) then [s, s] else [s]
  {
    hide Named;
  }

  /** In a replacement each new strategy is stored at its place, shifted by one for each earlier one whose name
      is kept, and once more behind it if its own name is kept. */
  lemma {:induction false} ReplacedAt(o: seq<Strategy>, n: seq<Strategy>, i: nat)
    requires i < |n|
    ensures var r, k := Replaced(o, n), i + |Matched(o, n[..i])|;
      && k < |r| && r[k] == n[i]
      && (Named(o, n[i].name) ==> k + 1 < |r| && r[k + 1] == n[i])
    decreases |n|
  {
    hide Replaced, Matched, Named;
    var init := n[..|n| - 1];
    ReplacedLast(o, n);
    ReplacedIsNew(o, init);
    if i < |init| {
      assert init[..i] == n[..i];
      ReplacedAt(o, init, i);
    } else {
      assert n[..i] == init;
    }
  }

  /** What an upgrade that preserves lists for the last new strategy: itself, and in front of it, if its name
      is kept, the merge with the old one of that name, which is what is recorded as modified. */
  lemma PreservedLast(o: seq<Strategy>, n: seq<Strategy>)
    requires n != []
    ensures var s, p, m := n[|n| - 1], Preserved(o, n[..|n| - 1]), Preserved(o, n);
      var j := Find(o, s.name);
      && |p.old_| == |o| && |p.list| == |n| - 1 + |p.modified|
      && (j == |o| ==> m == p.(list := p.list + [s], added := p.added + [s]))
      && (j < |o| ==> var merged := Merged(p.old_[j], s);
           m == p.(old_ := p.old_[j := merged], list := p.list + [merged, s], modified := p.modified + [merged]))
  {
    hide Merged, Find;
    PreservedNames(o, n[..|n| - 1], "");
    SameFind(o, Preserved(o, n[..|n| - 1]).old_, n[|n| - 1].name);
  }

  /** The new strategies whose name is new are recorded as added. */
  lemma {:induction false} PreservedAdded(o: seq<Strategy>, n: seq<Strategy>)
    ensures Preserved(o, n).added == Gone(n, o)
  {
    if n != [] {
      hide Preserved, Merged;
      PreservedAdded(o, n[..|n| - 1]);
      PreservedLast(o, n);
    }
  }

  /** Each new strategy is listed at its place, shifted by one for each earlier one whose name is kept; if its own
      name is kept, the merge with the old one of that name is listed in front of it, and recorded as
      modified. */
  lemma {:induction false} PreservedAt(o: seq<Strategy>, n: seq<Strategy>, i: nat)
    requires i < |n|
    ensures var m, j, past := Preserved(o, n), Find(o, n[i].name), |Preserved(o, n[..i]).modified|;
      && |m.list| == |n| + |m.modified|
      && (j == |o| ==> i + past < |m.list| && m.list[i + past] == n[i])
      && (j < |o| ==>
           && i + past + 1 < |m.list| && m.list[i + past + 1] == n[i]
           && past < |m.modified| && m.modified[past] == m.list[i + past])
      && (j < |o| && (forall h :: 0 <= h < i ==> n[h].name != n[i].name) ==> m.list[i + past] == Merged(o[j], n[i]))
    decreases |n|
  {
    hide Preserved, Merged, Find;
    var init := n[..|n| - 1];
    PreservedLast(o, n);
    if i < |init| {
      assert init[..i] == n[..i];
      PreservedAt(o, init, i);
    } else {
      assert n[..i] == init;
      if forall h :: 0 <= h < i ==> n[h].name != n[i].name {
        StillOld(o, init, n[i].name);
      }
    }
  }

  /** Strategies keep their names and places while they are merged. */
  lemma {:induction false} SameFind(o: seq<Strategy>, p: seq<Strategy>, name: string)
    requires |o| == |p| && forall i :: 0 <= i < |o| ==> o[i].name == p[i].name
    ensures Find(o, name) == Find(p, name)
  {
    if o != [] {
      SameFind(o[1..], p[1..], name);
    }
  }

  /** An old strategy stays as it was until one of its name comes. */
  lemma {:induction false} StillOld(o: seq<Strategy>, n: seq<Strategy>, name: string)
    requires forall s :: s in n ==> s.name != name
    ensures forall i :: 0 <= i < |o| && o[i].name == name ==> Preserved(o, n).old_[i] == o[i]
  {
    if n != [] {
      var init := n[..|n| - 1];
      PreservedNames(o, init, "");
      StillOld(o, init, name);
    }
  }

  // ---------- the upgrade ----------

  predicate NewPrologue(o: Options, n: Options) {
    n.prologue.Some? && o.prologue.Some? && o.prologue.value != "" && n.prologue != o.prologue
  }

  /** The options after an upgrade, but for the strategies. */
  function Upgraded(o: Options, n: Options): Options {
    Options(n.name, n.description, n.hookShare,
      if RequireDiff(o.require, n.require).Some? then n.require else o.require,
      if NewPrologue(o, n) then n.prologue else o.prologue,
      o.strategies)
  }

  ghost predicate ShareRecorded(o: Option<Share>, n: Option<Share>, c: Option<ShareChange>) {
    if o.None? && n.None? then c.None?
    else
      && c.Some? && c.value.value == o && (c.value.diff.Some? <==> o.Some? && n.Some?)
      && (c.value.diff.Some? ==> var d := c.value.diff.value;
            && Lists(d.added, Added(o.value, n.value)) && Lists(d.removed, Removed(o.value, n.value))
            && Lists(d.modified, Modified(o.value, n.value)))
  }

  ghost predicate Recorded(o: Options, n: Options, c: Changes) {
    && c.name == (if n.name == o.name then None else Some(o.name))
    && c.description == (if n.description == o.description then None else Some(o.description))
    && ShareRecorded(o.hookShare, n.hookShare, c.hookShare)
    && c.require == RequireDiff(o.require, n.require)
    && c.prologue == (if NewPrologue(o, n) then o.prologue else None)
  }

  /** Goes back by the recorded values. */
  function Revert(u: Options, c: Changes): Options {
    Options(
      if c.name.Some? then c.name.value else u.name,
      if c.description.Some? then c.description.value else u.description,
      if c.hookShare.Some? then c.hookShare.value.value else u.hookShare,
      if c.require.Some? then c.require.value.value else u.require,
      if c.prologue.Some? then c.prologue else u.prologue,
      c.strategies.value)
  }

  /** The change record of a successful upgrade leads back to the old options; where both sides
      share values, so does its list of single changes. */
  lemma UpgradeUndone(o: Options, n: Options, mode: Mode, c: Changes)
    requires StrategyDiff(o.strategies, n.strategies, mode).Some?
    requires Recorded(o, n, c) && c.strategies == StrategyDiff(o.strategies, n.strategies, mode).value.1
    ensures var u := Upgraded(o, n).(strategies := StrategyDiff(o.strategies, n.strategies, mode).value.0);
      && Revert(u, c) == o
      && (o.hookShare.Some? && u.hookShare.Some? ==>
            c.hookShare.Some? && c.hookShare.value.diff.Some? &&
            Undo(u.hookShare.value, c.hookShare.value.diff.value) == o.hookShare.value)
  {
    if o.hookShare.Some? && n.hookShare.Some? {
      UndoShare(o.hookShare.value, n.hookShare.value, c.hookShare.value.diff.value);
    }
  }

  class HookSetOptions {
    var name: Option<string>
    var description: Option<string>
    var hookShare: Option<Share>
    var require: Option<seq<string>>
    var prologue: Option<string>
    var strategies: seq<Strategy>

    ghost function View(): Options
      reads this
    {
      Options(name, description, hookShare, require, prologue, strategies)
    }

    /** None where the program fails: an upgrade that preserves would lose an old strategy. The other
        options have been overwritten by then. */
    method UpgradeOptions(n: Options, mode: Mode) returns (r: Option<Changes>)
      modifies this
      ensures r.None? <==> mode == PRESERVATIVE && exists s :: s in old(strategies) && !Named(n.strategies, s.name)
      ensures r.Some? <==> StrategyDiff(old(strategies), n.strategies, mode).Some?
      ensures r.Some? ==> var d := StrategyDiff(old(strategies), n.strategies, mode).value;
        View() == Upgraded(old(View()), n).(strategies := d.0) && Recorded(old(View()), n, r.value)
        && r.value.strategies == d.1
      ensures r.None? ==> View() == Upgraded(old(View()), n)
    {
      hide RequireDiff, StrategyDiff, Gone, ShareRecorded;
      GoneIff(strategies, n.strategies);
      var cName, cDescription := UpgradeTexts(n);
      var cShare := UpgradeShare(n.hookShare);
      var cRequire := DiffRequire(require, n.require);
      if cRequire.Some? {
        require := n.require;
      }
      var cPrologue := UpgradePrologue(n);
      var d := DiffStrategies(strategies, n.strategies, mode);
      DiffFails(strategies, n.strategies, mode);
      if d.None? {
        return None;
      }
      strategies := d.value.0;
      return Some(Changes(cName, cDescription, cShare, cRequire, cPrologue, d.value.1));
    }

    method UpgradeTexts(n: Options) returns (cName: Option<Option<string>>, cDescription: Option<Option<string>>)
      modifies this`name, this`description
      ensures name == n.name && description == n.description
      ensures cName == if n.name == old(name) then None else Some(old(name))
      ensures cDescription == if n.description == old(description) then None else Some(old(description))
    {
      cName, cDescription := None, None;
      if n.name != name {
        cName := Some(name);
        name := n.name;
      }
      if n.description != description {
        cDescription := Some(description);
        description := n.description;
      }
    }

    method UpgradePrologue(n: Options) returns (c: Option<string>)
      modifies this`prologue
      ensures prologue == if NewPrologue(old(View()), n) then n.prologue else old(prologue)
      ensures c == if NewPrologue(old(View()), n) then old(prologue) else None
    {
      c := None;
      if n.prologue.Some? && prologue.Some? && prologue.value != "" && n.prologue != prologue {
        c := prologue;
        prologue := n.prologue;
      }
    }

    method UpgradeShare(n: Option<Share>) returns (c: Option<ShareChange>)
      modifies this`hookShare
      ensures hookShare == n && ShareRecorded(old(hookShare), n, c)
    {
      c := None;
      if hookShare.Some? || n.Some? {
        if hookShare.Some? && n.Some? {
          var d := DiffShare(hookShare.value, n.value);
          c := Some(ShareChange(hookShare, Some(d)));
        } else {
          c := Some(ShareChange(hookShare, None));
        }
        hookShare := n;
      }
    }
  }

  lemma DiffFails(o: seq<Strategy>, n: seq<Strategy>, mode: Mode)
    ensures StrategyDiff(o, n, mode).None? <==> mode == PRESERVATIVE && Gone(o, n) != []
  {
  }

  method DiffRequire(o: Option<seq<string>>, n: Option<seq<string>>) returns (r: Option<RequireChange>)
    ensures r == RequireDiff(o, n)
  {
    var x, y := ListOf(o), ListOf(n);
    if JoinAll(x) == JoinAll(y) {
      return None;
    }
    var removed, added, changes := [], [], 0;
    for i := 0 to |x|
      invariant removed == Minus(x[..i], y) && changes == |removed|
    {
      assert x[..i + 1][..i] == x[..i];
      if x[i] !in y {
        removed := removed + [x[i]];
        changes := changes + 1;
      }
    }
    for i := 0 to |y|
      invariant added == Minus(y[..i], x) && changes == |removed| + |added|
    {
      assert y[..i + 1][..i] == y[..i];
      if y[i] !in x {
        added := added + [y[i]];
        changes := changes + 1;
      }
    }
    assert x[..|x|] == x && y[..|y|] == y;
    return if changes > 0 then Some(RequireChange(o, removed, added)) else None;
  }

  /** The first loop: the old strategies whose name is gone, or none where that is not allowed. */
  method FindGone(o: seq<Strategy>, n: seq<Strategy>, mode: Mode) returns (r: Option<seq<Strategy>>)
    ensures r == if mode == PRESERVATIVE && Gone(o, n) != [] then None else Some(Gone(o, n))
  {
    var removed := [];
    for i := 0 to |o|
      invariant removed == Gone(o[..i], n) && (mode == PRESERVATIVE ==> removed == [])
    {
      assert o[..i + 1][..i] == o[..i];
      if Find(n, o[i].name) == |n| {
        if mode == PRESERVATIVE {
          GoneIff(o, n);
          return None;
        }
        removed := removed + [o[i]];
      }
    }
    assert o[..|o|] == o;
    return Some(removed);
  }

  /** The state of the second loop after the first `i` new strategies. */
  datatype Progress = Progress(
    olds: seq<Strategy>, list: seq<Strategy>, added: seq<Strategy>, modified: seq<Strategy>, removed: seq<Strategy>)

  ghost function ProgressAt(o: seq<Strategy>, n: seq<Strategy>, mode: Mode, i: nat): Progress
    requires i <= |n|
  {
    if mode == REPLACE then Progress(o, Replaced(o, n[..i]), Gone(n[..i], o), [], Gone(o, n) + Matched(o, n[..i]))
    else
      var m := Preserved(o, n[..i]);
      Progress(m.old_, m.list, m.added, m.modified, [])
  }

  lemma ProgressNext(o: seq<Strategy>, n: seq<Strategy>, mode: Mode, i: nat)
    requires i < |n|
    ensures var p, s := ProgressAt(o, n, mode, i), n[i];
      var k := Find(p.olds, s.name);
      ProgressAt(o, n, mode, i + 1) ==
        if k == |p.olds| then p.(list := p.list + [s], added := p.added + [s])
        else if mode == REPLACE then p.(list := p.list + [s] + [s], removed := p.removed + [p.olds[k]])
        else
          var merged := Merged(p.olds[k], s);
          p.(olds := p.olds[k := merged], list := p.list + [merged] + [s], modified := p.modified + [merged])
  {
    hide Merged, Find;
    assert n[..i + 1][..i] == n[..i];
  }

  lemma ProgressEnds(o: seq<Strategy>, n: seq<Strategy>, mode: Mode)
    ensures ProgressAt(o, n, mode, 0) == Progress(o, [], [], [], if mode == REPLACE then Gone(o, n) else [])
    ensures mode == REPLACE || Gone(o, n) == [] ==> var p := ProgressAt(o, n, mode, |n|);
      StrategyDiff(o, n, mode) == Some((p.list, StrategyChange(o, p.added, p.modified, p.removed)))
  {
    assert n[..0] == [] && n[..|n|] == n && Gone(o, n) + [] == Gone(o, n);
  }

  method DiffStrategies(o: seq<Strategy>, n: seq<Strategy>,
      mode: Mode) returns (r: Option<(seq<Strategy>, StrategyChange)>)
    ensures r == StrategyDiff(o, n, mode)
  {
    hide ProgressAt, Find, Merged, Gone, StrategyDiff;
    DiffFails(o, n, mode);
    ProgressEnds(o, n, mode);
    var gone := FindGone(o, n, mode);
    if gone.None? {
      return None;
    }
    var removed := gone.value;
    var olds, list, added, modified := o, [], [], [];
    for i := 0 to |n|
      invariant Progress(olds, list, added, modified, removed) == ProgressAt(o, n, mode, i)
    {
      ProgressNext(o, n, mode, i);
      var s := n[i];
      var k := Find(olds, s.name);
      if k < |olds| {
        if mode == PRESERVATIVE {
          var merged := Merged(olds[k], s);
          olds := olds[k := merged];
          modified := modified + [merged];
          list := list + [merged];
        } else {
          removed := removed + [olds[k]];
          list := list + [s];
        }
      } else {
        added := added + [s];
      }
      list := list + [s];
    }
    return Some((list, StrategyChange(o, added, modified, removed)));
  }
}
