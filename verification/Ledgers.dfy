/** What mapping a call records beside the graph: who calls a node, where a node belongs, what is missing,
    and which call nodes there are. */
module Ledgers {
  import opened Model
  import opened Resolver
  import opened Steps

  /** One call made by a method: where, by which opcode, and to whom. */
  datatype Site = Site(pos: Pos, opcode: string, callee: ModelMethod)

  datatype Ledger = Ledger(
    callers: map<ModelMethod, seq<ModelMethod>>,
    places: map<ModelMethod, Place>,
    missing: seq<MissingNode>,
    calls: set<(string, Sig, Sig)>)

  ghost function Get<K, T>(m: map<K, seq<T>>, s: K): seq<T> {
    if s in m then m[s] else []
  }

  /** The ledger of the database and of these nodes. */
  ghost function LedgerOf(db: AnalyzerDatabase, nodes: set<ModelMethod>): Ledger
    reads db`missing, db`calls, nodes`callers, nodes`enclosing, nodes`declaring
  {
    Ledger(CallersOf(nodes), PlacesOf(nodes), db.missing, db.calls)
  }

  ghost function NodeAt(g: Graph, n: string): ModelClass? {
    if n in g.classes then g.classes[n].node else null
  }

  /** The reference of the step denotes nothing yet. */
  ghost predicate Makes(x: Step) {
    x.g.Shaped() && Lookup(x.g, x.ref).None?
  }

  /** What the step adds to the missing nodes. */
  ghost function Added(x: Step): seq<MissingNode> {
    if !Makes(x) then []
    else
      (if x.ref.fqcn in x.g.classes || x.ref.fqcn !in x.h.classes then []
       else [MissingClass(x.h.classes[x.ref.fqcn].node)])
      + [MissingMethod(x.callee)]
  }

  /** What a method is bound to by the step: an inherited method as the resolution binds it anew; a new one
      is enclosed in the class that is named. */
  ghost function Bind(places: map<ModelMethod, Place>, x: Step): map<ModelMethod, Place> {
    if Makes(x) then places[x.callee := Place(NodeAt(x.h, x.ref.fqcn), null)]
    else if x.g.Shaped() then Moved(places, Rebinding(x.g, x.ref))
    else places
  }

  /** The ledger once the step has been taken. */
  ghost function Bound(l: Ledger, x: Step): Ledger {
    Ledger(l.callers[x.callee := Get(l.callers, x.callee)], Bind(l.places, x), l.missing + Added(x), l.calls)
  }

  /** The ledger once `m` has made the call. */
  ghost function Entered(l: Ledger, m: ModelMethod, opcode: string, x: Step): Ledger {
    var b := Bound(l, x);
    b.(callers := b.callers[x.callee := WithCaller(Get(b.callers, x.callee), m)],
       calls := b.calls + {(opcode, m.sig, x.callee.sig)})
  }

  /** The ledger once `m` has made all calls of the log, resolved in these steps. */
  ghost function Enter(l: Ledger, m: ModelMethod, log: seq<Site>, xs: seq<Step>): Ledger
    requires |log| == |xs|
  {
    if log == [] then l
    else
      var n := |log| - 1;
      Entered(Enter(l, m, log[..n], xs[..n]), m, log[n].opcode, xs[n])
  }

  ghost function Callees(xs: seq<Step>): set<ModelMethod> {
    set x | x in xs :: x.callee
  }

  lemma CalleesConcat(xs: seq<Step>, ys: seq<Step>)
    ensures Callees(xs + ys) == Callees(xs) + Callees(ys)
  {
    assert forall x :: x in xs + ys <==> x in xs || x in ys;
  }

  lemma EnterOne(l: Ledger, m: ModelMethod, site: Site, x: Step)
    ensures Enter(l, m, [site], [x]) == Entered(l, m, site.opcode, x)
  {
    assert [site][..0] == [] && [x][..0] == [];
    assert Enter(l, m, [site][..0], [x][..0]) == l;
  }

  lemma {:induction false} EnterConcat(l: Ledger, m: ModelMethod, a: seq<Site>, xs: seq<Step>, b: seq<Site>,
      ys: seq<Step>)
    requires |a| == |xs| && |b| == |ys|
    ensures Enter(l, m, a + b, xs + ys) == Enter(Enter(l, m, a, xs), m, b, ys)
  {
    hide Entered;
    if b == [] {
      assert a + b == a && xs + ys == xs;
    } else {
      var n := |b| - 1;
      EnterConcat(l, m, a, xs, b[..n], ys[..n]);
      assert (a + b)[..|a + b| - 1] == a + b[..n] && (xs + ys)[..|xs + ys| - 1] == xs + ys[..n];
    }
  }

  // ---------- one resolution ----------

  lemma BoundSo(l: Ledger, after: Ledger, x: Step)
    requires after.callers == l.callers[x.callee := Get(l.callers, x.callee)] && after.places == Bind(l.places, x)
    requires after.missing == l.missing + Added(x) && after.calls == l.calls
    ensures after == Bound(l, x)
  {
    hide Bind, Added;
  }
}
