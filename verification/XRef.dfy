/** Cross references: mapping the instructions of a method to the methods they call. */
module XRef {
  import opened Model
  import opened Resolver
  import opened Steps
  import opened Ledgers

  // ---------- specification ----------

  predicate IsCall(ins: Instr) {
    ins.Invoke? && !ins.special
  }

  ghost predicate Mapped(ins: Instr) {
    IsCall(ins) && ins.right.Node?
  }

  function RefOf(right: Right): Sig {
    if right.Ref? then right.sig else right.callee.sig
  }

  /** The mapped calls among the first `j` instructions of block `bb`. */
  ghost function BlockSites(block: seq<Instr>, bb: nat, j: nat): seq<Site>
    requires j <= |block|
  {
    if j == 0 then []
    else
      var ins := block[j - 1];
      BlockSites(block, bb, j - 1)
      + if Mapped(ins) then [Site(Pos(bb, j - 1), ins.opcode, ins.right.callee)] else []
  }

  /** The mapped calls of the first `i` blocks, in program order. */
  ghost function Sites(blocks: seq<seq<Instr>>, i: nat): seq<Site>
    requires i <= |blocks|
  {
    if i == 0 then [] else Sites(blocks, i - 1) + BlockSites(blocks[i - 1], i - 1, |blocks[i - 1]|)
  }

  /** A call as the code has it: where, by which opcode, whether static, and what it refers to. */
  datatype Call = Call(pos: Pos, opcode: string, isStatic: bool, ref: Sig)

  ghost function CallOf(ins: Instr, pos: Pos): Call
    requires IsCall(ins)
  {
    Call(pos, ins.opcode, ins.static_, RefOf(ins.right))
  }

  /** The calls among the first `j` instructions of block `bb`. */
  ghost function BlockCalls(block: seq<Instr>, bb: nat, j: nat): seq<Call>
    requires j <= |block|
  {
    if j == 0 then []
    else
      var ins := block[j - 1];
      BlockCalls(block, bb, j - 1) + if IsCall(ins) then [CallOf(ins, Pos(bb, j - 1))] else []
  }

  /** The calls of the first `i` blocks, in program order. */
  ghost function Calling(blocks: seq<seq<Instr>>, i: nat): seq<Call>
    requires i <= |blocks|
  {
    if i == 0 then [] else Calling(blocks, i - 1) + BlockCalls(blocks[i - 1], i - 1, |blocks[i - 1]|)
  }

  /** In program order. */
  ghost predicate Before(p: Pos, q: Pos) {
    p.bb < q.bb || (p.bb == q.bb && p.instr < q.instr)
  }

  /** The calls of a block: one for each instruction that invokes a method and is not special, in order, by its
      opcode, static if the instruction is, of the method that its operand refers to or is. */
  lemma {:induction false} BlockCallsAre(block: seq<Instr>, bb: nat, j: nat)
    requires j <= |block|
    ensures forall c ::
      c in BlockCalls(block, bb, j) <==>
        && c.pos.bb == bb && c.pos.instr < j
        && var ins := block[c.pos.instr];
           && ins.Invoke? && !ins.special && c.opcode == ins.opcode && c.isStatic == ins.static_
           && c.ref == if ins.right.Ref? then ins.right.sig else ins.right.callee.sig
    ensures forall a, b :: 0 <= a < b < |BlockCalls(block, bb, j)| ==>
      Before(BlockCalls(block, bb, j)[a].pos, BlockCalls(block, bb, j)[b].pos)
  {
    if j > 0 {
      BlockCallsAre(block, bb, j - 1);
      var init := BlockCalls(block, bb, j - 1);
      assert forall a :: 0 <= a < |init| ==> init[a] in init;
    }
  }

  /** The calls of a method: those of its blocks, in program order. */
  lemma {:induction false} CallsAre(blocks: seq<seq<Instr>>, i: nat)
    requires i <= |blocks|
    ensures forall c ::
      c in Calling(blocks, i) <==>
        && c.pos.bb < i && c.pos.instr < |blocks[c.pos.bb]|
        && var ins := blocks[c.pos.bb][c.pos.instr];
           && ins.Invoke? && !ins.special && c.opcode == ins.opcode && c.isStatic == ins.static_
           && c.ref == if ins.right.Ref? then ins.right.sig else ins.right.callee.sig
    ensures forall a, b :: 0 <= a < b < |Calling(blocks, i)| ==>
      Before(Calling(blocks, i)[a].pos, Calling(blocks, i)[b].pos)
  {
    if i > 0 {
      hide BlockCalls;
      CallsAre(blocks, i - 1);
      BlockCallsAre(blocks[i - 1], i - 1, |blocks[i - 1]|);
      var init, last := Calling(blocks, i - 1), BlockCalls(blocks[i - 1], i - 1, |blocks[i - 1]|);
      assert Calling(blocks, i) == init + last;
      assert forall a :: 0 <= a < |init| ==> init[a] in init;
      assert forall a :: 0 <= a < |last| ==> last[a] in last;
    }
  }

  /** The calls were resolved in these steps, and so became the sites of the log. */
  ghost predicate Traced(calls: seq<Call>, log: seq<Site>, xs: seq<Step>) {
    && |calls| == |log| == |xs|
    && forall k :: 0 <= k < |calls| ==>
         && xs[k].ref == calls[k].ref && xs[k].isStatic == calls[k].isStatic && xs[k].callee == log[k].callee
         && log[k].pos == calls[k].pos && log[k].opcode == calls[k].opcode
  }

  lemma TracedConcat(a: seq<Call>, l: seq<Site>, xs: seq<Step>, b: seq<Call>, m: seq<Site>, ys: seq<Step>)
    requires Traced(a, l, xs) && Traced(b, m, ys)
    ensures Traced(a + b, l + m, xs + ys)
  {
  }

  /** `_useMethod` after recording the calls of `log`. */
  ghost function Uses(base: map<Sig, seq<Pos>>, log: seq<Site>): map<Sig, seq<Pos>> {
    if log == [] then base
    else
      var before, last := Uses(base, log[..|log| - 1]), log[|log| - 1];
      before[last.callee.sig := Get(before, last.callee.sig) + [last.pos]]
  }

  /** The index holds this very node under its signature. */
  ghost predicate IndexedIn(index: map<Key, ModelMethod>, m: ModelMethod) {
    Signature(m.sig) in index && index[Signature(m.sig)] == m
  }

  /** The caller lists of the nodes after method `m` has made the calls of `log`. */
  ghost function Called(base: map<ModelMethod, seq<ModelMethod>>, log: seq<Site>, m: ModelMethod):
      map<ModelMethod, seq<ModelMethod>>
  {
    if log == [] then base
    else
      var before, last := Called(base, log[..|log| - 1], m), log[|log| - 1].callee;
      before[last := WithCaller(Get(before, last), m)]
  }

  /** The caller list of each method indexed under a signature. */
  ghost function CallerIndex(db: AnalyzerDatabase): map<Key, seq<ModelMethod>>
    reads db`methods, db.methods.Values`callers
  {
    map k | k in db.methods && k.Signature? :: db.methods[k].callers
  }

  // ---------- facts about the recorded calls ----------

  lemma {:induction false} UsesKeys(base: map<Sig, seq<Pos>>, log: seq<Site>, s: Sig)
    ensures s in Uses(base, log) <==> s in base || exists x :: x in log && x.callee.sig == s
  {
    if log != [] {
      UsesKeys(base, log[..|log| - 1], s);
      assert log == log[..|log| - 1] + [log[|log| - 1]];
    }
  }

  /** An entry of `_useMethod` lists, in order, the positions of the calls to that signature. */
  lemma {:induction false} UsesPositions(base: map<Sig, seq<Pos>>, log: seq<Site>, s: Sig)
    ensures Get(Uses(base, log), s) == Get(base, s) + PositionsOf(log, s)
  {
    if log != [] {
      UsesPositions(base, log[..|log| - 1], s);
    }
  }

  ghost function PositionsOf(log: seq<Site>, s: Sig): seq<Pos> {
    if log == [] then []
    else
      var last := log[|log| - 1];
      PositionsOf(log[..|log| - 1], s) + if last.callee.sig == s then [last.pos] else []
  }

  /** The log calls that node. */
  ghost predicate CallsNode(log: seq<Site>, x: ModelMethod) {
    exists s :: s in log && s.callee == x
  }

  /** The log calls that signature through the node that the index holds. */
  ghost predicate Calls(log: seq<Site>, s: Sig, index: map<Key, ModelMethod>) {
    exists x :: x in log && x.callee.sig == s && IndexedIn(index, x.callee)
  }

  ghost predicate Unlisted(callers: seq<ModelMethod>, sig: Sig) {
    forall c :: c in callers ==> c.sig != sig
  }

  lemma LastCall(log: seq<Site>, x: ModelMethod)
    requires log != []
    ensures CallsNode(log, x) <==> CallsNode(log[..|log| - 1], x) || log[|log| - 1].callee == x
  {
    assert log == log[..|log| - 1] + [log[|log| - 1]];
  }

  /** After `m` has made its calls a method is listed as a caller of node `x` exactly if it was, or if it is
      `m`, called that node, and no listed caller has its signature. */
  lemma {:induction false} CalledIff(base: map<ModelMethod, seq<ModelMethod>>, log: seq<Site>, m: ModelMethod,
      x: ModelMethod, c: ModelMethod)
    ensures c in Get(Called(base, log, m), x) <==>
      || c in Get(base, x)
      || (c == m && CallsNode(log, x) && Unlisted(Get(base, x), m.sig))
  {
    if log != [] {
      var init, last := log[..|log| - 1], log[|log| - 1];
      CalledIff(base, init, m, x, c);
      UnlistedAfter(base, init, m, x, m.sig);
      LastCall(log, x);
      hide CallsNode;
    }
  }

  /** Which signatures are listed afterwards. */
  lemma {:induction false} UnlistedAfter(base: map<ModelMethod, seq<ModelMethod>>, log: seq<Site>, m: ModelMethod,
      x: ModelMethod, sig: Sig)
    ensures Unlisted(Get(Called(base, log, m), x), sig) <==>
      Unlisted(Get(base, x), sig) && !(m.sig == sig && CallsNode(log, x))
  {
    if log != [] {
      var init, last := log[..|log| - 1], log[|log| - 1];
      UnlistedAfter(base, init, m, x, sig);
      LastCall(log, x);
      hide CallsNode;
    }
  }

  /** The caller lists in the ledger are these. */
  lemma {:induction false} EnterCallers(l: Ledger, m: ModelMethod, log: seq<Site>, xs: seq<Step>)
    requires |log| == |xs| && forall k :: 0 <= k < |log| ==> xs[k].callee == log[k].callee
    ensures Enter(l, m, log, xs).callers == Called(l.callers, log, m)
  {
    if log != [] {
      var n := |log| - 1;
      EnterCallers(l, m, log[..n], xs[..n]);
    }
  }

  ghost function CallIds(log: seq<Site>, m: ModelMethod): set<(string, Sig, Sig)> {
    set x | x in log :: (x.opcode, m.sig, x.callee.sig)
  }

  lemma CallIdsNext(log: seq<Site>, m: ModelMethod)
    requires log != []
    ensures var n := |log| - 1;
      CallIds(log, m) == CallIds(log[..n], m) + {(log[n].opcode, m.sig, log[n].callee.sig)}
  {
    assert log == log[..|log| - 1] + [log[|log| - 1]];
  }

  /** There is one call node for each opcode, caller and callee of the log. */
  lemma {:induction false} EnterCalls(l: Ledger, m: ModelMethod, log: seq<Site>, xs: seq<Step>)
    requires |log| == |xs| && forall k :: 0 <= k < |log| ==> xs[k].callee == log[k].callee
    ensures Enter(l, m, log, xs).calls == l.calls + CallIds(log, m)
  {
    hide CallIds, Bind, Added, WithCaller;
    if log == [] {
      NoCallIds(m);
    } else {
      var n := |log| - 1;
      EnterCalls(l, m, log[..n], xs[..n]);
      CallIdsNext(log, m);
    }
  }

  lemma NoCallIds(m: ModelMethod)
    ensures CallIds([], m) == {}
  {
  }

  ghost predicate CallAt(blocks: seq<seq<Instr>>, p: Pos) {
    p.bb < |blocks| && p.instr < |blocks[p.bb]| && Mapped(blocks[p.bb][p.instr])
  }

  ghost function CalleeAt(blocks: seq<seq<Instr>>, p: Pos): ModelMethod
    requires CallAt(blocks, p)
  {
    blocks[p.bb][p.instr].right.callee
  }

  lemma {:induction false} BlockSitesExact(block: seq<Instr>, bb: nat, j: nat)
    requires j <= |block|
    ensures forall x :: x in BlockSites(block, bb, j) ==>
      x.pos.bb == bb && x.pos.instr < j && Mapped(block[x.pos.instr]) && x.callee == block[x.pos.instr].right.callee
    ensures forall i :: 0 <= i < j && Mapped(block[i]) ==>
      Site(Pos(bb, i), block[i].opcode, block[i].right.callee) in BlockSites(block, bb, j)
    ensures Ordered(BlockSites(block, bb, j))
  {
    if j > 0 {
      BlockSitesExact(block, bb, j - 1);
    }
  }

  ghost predicate Ordered(log: seq<Site>) {
    forall a, b :: 0 <= a < b < |log| ==> Before(log[a].pos, log[b].pos)
  }

  /** The log of a method holds one site per mapped call, in program order. */
  lemma {:induction false} SitesExact(blocks: seq<seq<Instr>>, i: nat)
    requires i <= |blocks|
    ensures forall x :: x in Sites(blocks, i) ==>
      x.pos.bb < i && CallAt(blocks, x.pos) && x.callee == CalleeAt(blocks, x.pos)
    ensures forall p :: CallAt(blocks, p) && p.bb < i ==>
      Site(p, blocks[p.bb][p.instr].opcode, CalleeAt(blocks, p)) in Sites(blocks, i)
    ensures Ordered(Sites(blocks, i))
  {
    if i > 0 {
      SitesExact(blocks, i - 1);
      BlockSitesExact(blocks[i - 1], i - 1, |blocks[i - 1]|);
    }
  }

  ghost predicate AtSite(log: seq<Site>, s: Sig, p: Pos, k: nat) {
    k < |log| && log[k].pos == p && log[k].callee.sig == s
  }

  /** Which positions the entry of a signature holds; each of them once. */
  lemma {:induction false} PositionsExact(log: seq<Site>, s: Sig)
    requires Ordered(log)
    ensures forall p :: p in PositionsOf(log, s) <==> exists k :: AtSite(log, s, p, k)
    ensures forall a, b :: 0 <= a < b < |PositionsOf(log, s)| ==> Before(PositionsOf(log, s)[a], PositionsOf(log, s)[b])
  {
    if log != [] {
      var n := |log| - 1;
      var init := log[..n];
      PositionsExact(init, s);
      forall q | q in PositionsOf(init, s)
        ensures Before(q, log[n].pos)
      {
        var k: nat :| AtSite(init, s, q, k);
        assert log[k] == init[k];
      }
      forall p
        ensures p in PositionsOf(log, s) <==> exists k :: AtSite(log, s, p, k)
      {
        if k: nat :| AtSite(log, s, p, k) && k < n {
          assert AtSite(init, s, p, k);
        }
        if k: nat :| AtSite(init, s, p, k) {
          assert AtSite(log, s, p, k);
        }
        if log[n].callee.sig == s && p == log[n].pos {
          assert AtSite(log, s, p, n);
        }
      }
    }
  }

  // ---------- mapping ----------

  /** The index when the mapping began and now, and the replaced signatures. */
  datatype Scope = Scope(base: map<Key, ModelMethod>, index: map<Key, ModelMethod>, stale: set<Sig>)

  /** A callee whose signature is indexed, by itself unless it was replaced. */
  ghost predicate Known(index: map<Key, ModelMethod>, stale: set<Sig>, m: ModelMethod) {
    Signature(m.sig) in index && (IndexedIn(index, m) || m.sig in stale)
  }

  /** Instruction `a` before mapping and `b` after: calls now point at a known method of the
      referenced name, which is the indexed one if the reference was indexed; nothing else moved. */
  ghost predicate Linked(sc: Scope, a: Instr, b: Instr) {
    if IsCall(a) then
      && Mapped(b) && b == a.(right := b.right)
      && Known(sc.index, sc.stale, b.right.callee) && b.right.callee.sig.name == RefOf(a.right).name
      && (Signature(RefOf(a.right)) in sc.base ==> b.right.callee == sc.base[Signature(RefOf(a.right))])
    else b == a
  }

  /** Resolution, with what becomes of the ledger; `nodes` are the nodes that it covers. */
  method ResolveCall(db: AnalyzerDatabase, ref: Sig, isStatic: bool, ghost nodes: set<ModelMethod>,
      ghost stale: set<Sig>) returns (r: ModelMethod)
    requires db.View().Consistent({}, stale) && db.methods.Values <= nodes
    modifies db`classes, db`methods, db`missing
    modifies db.classes.Values`methods, db.classes.Values`inherit
    modifies db.methods.Values`enclosing, db.methods.Values`declaring
    ensures db.View().Consistent({}, stale) && db.View().Listed(r, stale) && r.sig.name == ref.name
    ensures Extends(old(db.View()), db.View())
    ensures fresh(db.classes.Values - old(db.classes.Values)) && fresh(db.methods.Values - old(db.methods.Values))
    ensures CallersOf(nodes + {r}) == old(CallersOf(nodes))[r := Get(old(CallersOf(nodes)), r)]
    ensures var x := Step(old(db.View()), ref, isStatic, r, db.View());
      PlacesOf(nodes + {r}) == Bind(old(PlacesOf(nodes)), x) && db.missing == old(db.missing) + Added(x)
    ensures Resolves(old(db.View()), ref, isStatic, r, db.View())
    ensures old(Lookup(db.View(), ref)).None? ==> fresh(r) && IsMissingMethod(r, ref, isStatic)
    ensures r in old(db.methods.Values) || (fresh(r) && r.instr == [])
    ensures db.methods.Values <= old(db.methods.Values) + {r}
  {
    hide *;
    ghost var g, before, places, missing := db.View(), db.classes, PlacesOf(nodes), db.missing;
    InView(db);
    LookupCases(db, ref, stale);
    ClassesInView(db);
    FoundIn(db, ref, stale);
    r := ResolveMethod(db, ref, isStatic, nodes, stale);
    LookupNamed(db.View(), ref, stale);
    InView(db);
    ListedIn(db, r, stale);
    ghost var x := Step(g, ref, isStatic, r, db.View());
    if Lookup(g, ref).None? {
      MadeSo(r, ref, isStatic);
      NoneMoved(PlacesOf(nodes), places, x);
      LedgerNew(db, nodes, r, places, missing, x, before);
    } else {
      LedgerFound(nodes, r, places, x);
    }
  }

  lemma FoundIn(db: AnalyzerDatabase, ref: Sig, stale: set<Sig>)
    requires db.View().Consistent({}, stale)
    ensures db.View().Shaped() && (Lookup(db.View(), ref).Some? ==> Lookup(db.View(), ref).value in db.methods.Values)
  {
    hide Lookup;
    if Lookup(db.View(), ref).Some? {
      LookupNamed(db.View(), ref, stale);
    }
  }

  lemma MadeSo(r: ModelMethod, ref: Sig, isStatic: bool)
    requires IsMissingMethod(r, ref, isStatic)
    ensures r.callers == [] && r.instr == [] && r.sig == ref
  {
  }

  lemma NoneMoved(now: map<ModelMethod, Place>, places: map<ModelMethod, Place>, x: Step)
    requires x.g.Shaped() && Rebinding(x.g, x.ref).None? && now == Moved(places, Rebinding(x.g, x.ref))
    ensures now == places
  {
  }

  lemma LedgerNew(db: AnalyzerDatabase, nodes: set<ModelMethod>, r: ModelMethod, places: map<ModelMethod, Place>,
      missing: seq<MissingNode>, x: Step, before: map<string, ModelClass>)
    requires x.g.Shaped() && Lookup(x.g, x.ref).None? && x.callee == r && r !in nodes
    requires before.Keys == x.g.classes.Keys && places == PlacesOf(nodes)
    requires r.callers == [] && x.ref.fqcn in db.classes && x.h == db.View()
    requires r.enclosing == db.classes[x.ref.fqcn] && r.declaring == null
    requires CreatedFor(x.ref, r, before, db.classes, missing, db.missing)
    ensures CallersOf(nodes + {r}) == CallersOf(nodes)[r := Get(CallersOf(nodes), r)]
    ensures PlacesOf(nodes + {r}) == Bind(places, x) && db.missing == missing + Added(x)
  {
    hide Lookup, Rebinding, AnalyzerDatabase.View, Graph.Shaped;
    NodeInView(db, x.ref.fqcn);
    assert CallersOf(nodes + {r}) == CallersOf(nodes)[r := []];
    assert PlacesOf(nodes + {r}) == places[r := Place(db.classes[x.ref.fqcn], null)];
  }

  lemma LedgerFound(nodes: set<ModelMethod>, r: ModelMethod, places: map<ModelMethod, Place>, x: Step)
    requires x.g.Shaped() && Lookup(x.g, x.ref).Some? && x.callee == r && r in nodes
    requires PlacesOf(nodes) == Moved(places, Rebinding(x.g, x.ref))
    ensures CallersOf(nodes + {r}) == CallersOf(nodes)[r := Get(CallersOf(nodes), r)]
    ensures PlacesOf(nodes + {r}) == Bind(places, x) && Added(x) == []
  {
    hide Lookup, Rebinding, Graph.Shaped, Moved;
    assert nodes + {r} == nodes;
    assert CallersOf(nodes)[r := r.callers] == CallersOf(nodes);
  }

  lemma ClassesInView(db: AnalyzerDatabase)
    ensures db.View().classes.Keys == db.classes.Keys
  {
  }

  lemma LedgerParts(db: AnalyzerDatabase, nodes: set<ModelMethod>)
    ensures LedgerOf(db, nodes) == Ledger(CallersOf(nodes), PlacesOf(nodes), db.missing, db.calls)
  {
  }

  lemma NodeInView(db: AnalyzerDatabase, n: string)
    ensures n in db.classes ==> NodeAt(db.View(), n) == db.classes[n] && n in db.View().classes
    ensures n in db.classes ==> db.View().classes[n].node == db.classes[n]
    ensures n !in db.classes ==> n !in db.View().classes
  {
  }

  /** Records that `m` calls `r` at `pos`. */
  method RecordUse(m: ModelMethod, r: ModelMethod, pos: Pos)
    modifies m`useMethod, m`useMethodCtr
    ensures m.useMethod == old(m.useMethod)[r.sig := Get(old(m.useMethod), r.sig) + [pos]]
    ensures m.useMethodCtr - |m.useMethod| == old(m.useMethodCtr) - |old(m.useMethod)|
  {
    if r.sig !in m.useMethod {
      m.useMethod := m.useMethod[r.sig := []];
      m.useMethodCtr := m.useMethodCtr + 1;
    }
    m.useMethod := m.useMethod[r.sig := m.useMethod[r.sig] + [pos]];
  }

  /** What a method has recorded: its uses, and the excess of its counter over them. */
  datatype Note = Note(uses: map<Sig, seq<Pos>>, excess: int)

  ghost function NoteOf(m: ModelMethod): Note
    reads m`useMethod, m`useMethodCtr
  {
    Note(m.useMethod, m.useMethodCtr - |m.useMethod|)
  }

  /** What it has recorded after the calls of the log. */
  ghost function NoteAfter(n: Note, log: seq<Site>): Note {
    Note(Uses(n.uses, log), n.excess)
  }

  lemma {:induction false} UsesConcat(base: map<Sig, seq<Pos>>, a: seq<Site>, b: seq<Site>)
    ensures Uses(base, a + b) == Uses(Uses(base, a), b)
  {
    if b == [] {
      assert a + b == a;
    } else {
      UsesConcat(base, a, b[..|b| - 1]);
      assert (a + b)[..|a + b| - 1] == a + b[..|b| - 1];
    }
  }

  lemma NoteNext(n: Note, a: seq<Site>, b: seq<Site>)
    ensures NoteAfter(n, a + b) == NoteAfter(NoteAfter(n, a), b)
  {
    UsesConcat(n.uses, a, b);
  }

  lemma NoteNone(n: Note)
    ensures NoteAfter(n, []) == n
  {
  }

  lemma NoteOne(n: Note, s: Site)
    ensures NoteAfter(n, [s]) == Note(n.uses[s.callee.sig := Get(n.uses, s.callee.sig) + [s.pos]], n.excess)
  {
    assert [s][..0] == [] && Uses(n.uses, []) == n.uses;
  }

  ghost predicate AllKnown(index: map<Key, ModelMethod>, stale: set<Sig>, log: seq<Site>) {
    forall x :: x in log ==> Known(index, stale, x.callee)
  }

  /** Records a resolved call: the instruction points at the callee, which has the caller. */
  method RecordCall(db: AnalyzerDatabase, m: ModelMethod, r: ModelMethod, i: nat, j: nat, ghost nodes: set<ModelMethod>)
    requires i < |m.instr| && j < |m.instr[i]| && IsCall(m.instr[i][j]) && r in nodes
    modifies db`calls, r`callers, m`instr, m`useMethod, m`useMethodCtr
    ensures db.View() == old(db.View())
    ensures m.instr == old(m.instr[i := m.instr[i][j := m.instr[i][j].(right := Node(r))]])
    ensures NoteOf(m) == NoteAfter(old(NoteOf(m)), [Site(Pos(i, j), old(m.instr[i][j].opcode), r)])
    ensures CallersOf(nodes) == old(CallersOf(nodes)[r := WithCaller(r.callers, m)])
    ensures db.calls == old(db.calls + {(m.instr[i][j].opcode, m.sig, r.sig)})
  {
    hide WithCaller, NoteAfter, AnalyzerDatabase.View;
    NoteOne(NoteOf(m), Site(Pos(i, j), m.instr[i][j].opcode, r));
    m.instr := m.instr[i := m.instr[i][j := m.instr[i][j].(right := Node(r))]];
    db.calls := db.calls + {(m.instr[i][j].opcode, m.sig, r.sig)};
    RecordUse(m, r, Pos(i, j));
    ListCaller(r, m, nodes);
  }

  method ListCaller(r: ModelMethod, m: ModelMethod, ghost nodes: set<ModelMethod>)
    requires r in nodes
    modifies r`callers
    ensures CallersOf(nodes) == old(CallersOf(nodes)[r := WithCaller(r.callers, m)])
  {
    hide WithCaller;
    r.AddCaller(m);
  }

  /** Maps one `invoke-*` instruction: its reference is resolved, and the call recorded. A callee that
      is new has the static flag of the instruction. */
  method MapInvoke(db: AnalyzerDatabase, m: ModelMethod, i: nat, j: nat, ghost nodes: set<ModelMethod>,
      ghost stale: set<Sig>) returns (ghost x: Step)
    requires db.View().Consistent({}, stale) && db.methods.Values <= nodes
    requires i < |m.instr| && j < |m.instr[i]| && IsCall(m.instr[i][j])
    modifies db`classes, db`methods, db`missing, db`calls
    modifies db.classes.Values`methods, db.classes.Values`inherit
    modifies db.methods.Values`enclosing, db.methods.Values`declaring, db.methods.Values`callers
    modifies m`instr, m`useMethod, m`useMethodCtr
    ensures db.View().Consistent({}, stale) && Extends(old(db.View()), db.View())
    ensures fresh(db.classes.Values - old(db.classes.Values)) && fresh(db.methods.Values - old(db.methods.Values))
    ensures m.instr ==
      old(m.instr)[i := old(m.instr[i])[j := old(m.instr[i][j]).(right := Node(x.callee))]]
    ensures Linked(Scope(old(db.methods), db.methods, stale),
      old(m.instr[i][j]), old(m.instr[i][j]).(right := Node(x.callee)))
    ensures x == Step(old(db.View()), old(RefOf(m.instr[i][j].right)), old(m.instr[i][j].static_), x.callee, db.View())
    ensures Taken(x, stale)
    ensures old(Lookup(db.View(), RefOf(m.instr[i][j].right))).None? ==>
      fresh(x.callee) && x.callee.missing && x.callee.isStatic == old(m.instr[i][j].static_)
    ensures NoteOf(m) == NoteAfter(old(NoteOf(m)), [Site(Pos(i, j), old(m.instr[i][j].opcode), x.callee)])
    ensures LedgerOf(db, nodes + {x.callee}) == Entered(old(LedgerOf(db, nodes)), m, old(m.instr[i][j].opcode), x)
    ensures db.methods.Values <= nodes + {x.callee}
    ensures forall y :: y in db.methods.Values ==> y in old(db.methods.Values) || y.instr == []
  {
    hide *;
    ghost var g, l, note, o := db.View(), LedgerOf(db, nodes), NoteOf(m), m.instr;
    var ins := m.instr[i][j];
    IsCallOf(ins);
    var r := ResolveFor(db, ins, nodes, stale);
    x := Step(g, RefOf(ins.right), ins.static_, r, db.View());
    assert NoteOf(m) == note && m.instr == o;
    RecordInvoke(db, m, r, i, j, nodes + {r}, l, x);
  }

  /** Records a call on top of the resolution of its reference. */
  method RecordInvoke(db: AnalyzerDatabase, m: ModelMethod, r: ModelMethod, i: nat, j: nat,
      ghost nodes: set<ModelMethod>, ghost l: Ledger, ghost x: Step)
    requires i < |m.instr| && j < |m.instr[i]| && IsCall(m.instr[i][j]) && r in nodes
    requires x.callee == r && LedgerOf(db, nodes) == Bound(l, x)
    modifies db`calls, r`callers, m`instr, m`useMethod, m`useMethodCtr
    ensures db.View() == old(db.View())
    ensures m.instr == old(m.instr[i := m.instr[i][j := m.instr[i][j].(right := Node(r))]])
    ensures NoteOf(m) == NoteAfter(old(NoteOf(m)), [Site(Pos(i, j), old(m.instr[i][j].opcode), r)])
    ensures LedgerOf(db, nodes) == Entered(l, m, old(m.instr[i][j].opcode), x)
  {
    hide *;
    ghost var lists, places := CallersOf(nodes), PlacesOf(nodes);
    ghost var missing, calls, opcode := db.missing, db.calls, OpcodeOf(m.instr[i][j]);
    LedgerParts(db, nodes);
    CallersIn(nodes, r);
    RecordCall(db, m, r, i, j, nodes);
    LedgerParts(db, nodes);
    EnteredSo(l, lists, places, missing, calls, m, opcode, x);
  }

  ghost function OpcodeOf(ins: Instr): (s: string)
    requires IsCall(ins)
    ensures ins.Invoke? && s == ins.opcode
  {
    ins.opcode
  }

  lemma IsCallOf(ins: Instr)
    requires IsCall(ins)
    ensures ins.Invoke?
  {
  }

  lemma CallersIn(nodes: set<ModelMethod>, r: ModelMethod)
    requires r in nodes
    ensures Get(CallersOf(nodes), r) == r.callers
  {
  }

  lemma EnteredSo(l: Ledger, lists: map<ModelMethod, seq<ModelMethod>>, places: map<ModelMethod, Place>,
      missing: seq<MissingNode>, calls: set<(string, Sig, Sig)>, m: ModelMethod, opcode: string, x: Step)
    requires Ledger(lists, places, missing, calls) == Bound(l, x)
    ensures Ledger(lists[x.callee := WithCaller(Get(lists, x.callee), m)], places, missing,
      calls + {(opcode, m.sig, x.callee.sig)}) == Entered(l, m, opcode, x)
  {
    hide Bound, WithCaller;
  }

  /** Resolves the callee of an instruction. */
  method ResolveFor(db: AnalyzerDatabase, ins: Instr, ghost nodes: set<ModelMethod>, ghost stale: set<Sig>)
      returns (r: ModelMethod)
    requires db.View().Consistent({}, stale) && IsCall(ins) && db.methods.Values <= nodes
    modifies db`classes, db`methods, db`missing
    modifies db.classes.Values`methods, db.classes.Values`inherit
    modifies db.methods.Values`enclosing, db.methods.Values`declaring
    ensures db.View().Consistent({}, stale) && Extends(old(db.View()), db.View())
    ensures fresh(db.classes.Values - old(db.classes.Values)) && fresh(db.methods.Values - old(db.methods.Values))
    ensures r in old(db.methods.Values) || (fresh(r) && r.instr == [])
    ensures db.methods.Values <= old(db.methods.Values) + {r}
    ensures Linked(Scope(old(db.methods), db.methods, stale), ins, ins.(right := Node(r)))
    ensures Taken(Step(old(db.View()), RefOf(ins.right), ins.static_, r, db.View()), stale)
    ensures LedgerOf(db, nodes + {r}) ==
      Bound(old(LedgerOf(db, nodes)), Step(old(db.View()), RefOf(ins.right), ins.static_, r, db.View()))
    ensures old(Lookup(db.View(), RefOf(ins.right))).None? ==>
      fresh(r) && r.missing && r.isStatic == ins.static_
  {
    hide *;
    ghost var g, l, calls := db.View(), LedgerOf(db, nodes), db.calls;
    IsCallOf(ins);
    ShapedOf(g, {}, stale);
    InView(db);
    LedgerParts(db, nodes);
    r := ResolveCall(db, RefOf(ins.right), ins.static_, nodes, stale);
    InView(db);
    LedgerParts(db, nodes + {r});
    BoundSo(l, LedgerOf(db, nodes + {r}), Step(g, RefOf(ins.right), ins.static_, r, db.View()));
    FlagOf(r, RefOf(ins.right), ins.static_);
    TakenSo(Step(g, RefOf(ins.right), ins.static_, r, db.View()), stale);
    FoundIndexed(g, RefOf(ins.right), ins.static_, r, db.View());
    ListedIsLinked(g, db.View(), ins, r, stale);
  }

  lemma FlagOf(r: ModelMethod, ref: Sig, isStatic: bool)
    ensures IsMissingMethod(r, ref, isStatic) ==> r.missing && r.isStatic == isStatic
  {
  }

  lemma TakenSo(x: Step, stale: set<Sig>)
    requires x.g.Consistent({}, stale) && x.h.Consistent({}, stale) && Extends(x.g, x.h)
    requires x.g.Shaped() && Resolves(x.g, x.ref, x.isStatic, x.callee, x.h)
    ensures Taken(x, stale)
  {
    hide Graph.Consistent, Graph.Shaped, Extends, Resolves;
  }

  lemma FoundIndexed(g: Graph, ref: Sig, isStatic: bool, r: ModelMethod, h: Graph)
    requires g.Shaped() && Resolves(g, ref, isStatic, r, h)
    ensures Signature(ref) in g.methods ==> r == g.methods[Signature(ref)]
  {
  }

  lemma ListedIsLinked(g: Graph, h: Graph, ins: Instr, r: ModelMethod, stale: set<Sig>)
    requires IsCall(ins) && h.Listed(r, stale) && r.sig.name == RefOf(ins.right).name
    requires Signature(RefOf(ins.right)) in g.methods ==> r == g.methods[Signature(RefOf(ins.right))]
    ensures Linked(Scope(g.methods, h.methods, stale), ins, ins.(right := Node(r)))
  {
  }

  // ---------- whole blocks and methods ----------

  lemma {:induction false} BlockSitesFrame(a: seq<Instr>, b: seq<Instr>, bb: nat, j: nat)
    requires j <= |a| && j <= |b| && a[..j] == b[..j]
    ensures BlockSites(a, bb, j) == BlockSites(b, bb, j)
  {
    if j > 0 {
      assert a[..j - 1] == a[..j][..j - 1] && b[..j - 1] == b[..j][..j - 1];
      assert a[j - 1] == a[..j][j - 1] && b[j - 1] == b[..j][j - 1];
      BlockSitesFrame(a, b, bb, j - 1);
    }
  }

  lemma {:induction false} SitesFrame(a: seq<seq<Instr>>, b: seq<seq<Instr>>, i: nat)
    requires i <= |a| && i <= |b| && a[..i] == b[..i]
    ensures Sites(a, i) == Sites(b, i)
  {
    if i > 0 {
      assert a[..i - 1] == a[..i][..i - 1] && b[..i - 1] == b[..i][..i - 1];
      assert a[i - 1] == a[..i][i - 1] && b[i - 1] == b[..i][i - 1];
      SitesFrame(a, b, i - 1);
    }
  }

  /** The first `j` instructions are linked, the others untouched. */
  ghost predicate LinkedUpTo(sc: Scope, a: seq<Instr>, b: seq<Instr>, j: nat) {
    && j <= |a| == |b|
    && (forall k :: 0 <= k < j ==> Linked(sc, a[k], b[k]))
    && (forall k :: j <= k < |a| ==> a[k] == b[k])
  }

  lemma LinkedGrows(sc: Scope, a: Instr, b: Instr, h: map<Key, ModelMethod>)
    requires Linked(sc, a, b) && Grows(sc.index, h)
    ensures Linked(sc.(index := h), a, b)
  {
  }

  lemma LinkedFrom(sc: Scope, a: Instr, b: Instr, base: map<Key, ModelMethod>)
    requires Linked(sc, a, b) && Grows(base, sc.base)
    ensures Linked(sc.(base := base), a, b)
  {
  }

  /** The scope one step later. */
  ghost predicate Later(sc: Scope, next: Scope) {
    next.base == sc.base && next.stale == sc.stale && Grows(sc.index, next.index) && Grows(sc.base, sc.index)
  }

  lemma LinkOne(sc: Scope, next: Scope, a: seq<Instr>, b: seq<Instr>, bb: nat, j: nat, site: Site)
    requires LinkedUpTo(sc, a, b, j) && j < |a| && IsCall(a[j]) && Later(sc, next)
    requires site.pos == Pos(bb, j) && site.opcode == a[j].opcode
    requires Linked(next.(base := sc.index), a[j], a[j].(right := Node(site.callee)))
    ensures LinkedUpTo(next, a, b[j := b[j].(right := Node(site.callee))], j + 1)
    ensures BlockSites(b[j := b[j].(right := Node(site.callee))], bb, j + 1) == BlockSites(b, bb, j) + [site]
  {
    var c := b[j := b[j].(right := Node(site.callee))];
    assert b[..j] == c[..j];
    BlockSitesFrame(b, c, bb, j);
    LinkedFrom(next.(base := sc.index), a[j], c[j], next.base);
    forall k | 0 <= k < j
      ensures Linked(next, a[k], c[k])
    {
      LinkedGrows(sc, a[k], b[k], next.index);
    }
  }

  lemma LinkNone(sc: Scope, a: seq<Instr>, b: seq<Instr>, bb: nat, j: nat)
    requires LinkedUpTo(sc, a, b, j) && j < |a| && !IsCall(a[j])
    ensures LinkedUpTo(sc, a, b, j + 1) && BlockSites(b, bb, j + 1) == BlockSites(b, bb, j)
  {
  }

  lemma {:induction false} BlockSitesKnown(sc: Scope, a: seq<Instr>, b: seq<Instr>, bb: nat, j: nat)
    requires LinkedUpTo(sc, a, b, j)
    ensures AllKnown(sc.index, sc.stale, BlockSites(b, bb, j))
  {
    BlockSitesExact(b, bb, j);
    forall x | x in BlockSites(b, bb, j)
      ensures Known(sc.index, sc.stale, x.callee)
    {
      assert Linked(sc, a[x.pos.instr], b[x.pos.instr]);
    }
  }

  /** What mapping the first `j` instructions of a block has done. */
  ghost predicate TracedUpTo(g: Graph, a: seq<Instr>, b: seq<Instr>, bb: nat, j: nat, xs: seq<Step>, h: Graph,
      stale: set<Sig>)
  {
    && j <= |a| == |b| && Path(g, xs, h, stale) && Traced(BlockCalls(a, bb, j), BlockSites(b, bb, j), xs)
  }

  lemma TraceOne(g: Graph, a: seq<Instr>, b: seq<Instr>, c: seq<Instr>, bb: nat, j: nat, xs: seq<Step>, x: Step,
      site: Site, stale: set<Sig>)
    requires TracedUpTo(g, a, b, bb, j, xs, x.g, stale) && j < |a| && IsCall(a[j]) && Taken(x, stale)
    requires x.ref == RefOf(a[j].right) && x.isStatic == a[j].static_
    requires site == Site(Pos(bb, j), a[j].opcode, x.callee)
    requires |c| == |b| && BlockSites(c, bb, j + 1) == BlockSites(b, bb, j) + [site]
    ensures TracedUpTo(g, a, c, bb, j + 1, xs + [x], x.h, stale)
  {
    hide BlockSites, Taken, Path;
    PathNext(g, xs, x, stale);
    var call := CallOf(a[j], Pos(bb, j));
    TracedConcat(BlockCalls(a, bb, j), BlockSites(b, bb, j), xs, [call], [site], [x]);
  }

  lemma TraceSkip(g: Graph, a: seq<Instr>, b: seq<Instr>, bb: nat, j: nat, xs: seq<Step>, h: Graph, stale: set<Sig>)
    requires TracedUpTo(g, a, b, bb, j, xs, h, stale) && j < |a| && !IsCall(a[j])
    requires BlockSites(b, bb, j + 1) == BlockSites(b, bb, j)
    ensures TracedUpTo(g, a, b, bb, j + 1, xs, h, stale)
  {
    hide BlockSites, Path;
  }

  lemma TraceNone(g: Graph, a: seq<Instr>, bb: nat, stale: set<Sig>)
    ensures TracedUpTo(g, a, a, bb, 0, [], g, stale)
  {
  }

  /** What the mapping of some calls leaves: what `m` has recorded, and the ledger. */
  ghost predicate Kept(note: Note, l: Ledger, m: ModelMethod, log: seq<Site>, xs: seq<Step>, now: Note, then_: Ledger) {
    && |log| == |xs| && (forall k :: 0 <= k < |log| ==> xs[k].callee == log[k].callee)
    && now == NoteAfter(note, log) && then_ == Enter(l, m, log, xs)
  }

  lemma KeptNone(note: Note, l: Ledger, m: ModelMethod)
    ensures Kept(note, l, m, [], [], note, l)
  {
  }

  lemma KeptNext(note: Note, l: Ledger, m: ModelMethod, a: seq<Site>, xs: seq<Step>, n: Note, k: Ledger,
      b: seq<Site>, ys: seq<Step>, now: Note, then_: Ledger)
    requires Kept(note, l, m, a, xs, n, k) && Kept(n, k, m, b, ys, now, then_)
    ensures Kept(note, l, m, a + b, xs + ys, now, then_)
  {
    hide NoteAfter, Enter;
    NoteNext(note, a, b);
    EnterConcat(l, m, a, xs, b, ys);
  }

  lemma KeptOne(n: Note, l: Ledger, m: ModelMethod, site: Site, x: Step)
    requires x.callee == site.callee
    ensures Kept(n, l, m, [site], [x], NoteAfter(n, [site]), Entered(l, m, site.opcode, x))
  {
    hide NoteAfter, Entered;
    EnterOne(l, m, site, x);
  }

  /** The nodes known after some steps. */
  ghost function With(nodes: set<ModelMethod>, xs: seq<Step>): set<ModelMethod> {
    nodes + Callees(xs)
  }

  lemma WithNext(nodes: set<ModelMethod>, xs: seq<Step>, ys: seq<Step>)
    ensures With(nodes, xs + ys) == With(With(nodes, xs), ys) && With(nodes, []) == nodes
  {
    CalleesConcat(xs, ys);
  }

  lemma WithOne(nodes: set<ModelMethod>, x: Step)
    ensures With(nodes, [x]) == nodes + {x.callee}
  {
    assert forall y :: y in [x] <==> y == x;
  }

  method MapBlock(db: AnalyzerDatabase, m: ModelMethod, i: nat, ghost nodes: set<ModelMethod>, ghost stale: set<Sig>)
      returns (ghost xs: seq<Step>)
    requires db.View().Consistent({}, stale) && i < |m.instr| && db.methods.Values <= nodes
    modifies db`classes, db`methods, db`missing, db`calls
    modifies db.classes.Values`methods, db.classes.Values`inherit
    modifies db.methods.Values`enclosing, db.methods.Values`declaring, db.methods.Values`callers
    modifies m`instr, m`useMethod, m`useMethodCtr
    ensures db.View().Consistent({}, stale) && Extends(old(db.View()), db.View())
    ensures fresh(db.classes.Values - old(db.classes.Values)) && fresh(db.methods.Values - old(db.methods.Values))
    ensures |m.instr| == |old(m.instr)| && m.instr == old(m.instr)[i := m.instr[i]]
    ensures LinkedUpTo(Scope(old(db.methods), db.methods, stale), old(m.instr)[i], m.instr[i], |m.instr[i]|)
    ensures Kept(old(NoteOf(m)), old(LedgerOf(db, nodes)), m, BlockSites(m.instr[i], i, |m.instr[i]|), xs,
      NoteOf(m), LedgerOf(db, With(nodes, xs)))
    ensures db.methods.Values <= With(nodes, xs)
    ensures TracedUpTo(old(db.View()), old(m.instr)[i], m.instr[i], i, |m.instr[i]|, xs, db.View(), stale)
    ensures forall x :: x in db.methods.Values ==> x in old(db.methods.Values) || x.instr == []
  {
    hide *;
    ghost var g, o, note, l := db.View(), m.instr, NoteOf(m), LedgerOf(db, nodes);
    ghost var before := db.methods.Values;
    InView(db);
    StartBlock(Scope(g.methods, g.methods, stale), o[i], i);
    SameExtends(g);
    TraceNone(g, o[i], i, stale);
    KeptNone(note, l, m);
    WithNext(nodes, [], []);
    xs := [];
    for j := 0 to |m.instr[i]|
      invariant db.View().Consistent({}, stale) && Extends(g, db.View())
      invariant fresh(db.classes.Values - old(db.classes.Values)) && fresh(db.methods.Values - old(db.methods.Values))
      invariant |m.instr| == |o| && m.instr == o[i := m.instr[i]] && |m.instr[i]| == |o[i]|
      invariant LinkedUpTo(Scope(g.methods, db.methods, stale), o[i], m.instr[i], j)
      invariant Kept(note, l, m, BlockSites(m.instr[i], i, j), xs, NoteOf(m), LedgerOf(db, With(nodes, xs)))
      invariant db.methods.Values <= With(nodes, xs)
      invariant TracedUpTo(g, o[i], m.instr[i], i, j, xs, db.View(), stale)
      invariant forall x :: x in db.methods.Values ==> x in before || x.instr == []
    {
      ghost var v, block, log := db.View(), m.instr[i], BlockSites(m.instr[i], i, j);
      ghost var n, k := NoteOf(m), LedgerOf(db, With(nodes, xs));
      ghost var sc := Scope(g.methods, db.methods, stale);
      InView(db);
      Untouched(sc, o[i], block, j);
      IsCallIff(block[j]);
      if m.instr[i][j].Invoke? && !m.instr[i][j].special {
        ghost var y := MapInvoke(db, m, i, j, With(nodes, xs), stale);
        ghost var site := Site(Pos(i, j), block[j].opcode, y.callee);
        InView(db);
        ExtendsOn(g, v, db.View(), stale);
        LinkOne(sc, sc.(index := db.methods), o[i], block, i, j, site);
        TraceOne(g, o[i], block, m.instr[i], i, j, xs, y, site, stale);
        WithOne(With(nodes, xs), y);
        WithNext(nodes, xs, [y]);
        KeptOne(n, k, m, site, y);
        KeptNext(note, l, m, log, xs, n, k, [site], [y], NoteOf(m), LedgerOf(db, With(nodes, xs + [y])));
        xs := xs + [y];
      } else {
        LinkNone(sc, o[i], block, i, j);
        TraceSkip(g, o[i], block, i, j, xs, v, stale);
      }
    }
  }

  lemma IsCallIff(ins: Instr)
    ensures IsCall(ins) <==> ins.Invoke? && !ins.special
  {
  }

  lemma ExtendsOn(g: Graph, h: Graph, k: Graph, stale: set<Sig>)
    requires Extends(g, h) && Extends(h, k)
    ensures Extends(g, k) && Grows(h.methods, k.methods)
    ensures Later(Scope(g.methods, h.methods, stale), Scope(g.methods, k.methods, stale))
  {
  }

  lemma StartBlock(sc: Scope, a: seq<Instr>, bb: nat)
    ensures LinkedUpTo(sc, a, a, 0) && BlockSites(a, bb, 0) == []
  {
  }

  lemma Untouched(sc: Scope, a: seq<Instr>, b: seq<Instr>, j: nat)
    requires LinkedUpTo(sc, a, b, j) && j < |a|
    ensures b[j] == a[j]
  {
  }

  ghost predicate BlocksUpTo(sc: Scope, a: seq<seq<Instr>>, b: seq<seq<Instr>>, i: nat) {
    && i <= |a| == |b|
    && (forall k :: 0 <= k < i ==> LinkedUpTo(sc, a[k], b[k], |b[k]|))
    && (forall k :: i <= k < |a| ==> a[k] == b[k])
  }

  lemma NextBlock(sc: Scope, next: Scope, a: seq<seq<Instr>>, b: seq<seq<Instr>>, i: nat, block: seq<Instr>)
    requires BlocksUpTo(sc, a, b, i) && i < |a| && Later(sc, next)
    requires LinkedUpTo(next.(base := sc.index), a[i], block, |block|)
    ensures BlocksUpTo(next, a, b[i := block], i + 1)
    ensures Sites(b[i := block], i + 1) == Sites(b, i) + BlockSites(block, i, |block|)
  {
    var c := b[i := block];
    assert c[..i] == b[..i];
    SitesFrame(c, b, i);
    hide Linked, Sites, BlockSites;
    forall k | 0 <= k <= i
      ensures LinkedUpTo(next, a[k], c[k], |c[k]|)
    {
      forall l | 0 <= l < |c[k]|
        ensures Linked(next, a[k][l], c[k][l])
      {
        if k < i {
          assert LinkedUpTo(sc, a[k], b[k], |b[k]|);
          LinkedGrows(sc, a[k][l], b[k][l], next.index);
        } else {
          LinkedFrom(next.(base := sc.index), a[i][l], block[l], next.base);
        }
      }
    }
  }

  lemma {:induction false} SitesKnown(sc: Scope, a: seq<seq<Instr>>, b: seq<seq<Instr>>, i: nat)
    requires |a| == |b| && i <= |b| && forall k :: 0 <= k < i ==> LinkedUpTo(sc, a[k], b[k], |b[k]|)
    ensures AllKnown(sc.index, sc.stale, Sites(b, i))
  {
    if i > 0 {
      BlockSitesKnown(sc, a[i - 1], b[i - 1], i - 1, |b[i - 1]|);
      SitesKnown(sc, a, b, i - 1);
    }
  }

  lemma BlocksKnown(sc: Scope, a: seq<seq<Instr>>, b: seq<seq<Instr>>, i: nat)
    requires BlocksUpTo(sc, a, b, i)
    ensures AllKnown(sc.index, sc.stale, Sites(b, i))
  {
    SitesKnown(sc, a, b, i);
  }

  lemma StartBlocks(sc: Scope, a: seq<seq<Instr>>)
    ensures BlocksUpTo(sc, a, a, 0) && Sites(a, 0) == []
  {
  }

  lemma SameBlock(sc: Scope, a: seq<seq<Instr>>, b: seq<seq<Instr>>, i: nat)
    requires BlocksUpTo(sc, a, b, i) && i < |a|
    ensures b[i] == a[i]
  {
  }

  /** What mapping the first `i` blocks of a method has done. */
  ghost predicate TracedBlocks(g: Graph, a: seq<seq<Instr>>, b: seq<seq<Instr>>, i: nat, xs: seq<Step>, h: Graph,
      stale: set<Sig>)
  {
    i <= |a| == |b| && Path(g, xs, h, stale) && Traced(Calling(a, i), Sites(b, i), xs)
  }

  lemma TraceBlock(g: Graph, a: seq<seq<Instr>>, b: seq<seq<Instr>>, i: nat, xs: seq<Step>, h: Graph,
      block: seq<Instr>, ys: seq<Step>, k: Graph, stale: set<Sig>)
    requires TracedBlocks(g, a, b, i, xs, h, stale) && i < |a|
    requires TracedUpTo(h, a[i], block, i, |block|, ys, k, stale)
    requires Sites(b[i := block], i + 1) == Sites(b, i) + BlockSites(block, i, |block|)
    ensures TracedBlocks(g, a, b[i := block], i + 1, xs + ys, k, stale)
  {
    hide Path, Sites, BlockSites, BlockCalls;
    PathConcat(g, xs, h, ys, k, stale);
    TracedConcat(Calling(a, i), Sites(b, i), xs, BlockCalls(a[i], i, |block|), BlockSites(block, i, |block|), ys);
  }

  lemma TraceNoBlock(g: Graph, a: seq<seq<Instr>>, stale: set<Sig>)
    ensures TracedBlocks(g, a, a, 0, [], g, stale)
  {
  }

  /** Maps every instruction of a method: its calls are resolved in program order, each in the graph
      that the former ones left. */
  method MapInstructionFrom(db: AnalyzerDatabase, m: ModelMethod, ghost nodes: set<ModelMethod>,
      ghost stale: set<Sig>) returns (ghost xs: seq<Step>)
    requires db.View().Consistent({}, stale) && db.methods.Values <= nodes
    modifies db`classes, db`methods, db`missing, db`calls
    modifies db.classes.Values`methods, db.classes.Values`inherit
    modifies db.methods.Values`enclosing, db.methods.Values`declaring, db.methods.Values`callers
    modifies m`instr, m`useMethod, m`useMethodCtr
    ensures db.View().Consistent({}, stale) && Extends(old(db.View()), db.View())
    ensures fresh(db.classes.Values - old(db.classes.Values)) && fresh(db.methods.Values - old(db.methods.Values))
    ensures BlocksUpTo(Scope(old(db.methods), db.methods, stale), old(m.instr), m.instr, |m.instr|)
    ensures Kept(old(NoteOf(m)), old(LedgerOf(db, nodes)), m, Sites(m.instr, |m.instr|), xs,
      NoteOf(m), LedgerOf(db, With(nodes, xs)))
    ensures db.methods.Values <= With(nodes, xs)
    ensures TracedBlocks(old(db.View()), old(m.instr), m.instr, |m.instr|, xs, db.View(), stale)
    ensures forall x :: x in db.methods.Values ==> x in old(db.methods.Values) || x.instr == []
  {
    hide *;
    ghost var g, o, note, l := db.View(), m.instr, NoteOf(m), LedgerOf(db, nodes);
    ghost var before := db.methods.Values;
    InView(db);
    StartBlocks(Scope(g.methods, g.methods, stale), o);
    SameExtends(g);
    TraceNoBlock(g, o, stale);
    KeptNone(note, l, m);
    WithNext(nodes, [], []);
    xs := [];
    for i := 0 to |m.instr|
      invariant db.View().Consistent({}, stale) && Extends(g, db.View())
      invariant fresh(db.classes.Values - old(db.classes.Values)) && fresh(db.methods.Values - old(db.methods.Values))
      invariant |m.instr| == |o|
      invariant BlocksUpTo(Scope(g.methods, db.methods, stale), o, m.instr, i)
      invariant Kept(note, l, m, Sites(m.instr, i), xs, NoteOf(m), LedgerOf(db, With(nodes, xs)))
      invariant db.methods.Values <= With(nodes, xs)
      invariant TracedBlocks(g, o, m.instr, i, xs, db.View(), stale)
      invariant forall x :: x in db.methods.Values ==> x in before || x.instr == []
    {
      ghost var v, blocks, log := db.View(), m.instr, Sites(m.instr, i);
      ghost var n, k := NoteOf(m), LedgerOf(db, With(nodes, xs));
      ghost var sc := Scope(g.methods, db.methods, stale);
      InView(db);
      SameBlock(sc, o, blocks, i);
      ghost var ys := MapBlock(db, m, i, With(nodes, xs), stale);
      InView(db);
      ExtendsOn(g, v, db.View(), stale);
      NextBlock(sc, sc.(index := db.methods), o, blocks, i, m.instr[i]);
      TraceBlock(g, o, blocks, i, xs, v, m.instr[i], ys, db.View(), stale);
      WithNext(nodes, xs, ys);
      KeptNext(note, l, m, log, xs, n, k, BlockSites(m.instr[i], i, |m.instr[i]|), ys,
        NoteOf(m), LedgerOf(db, With(nodes, xs + ys)));
      xs := xs + ys;
    }
  }

  // ---------- what a mapped method records ----------

  ghost predicate InvokeAt(blocks: seq<seq<Instr>>, p: Pos) {
    p.bb < |blocks| && p.instr < |blocks[p.bb]| && IsCall(blocks[p.bb][p.instr])
  }

  /** Every call points at a method of an indexed signature. */
  ghost predicate FullyLinked(index: map<Key, ModelMethod>, blocks: seq<seq<Instr>>) {
    forall p :: InvokeAt(blocks, p) ==> CallAt(blocks, p) && Signature(CalleeAt(blocks, p).sig) in index
  }

  lemma MappedIsLinked(sc: Scope, a: seq<seq<Instr>>, b: seq<seq<Instr>>)
    requires BlocksUpTo(sc, a, b, |b|)
    ensures FullyLinked(sc.index, b) && AllKnown(sc.index, sc.stale, Sites(b, |b|))
  {
    hide Sites, AllKnown;
    SitesKnown(sc, a, b, |b|);
    forall p | InvokeAt(b, p)
      ensures CallAt(b, p) && Signature(CalleeAt(b, p).sig) in sc.index
    {
      assert LinkedUpTo(sc, a[p.bb], b[p.bb], |b[p.bb]|);
      assert Linked(sc, a[p.bb][p.instr], b[p.bb][p.instr]);
    }
  }

  /** The positions of the calls to a signature, in program order. */
  ghost function Positions(blocks: seq<seq<Instr>>, s: Sig): seq<Pos> {
    PositionsOf(Sites(blocks, |blocks|), s)
  }

  lemma {:induction false} PositionsConcat(a: seq<Site>, b: seq<Site>, s: Sig)
    ensures PositionsOf(a + b, s) == PositionsOf(a, s) + PositionsOf(b, s)
  {
    if b == [] {
      assert a + b == a;
    } else {
      PositionsConcat(a, b[..|b| - 1], s);
      assert (a + b)[..|a + b| - 1] == a + b[..|b| - 1];
    }
  }

  /** The recorded positions under a signature are those of the calls to it. */
  lemma PositionsAreCalls(blocks: seq<seq<Instr>>, s: Sig, p: Pos)
    ensures p in Positions(blocks, s) <==> CallAt(blocks, p) && CalleeAt(blocks, p).sig == s
  {
    hide PositionsOf, Sites;
    var log := Sites(blocks, |blocks|);
    SitesExact(blocks, |blocks|);
    PositionsExact(log, s);
    if k: nat :| AtSite(log, s, p, k) {
      assert log[k] in log;
    }
    if CallAt(blocks, p) && CalleeAt(blocks, p).sig == s {
      var x := Site(p, blocks[p.bb][p.instr].opcode, CalleeAt(blocks, p));
      assert x in log;
      var k: nat :| k < |log| && log[k] == x;
      assert AtSite(log, s, p, k);
    }
  }

  lemma {:induction false} KeysHavePositions(log: seq<Site>, s: Sig)
    ensures (exists x :: x in log && x.callee.sig == s) <==> PositionsOf(log, s) != []
  {
    if log != [] {
      var init, last := log[..|log| - 1], log[|log| - 1];
      KeysHavePositions(init, s);
      assert log == init + [last];
    }
  }

  // ---------- mapping a method again ----------

  /** Entries of the index are stored under their own signature. */
  ghost predicate Keyed(index: map<Key, ModelMethod>) {
    forall k :: k in index && k.Signature? ==> index[k].sig == k.sig
  }

  lemma {:induction false} SameBlockPositions(sc: Scope, a: seq<Instr>, b: seq<Instr>, bb: nat, j: nat, s: Sig)
    requires LinkedUpTo(sc, a, b, |b|) && j <= |b| && Keyed(sc.base)
    requires forall i :: 0 <= i < |a| && IsCall(a[i]) ==> Mapped(a[i]) && Signature(a[i].right.callee.sig) in sc.base
    ensures PositionsOf(BlockSites(a, bb, j), s) == PositionsOf(BlockSites(b, bb, j), s)
  {
    if j > 0 {
      SameBlockPositions(sc, a, b, bb, j - 1, s);
      BlockSitesNext(a, bb, j, s);
      BlockSitesNext(b, bb, j, s);
      var x, y := a[j - 1], b[j - 1];
      assert Linked(sc, x, y) && (Mapped(x) <==> Mapped(y));
      assert Mapped(x) ==> Signature(x.right.callee.sig) in sc.base && y.right.callee.sig == x.right.callee.sig;
    }
  }

  lemma BlockSitesNext(block: seq<Instr>, bb: nat, j: nat, s: Sig)
    requires 0 < j <= |block|
    ensures PositionsOf(BlockSites(block, bb, j), s) == PositionsOf(BlockSites(block, bb, j - 1), s)
      + if Mapped(block[j - 1]) && block[j - 1].right.callee.sig == s then [Pos(bb, j - 1)] else []
  {
    var log := BlockSites(block, bb, j - 1);
    assert log + [] == log;
    if Mapped(block[j - 1]) {
      var x := Site(Pos(bb, j - 1), block[j - 1].opcode, block[j - 1].right.callee);
      assert (log + [x])[..|log|] == log;
    }
  }

  lemma {:induction false} SamePositionsUpTo(sc: Scope, a: seq<seq<Instr>>, b: seq<seq<Instr>>, i: nat, s: Sig)
    requires BlocksUpTo(sc, a, b, |b|) && i <= |b| && Keyed(sc.base) && FullyLinked(sc.base, a)
    ensures PositionsOf(Sites(a, i), s) == PositionsOf(Sites(b, i), s)
  {
    hide BlockSites, PositionsOf, Linked, Keyed;
    if i > 0 {
      SamePositionsUpTo(sc, a, b, i - 1, s);
      var n := i - 1;
      forall j | 0 <= j < |a[n]| && IsCall(a[n][j])
        ensures Mapped(a[n][j]) && Signature(a[n][j].right.callee.sig) in sc.base
      {
        assert InvokeAt(a, Pos(n, j));
      }
      SameBlockPositions(sc, a[n], b[n], n, |b[n]|, s);
      PositionsConcat(Sites(a, n), BlockSites(a[n], n, |a[n]|), s);
      PositionsConcat(Sites(b, n), BlockSites(b[n], n, |b[n]|), s);
    }
  }

  /** Mapping a linked method again finds the same signatures at the same positions. */
  lemma SamePositions(sc: Scope, a: seq<seq<Instr>>, b: seq<seq<Instr>>, s: Sig)
    requires BlocksUpTo(sc, a, b, |b|) && Keyed(sc.base) && FullyLinked(sc.base, a)
    ensures Positions(a, s) == Positions(b, s)
  {
    SamePositionsUpTo(sc, a, b, |b|, s);
  }

  ghost function Times(p: seq<Pos>, c: nat): seq<Pos> {
    if c == 0 then [] else Times(p, c - 1) + p
  }

  /** `use` holds what `before` held and, under each signature, the positions of the calls to it,
      repeated `c` times; there is an entry for each signature called, and no other new one. */
  ghost predicate Recorded(before: map<Sig, seq<Pos>>, use: map<Sig, seq<Pos>>, blocks: seq<seq<Instr>>, c: nat) {
    && (forall s :: Get(use, s) == Get(before, s) + Times(Positions(blocks, s), c))
    && (forall s :: s in use <==> s in before || (c > 0 && Positions(blocks, s) != []))
  }

  lemma RecordedNext(before: map<Sig, seq<Pos>>, use: map<Sig, seq<Pos>>, blocks: seq<seq<Instr>>, c: nat,
      after: seq<seq<Instr>>)
    requires Recorded(before, use, blocks, c)
    requires c > 0 ==> forall s :: Positions(blocks, s) == Positions(after, s)
    ensures Recorded(before, Uses(use, Sites(after, |after|)), after, c + 1)
  {
    hide Positions, Sites, Uses, Times;
    forall s
      ensures var next := Uses(use, Sites(after, |after|));
        && Get(next, s) == Get(before, s) + Times(Positions(after, s), c + 1)
        && (s in next <==> s in before || Positions(after, s) != [])
    {
      RecordedAt(before, use, blocks, c, after, s);
    }
  }

  lemma RecordedAt(before: map<Sig, seq<Pos>>, use: map<Sig, seq<Pos>>, blocks: seq<seq<Instr>>, c: nat,
      after: seq<seq<Instr>>, s: Sig)
    requires Get(use, s) == Get(before, s) + Times(Positions(blocks, s), c)
    requires s in use <==> s in before || (c > 0 && Positions(blocks, s) != [])
    requires c > 0 ==> Positions(blocks, s) == Positions(after, s)
    ensures var next := Uses(use, Sites(after, |after|));
      && Get(next, s) == Get(before, s) + Times(Positions(after, s), c + 1)
      && (s in next <==> s in before || Positions(after, s) != [])
  {
    hide Sites, Uses, PositionsOf, Times;
    var log, p := Sites(after, |after|), Positions(after, s);
    TimesNext(p, Positions(blocks, s), c);
    UsesPositions(use, log, s);
    UsesKeys(use, log, s);
    KeysHavePositions(log, s);
    hide Positions;
    assert Get(before, s) + Times(p, c) + p == Get(before, s) + (Times(p, c) + p);
  }

  lemma TimesNext(p: seq<Pos>, q: seq<Pos>, c: nat)
    ensures Times(p, c + 1) == Times(p, c) + p && (c == 0 ==> Times(q, 0) == Times(p, 0))
  {
  }

  lemma NothingRecorded(use: map<Sig, seq<Pos>>, blocks: seq<seq<Instr>>)
    ensures Recorded(use, use, blocks, 0)
  {
  }

  ghost predicate NoRepeats(ps: seq<Pos>) {
    forall a, b :: 0 <= a < b < |ps| ==> ps[a] != ps[b]
  }

  /** Each position is recorded once if and only if the method was mapped once or makes no call. */
  lemma OnceIff(use: map<Sig, seq<Pos>>, blocks: seq<seq<Instr>>, c: nat)
    requires Recorded(map[], use, blocks, c) && c > 0
    ensures (forall s :: NoRepeats(Get(use, s))) <==> c == 1 || forall s :: Positions(blocks, s) == []
  {
    forall s
      ensures NoRepeats(Get(use, s)) <==> c == 1 || Positions(blocks, s) == []
    {
      var p := Positions(blocks, s);
      PositionsApart(blocks, s);
      assert Get(use, s) == Times(p, c) && Times(p, c) == Times(p, c - 1) + p;
      if c == 1 {
        assert Times(p, 0) + p == p;
      } else if p != [] {
        assert Times(p, c - 1) == Times(p, c - 2) + p;
        var n := |Times(p, c - 2)|;
        assert Times(p, c)[n] == p[0] && Times(p, c)[n + |p|] == p[0];
      } else {
        TimesNothing(c);
      }
    }
  }

  lemma {:induction false} TimesNothing(c: nat)
    ensures Times([], c) == []
  {
    if c > 0 {
      TimesNothing(c - 1);
    }
  }

  lemma PositionsApart(blocks: seq<seq<Instr>>, s: Sig)
    ensures NoRepeats(Positions(blocks, s))
    ensures forall a, b :: 0 <= a < b < |Positions(blocks, s)| ==>
      Before(Positions(blocks, s)[a], Positions(blocks, s)[b])
  {
    SitesExact(blocks, |blocks|);
    PositionsExact(Sites(blocks, |blocks|), s);
  }

  /** `use` holds, under each signature, exactly the positions of the calls to it: every
      invoke instruction that is not special, once, in program order. */
  ghost predicate ExactUses(blocks: seq<seq<Instr>>, use: map<Sig, seq<Pos>>) {
    && (forall p :: InvokeAt(blocks, p) ==> CallAt(blocks, p))
    && (forall s, p :: s in use && p in use[s] <==> CallAt(blocks, p) && CalleeAt(blocks, p).sig == s)
    && (forall s :: s in use ==> use[s] != [])
    && (forall s, a, b :: s in use && 0 <= a < b < |use[s]| ==> Before(use[s][a], use[s][b]))
  }

  lemma MappedMethod(index: map<Key, ModelMethod>, use: map<Sig, seq<Pos>>, blocks: seq<seq<Instr>>)
    requires Recorded(map[], use, blocks, 1) && FullyLinked(index, blocks)
    ensures ExactUses(blocks, use)
  {
    hide Positions;
    forall s
      ensures Get(use, s) == Positions(blocks, s)
    {
      assert Times(Positions(blocks, s), 1) == Times(Positions(blocks, s), 0) + Positions(blocks, s);
    }
    forall s, p
      ensures s in use && p in use[s] <==> CallAt(blocks, p) && CalleeAt(blocks, p).sig == s
    {
      PositionsAreCalls(blocks, s, p);
    }
    forall s, a, b | s in use && 0 <= a < b < |use[s]|
      ensures Before(use[s][a], use[s][b])
    {
      PositionsApart(blocks, s);
    }
  }

  // ---------- a sequence of methods ----------

  /** What mapping leaves on a method. */
  datatype Rec = Rec(note: Note, instr: seq<seq<Instr>>)

  ghost function RecOf(m: ModelMethod): Rec
    reads m`useMethod, m`useMethodCtr, m`instr
  {
    Rec(NoteOf(m), m.instr)
  }

  ghost function RecsOf(ms: seq<ModelMethod>): map<ModelMethod, Rec>
    reads ms
  {
    map m | m in ms :: RecOf(m)
  }

  ghost function Occurrences(ms: seq<ModelMethod>, m: ModelMethod): nat {
    multiset(ms)[m]
  }

  /** The log finds the same signatures at the same positions. */
  ghost predicate SameTrace(log: seq<Site>, blocks: seq<seq<Instr>>) {
    forall s :: PositionsOf(log, s) == Positions(blocks, s)
  }

  /** Each mapped method has recorded its calls as often as it was mapped. */
  ghost predicate Counted(recs: map<ModelMethod, Rec>, start: map<ModelMethod, Rec>, ms: seq<ModelMethod>,
      index: map<Key, ModelMethod>)
  {
    forall m :: m in ms ==>
      && m in recs && FullyLinked(index, recs[m].instr)
      && (m in start ==>
            && recs[m].note.excess == start[m].note.excess
            && Recorded(start[m].note.uses, recs[m].note.uses, recs[m].instr, Occurrences(ms, m)))
  }

  /** The logs are those of the mapped methods. */
  ghost predicate Logged(recs: map<ModelMethod, Rec>, ms: seq<ModelMethod>, logs: seq<seq<Site>>,
      index: map<Key, ModelMethod>, stale: set<Sig>)
  {
    |logs| == |ms| && forall a :: 0 <= a < |ms| ==>
      ms[a] in recs && AllKnown(index, stale, logs[a]) && SameTrace(logs[a], recs[ms[a]].instr)
  }

  /** The caller lists after all the methods have made their calls. */
  ghost function CalledAll(base: map<ModelMethod, seq<ModelMethod>>, ms: seq<ModelMethod>, logs: seq<seq<Site>>):
      map<ModelMethod, seq<ModelMethod>>
    requires |logs| == |ms|
  {
    if ms == [] then base
    else
      var n := |ms| - 1;
      Called(CalledAll(base, ms[..n], logs[..n]), logs[n], ms[n])
  }

  /** The ledger after them. */
  ghost function EnterAll(l: Ledger, ms: seq<ModelMethod>, logs: seq<seq<Site>>, steps: seq<seq<Step>>): Ledger
    requires |logs| == |ms| == |steps| && forall a :: 0 <= a < |ms| ==> |logs[a]| == |steps[a]|
  {
    if ms == [] then l
    else
      var n := |ms| - 1;
      Enter(EnterAll(l, ms[..n], logs[..n], steps[..n]), ms[n], logs[n], steps[n])
  }

  /** The logs name the callees of the steps. */
  ghost predicate Paired(ms: seq<ModelMethod>, logs: seq<seq<Site>>, steps: seq<seq<Step>>) {
    |logs| == |ms| == |steps| && forall a :: 0 <= a < |ms| ==>
      |logs[a]| == |steps[a]| && forall k :: 0 <= k < |logs[a]| ==> steps[a][k].callee == logs[a][k].callee
  }

  lemma {:induction false} EnterAllCallers(l: Ledger, ms: seq<ModelMethod>, logs: seq<seq<Site>>,
      steps: seq<seq<Step>>)
    requires Paired(ms, logs, steps)
    ensures EnterAll(l, ms, logs, steps).callers == CalledAll(l.callers, ms, logs)
  {
    hide Enter, Called;
    if ms != [] {
      var n := |ms| - 1;
      EnterAllCallers(l, ms[..n], logs[..n], steps[..n]);
      EnterCallers(EnterAll(l, ms[..n], logs[..n], steps[..n]), ms[n], logs[n], steps[n]);
    }
  }

  lemma EnterAllNext(l: Ledger, ms: seq<ModelMethod>, logs: seq<seq<Site>>, steps: seq<seq<Step>>,
      m: ModelMethod, log: seq<Site>, xs: seq<Step>)
    requires Paired(ms, logs, steps) && |log| == |xs| && forall k :: 0 <= k < |log| ==> xs[k].callee == log[k].callee
    ensures Paired(ms + [m], logs + [log], steps + [xs])
    ensures EnterAll(l, ms + [m], logs + [log], steps + [xs]) == Enter(EnterAll(l, ms, logs, steps), m, log, xs)
  {
    hide Enter;
    assert (ms + [m])[..|ms|] == ms && (logs + [log])[..|ms|] == logs && (steps + [xs])[..|ms|] == steps;
  }

  lemma CountedNext(recs: map<ModelMethod, Rec>, start: map<ModelMethod, Rec>, ms: seq<ModelMethod>,
      m: ModelMethod, sc: Scope, before: Rec, after: Rec)
    requires Counted(recs, start, ms, sc.base) && Keyed(sc.base) && Grows(sc.base, sc.index)
    requires m in ms ==> recs[m] == before
    requires m in start && m !in ms ==> start[m] == before
    requires BlocksUpTo(sc, before.instr, after.instr, |after.instr|)
    requires after.note == NoteAfter(before.note, Sites(after.instr, |after.instr|))
    ensures Counted(recs[m := after], start, ms + [m], sc.index)
    ensures FullyLinked(sc.index, after.instr)
    ensures m in ms ==> forall s :: Positions(before.instr, s) == Positions(after.instr, s)
  {
    hide Positions, Sites, Uses, Recorded, BlocksUpTo, FullyLinked, Keyed, Grows, AllKnown;
    MappedIsLinked(sc, before.instr, after.instr);
    if m in ms {
      forall s
        ensures Positions(before.instr, s) == Positions(after.instr, s)
      {
        SamePositions(sc, before.instr, after.instr, s);
      }
    }
    CountedNew(recs, start, ms, sc.base, m, before, after);
    CountedOthers(recs, start, ms, m, sc.base, sc.index);
  }

  /** The method mapped last. */
  lemma CountedNew(recs: map<ModelMethod, Rec>, start: map<ModelMethod, Rec>, ms: seq<ModelMethod>,
      index: map<Key, ModelMethod>, m: ModelMethod, before: Rec, after: Rec)
    requires Counted(recs, start, ms, index) && (m in ms ==> recs[m] == before)
    requires m in start && m !in ms ==> start[m] == before
    requires after.note == NoteAfter(before.note, Sites(after.instr, |after.instr|))
    requires m in ms ==> forall s :: Positions(before.instr, s) == Positions(after.instr, s)
    ensures m in start ==>
      && after.note.excess == start[m].note.excess
      && Recorded(start[m].note.uses, after.note.uses, after.instr, Occurrences(ms + [m], m))
  {
    hide Positions, Sites, Uses, Recorded, FullyLinked;
    NothingRecorded(before.note.uses, before.instr);
    assert Occurrences(ms + [m], m) == Occurrences(ms, m) + 1 && (Occurrences(ms, m) > 0 <==> m in ms);
    if m in start {
      RecordedNext(start[m].note.uses, before.note.uses, before.instr, Occurrences(ms, m), after.instr);
    }
  }

  /** The methods mapped before, if they are not the last one. */
  lemma CountedOthers(recs: map<ModelMethod, Rec>, start: map<ModelMethod, Rec>, ms: seq<ModelMethod>,
      m: ModelMethod, g: map<Key, ModelMethod>, h: map<Key, ModelMethod>)
    requires Counted(recs, start, ms, g) && Grows(g, h)
    ensures forall x :: x in ms && x != m ==>
      && x in recs && FullyLinked(h, recs[x].instr)
      && (x in start ==>
            && recs[x].note.excess == start[x].note.excess
            && Recorded(start[x].note.uses, recs[x].note.uses, recs[x].instr, Occurrences(ms + [m], x)))
  {
    hide Recorded, FullyLinked, Grows;
    forall x | x in ms && x != m
      ensures Occurrences(ms + [m], x) == Occurrences(ms, x) && FullyLinked(h, recs[x].instr)
    {
      LinkedStays(g, h, recs[x].instr);
    }
  }

  lemma LinkedStays(g: map<Key, ModelMethod>, h: map<Key, ModelMethod>, blocks: seq<seq<Instr>>)
    requires FullyLinked(g, blocks) && Grows(g, h)
    ensures FullyLinked(h, blocks)
  {
  }

  lemma LoggedNext(recs: map<ModelMethod, Rec>, ms: seq<ModelMethod>, logs: seq<seq<Site>>,
      m: ModelMethod, g: map<Key, ModelMethod>, h: map<Key, ModelMethod>, stale: set<Sig>, after: Rec)
    requires Logged(recs, ms, logs, g, stale) && Grows(g, h)
    requires AllKnown(h, stale, Sites(after.instr, |after.instr|))
    requires m in ms ==> forall s :: Positions(recs[m].instr, s) == Positions(after.instr, s)
    ensures Logged(recs[m := after], ms + [m], logs + [Sites(after.instr, |after.instr|)], h, stale)
  {
    hide Sites;
    forall a | 0 <= a < |ms|
      ensures AllKnown(h, stale, logs[a]) && SameTrace(logs[a], recs[m := after][ms[a]].instr)
    {
      assert AllKnown(g, stale, logs[a]) && SameTrace(logs[a], recs[ms[a]].instr);
      assert ms[a] == m ==> m in ms;
    }
    assert SameTrace(Sites(after.instr, |after.instr|), after.instr);
  }

  // ---------- who is a caller afterwards ----------

  /** The first method of that signature to call node `x`. */
  ghost predicate FirstCaller(ms: seq<ModelMethod>, logs: seq<seq<Site>>, x: ModelMethod, sig: Sig, a: int)
    requires |logs| == |ms|
  {
    && 0 <= a < |ms| && ms[a].sig == sig && CallsNode(logs[a], x)
    && forall b :: 0 <= b < a ==> !(ms[b].sig == sig && CallsNode(logs[b], x))
  }

  ghost predicate SomeCaller(ms: seq<ModelMethod>, logs: seq<seq<Site>>, x: ModelMethod, sig: Sig)
    requires |logs| == |ms|
  {
    exists b :: 0 <= b < |ms| && ms[b].sig == sig && CallsNode(logs[b], x)
  }

  lemma {:induction false} UnlistedAll(base: map<ModelMethod, seq<ModelMethod>>, ms: seq<ModelMethod>,
      logs: seq<seq<Site>>, x: ModelMethod, sig: Sig)
    requires |logs| == |ms|
    ensures Unlisted(Get(CalledAll(base, ms, logs), x), sig) <==>
      Unlisted(Get(base, x), sig) && !SomeCaller(ms, logs, x, sig)
  {
    hide Unlisted, Called, CallsNode;
    if ms != [] {
      var n := |ms| - 1;
      UnlistedAll(base, ms[..n], logs[..n], x, sig);
      UnlistedAfter(CalledAll(base, ms[..n], logs[..n]), logs[n], ms[n], x, sig);
      assert SomeCaller(ms, logs, x, sig) <==>
        SomeCaller(ms[..n], logs[..n], x, sig) || (ms[n].sig == sig && CallsNode(logs[n], x));
    }
  }

  /** A caller of `x` from the start, or the first of its signature to call `x`, if that signature was
      not listed. */
  ghost predicate CallerAfter(base: map<ModelMethod, seq<ModelMethod>>, ms: seq<ModelMethod>, logs: seq<seq<Site>>,
      x: ModelMethod, c: ModelMethod)
    requires |logs| == |ms|
  {
    || c in Get(base, x)
    || (Unlisted(Get(base, x), c.sig) && exists a :: FirstCaller(ms, logs, x, c.sig, a) && ms[a] == c)
  }

  /** After any sequence of mappings a method is listed as caller of node `x` exactly if it was, or if no
      method of its signature was and it is the first of its signature to call `x`. */
  lemma {:induction false} CalledAllIff(base: map<ModelMethod, seq<ModelMethod>>, ms: seq<ModelMethod>,
      logs: seq<seq<Site>>, x: ModelMethod, c: ModelMethod)
    requires |logs| == |ms|
    ensures c in Get(CalledAll(base, ms, logs), x) <==> CallerAfter(base, ms, logs, x, c)
  {
    hide Unlisted, Called, CallsNode, SomeCaller, FirstCaller;
    if ms == [] {
      NoFirstCaller(logs, x, c.sig);
    } else {
      var n := |ms| - 1;
      var init, part := ms[..n], logs[..n];
      CalledAllIff(base, init, part, x, c);
      CalledIff(CalledAll(base, init, part), logs[n], ms[n], x, c);
      UnlistedAll(base, init, part, x, ms[n].sig);
      FirstCallers(ms, logs, x, c.sig);
      if a :| FirstCaller(ms, logs, x, c.sig, a) && ms[a] == c {
        assert a < n ==> FirstCaller(init, part, x, c.sig, a);
      }
      if a :| FirstCaller(init, part, x, c.sig, a) && init[a] == c {
        assert FirstCaller(ms, logs, x, c.sig, a);
      }
    }
  }

  lemma NoFirstCaller(logs: seq<seq<Site>>, x: ModelMethod, sig: Sig)
    requires logs == []
    ensures forall a :: !FirstCaller([], logs, x, sig, a)
  {
  }

  /** The first caller among all of them is that among the earlier ones, or the last method. */
  lemma FirstCallers(ms: seq<ModelMethod>, logs: seq<seq<Site>>, x: ModelMethod, sig: Sig)
    requires |logs| == |ms| > 0
    ensures var n := |ms| - 1;
      && (forall a :: 0 <= a < n ==> ms[..n][a] == ms[a])
      && (forall a :: 0 <= a < n ==>
            (FirstCaller(ms, logs, x, sig, a) <==> FirstCaller(ms[..n], logs[..n], x, sig, a)))
      && (FirstCaller(ms, logs, x, sig, n) <==>
           ms[n].sig == sig && CallsNode(logs[n], x) && !SomeCaller(ms[..n], logs[..n], x, sig))
      && (forall a :: FirstCaller(ms, logs, x, sig, a) ==> 0 <= a <= n)
      && (forall a :: FirstCaller(ms[..n], logs[..n], x, sig, a) ==> 0 <= a < n)
  {
    hide CallsNode;
    var n := |ms| - 1;
    assert forall b :: 0 <= b < n ==> ms[..n][b] == ms[b] && logs[..n][b] == logs[b];
  }

  // ---------- mapping a sequence ----------

  /** What a sequence of mappings has done so far: the methods mapped, in order, with the log of each
      mapping, the steps that resolved its calls, and the graph before it (and last, the graph now);
      and what the indexed methods had recorded, and their ledger, before all of them. */
  datatype Progress = Progress(
    ms: seq<ModelMethod>, logs: seq<seq<Site>>, steps: seq<seq<Step>>, states: seq<Graph>,
    start: map<ModelMethod, Rec>, ledger: Ledger)
  {
    /** The nodes that were there at the start, or have been called. */
    ghost function Nodes(): set<ModelMethod> {
      start.Keys + CalleesOf(steps)
    }
  }

  ghost function CalleesOf(steps: seq<seq<Step>>): set<ModelMethod> {
    if steps == [] then {} else CalleesOf(steps[..|steps| - 1]) + Callees(steps[|steps| - 1])
  }

  lemma CalleesNext(steps: seq<seq<Step>>, xs: seq<Step>)
    ensures CalleesOf(steps + [xs]) == CalleesOf(steps) + Callees(xs)
  {
    assert (steps + [xs])[..|steps|] == steps;
  }

  /** What the mapping of `m` resolved: the calls of its code as it was at the start; or, if it has
      been mapped before, or was created since then, nothing that was not indexed. */
  ghost predicate Resolving(start: map<ModelMethod, Rec>, ms: seq<ModelMethod>, m: ModelMethod, log: seq<Site>,
      xs: seq<Step>, g: Graph)
  {
    && |xs| == |log| && (forall k :: 0 <= k < |xs| ==> xs[k].callee == log[k].callee)
    && if m in start && m !in ms then Traced(Calling(start[m].instr, |start[m].instr|), log, xs)
       else forall x :: x in xs ==> Signature(x.ref) in g.methods
  }

  ghost predicate WalkedAt(p: Progress, a: nat, stale: set<Sig>)
    requires a < |p.ms| == |p.logs| == |p.steps| && |p.states| == |p.ms| + 1
  {
    && Path(p.states[a], p.steps[a], p.states[a + 1], stale)
    && Resolving(p.start, p.ms[..a], p.ms[a], p.logs[a], p.steps[a], p.states[a])
  }

  /** Each mapping went from one graph to the next. */
  ghost predicate Walked(p: Progress, stale: set<Sig>) {
    && |p.ms| == |p.logs| == |p.steps| && |p.states| == |p.ms| + 1
    && forall a :: 0 <= a < |p.ms| ==> WalkedAt(p, a, stale)
  }

  /** The indexed methods that were not there at the start have no code. */
  ghost predicate NewAreBare(db: AnalyzerDatabase, start: set<ModelMethod>)
    reads db`methods, db.methods.Values`instr
  {
    forall m :: m in db.methods.Values ==> m in start || m.instr == []
  }

  /** The ledger is that of all the calls, on top of what it was at the start. */
  ghost predicate Entries(db: AnalyzerDatabase, p: Progress)
    reads db`missing, db`calls, p.Nodes()`callers, p.Nodes()`enclosing, p.Nodes()`declaring
  {
    Paired(p.ms, p.logs, p.steps) && LedgerOf(db, p.Nodes()) == EnterAll(p.ledger, p.ms, p.logs, p.steps)
  }

  ghost predicate MappedSo(db: AnalyzerDatabase, p: Progress, stale: set<Sig>)
    reads db, db.classes.Values, db.methods.Values, p.ms, p.Nodes()
  {
    && Counted(RecsOf(p.ms), p.start, p.ms, db.methods) && Logged(RecsOf(p.ms), p.ms, p.logs, db.methods, stale)
    && (forall m :: m in p.start && m !in p.ms ==> RecOf(m) == p.start[m])
    && NewAreBare(db, p.start.Keys)
    && db.methods.Values <= p.Nodes()
    && Walked(p, stale) && p.states[|p.ms|] == db.View() && Entries(db, p)
  }

  /** `q` is `p` after `m` has been mapped once more. */
  ghost predicate OneMore(p: Progress, q: Progress, m: ModelMethod) {
    && q.ms == p.ms + [m] && q.ledger == p.ledger && q.start == p.start
    && |p.states| == |p.ms| + 1 && |q.states| == |q.ms| + 1 && p.states == q.states[..|p.states|]
  }

  /** Maps a method; the records of other methods stay. */
  method MapRecorded(db: AnalyzerDatabase, m: ModelMethod, ghost nodes: set<ModelMethod>, ghost kept: set<ModelMethod>,
      ghost start: set<ModelMethod>, ghost stale: set<Sig>) returns (ghost xs: seq<Step>)
    requires db.View().Consistent({}, stale) && db.methods.Values <= nodes
    requires NewAreBare(db, start) && (m in start || m.instr == [])
    modifies db`classes, db`methods, db`missing, db`calls
    modifies db.classes.Values`methods, db.classes.Values`inherit
    modifies db.methods.Values`enclosing, db.methods.Values`declaring, db.methods.Values`callers
    modifies m`instr, m`useMethod, m`useMethodCtr
    ensures db.View().Consistent({}, stale) && Extends(old(db.View()), db.View())
    ensures fresh(db.classes.Values - old(db.classes.Values)) && fresh(db.methods.Values - old(db.methods.Values))
    ensures TracedBlocks(old(db.View()), old(m.instr), m.instr, |m.instr|, xs, db.View(), stale)
    ensures NewAreBare(db, start) && db.methods.Values <= With(nodes, xs)
    ensures BlocksUpTo(Scope(old(db.methods), db.methods, stale), old(m.instr), m.instr, |m.instr|)
    ensures Kept(old(RecOf(m)).note, old(LedgerOf(db, nodes)), m, Sites(m.instr, |m.instr|), xs,
      RecOf(m).note, LedgerOf(db, With(nodes, xs)))
    ensures old(RecOf(m)).instr == old(m.instr) && RecOf(m).instr == m.instr
    ensures forall x :: x in kept && x != m ==> RecOf(x) == old(RecOf(x))
  {
    hide Graph.Consistent, Extends, BlocksUpTo, Kept, Sites, TracedBlocks, LedgerOf, With;
    hide AnalyzerDatabase.View;
    ghost var o := m.instr;
    xs := MapInstructionFrom(db, m, nodes, stale);
    SameLength(Scope(old(db.methods), db.methods, stale), o, m.instr);
  }

  lemma SameLength(sc: Scope, a: seq<seq<Instr>>, b: seq<seq<Instr>>)
    requires BlocksUpTo(sc, a, b, |b|)
    ensures |a| == |b|
  {
  }

  lemma RecsNext(recs: map<ModelMethod, Rec>, ms: seq<ModelMethod>, m: ModelMethod)
    requires recs.Keys == (set x | x in ms) && forall x :: x in ms && x != m ==> RecOf(x) == recs[x]
    ensures RecsOf(ms + [m]) == recs[m := RecOf(m)]
  {
  }

  /** Maps one more method of a sequence. */
  method MapNext(db: AnalyzerDatabase, m: ModelMethod, ghost p: Progress, ghost stale: set<Sig>)
      returns (ghost q: Progress)
    requires db.View().Consistent({}, stale) && MappedSo(db, p, stale) && m in db.methods.Values
    modifies db`classes, db`methods, db`missing, db`calls
    modifies db.classes.Values`methods, db.classes.Values`inherit
    modifies db.methods.Values`enclosing, db.methods.Values`declaring, db.methods.Values`callers
    modifies m`instr, m`useMethod, m`useMethodCtr
    ensures db.View().Consistent({}, stale) && Extends(old(db.View()), db.View())
    ensures fresh(db.classes.Values - old(db.classes.Values)) && fresh(db.methods.Values - old(db.methods.Values))
    ensures MappedSo(db, q, stale) && OneMore(p, q, m)
  {
    hide *;
    ghost var g, before, recs, l := db.View(), RecOf(m), RecsOf(p.ms), LedgerOf(db, p.Nodes());
    KeyedOf(db, stale);
    MappedParts(db, p, stale);
    BareOrKnown(db, p.start.Keys, m);
    ghost var xs := MapRecorded(db, m, p.Nodes(), p.start.Keys + (set x | x in p.ms), p.start.Keys, stale);
    RecsNext(recs, p.ms, m);
    KeyedOf(db, stale);
    ExtendsGrows(g, db.View());
    q := NextProgress(p, m, RecOf(m), xs, db.View());
    ghost var now := LedgerOf(db, With(p.Nodes(), xs));
    ProgressNext(recs, p, m, before, RecOf(m), xs, g, db.View(), l, now, stale);
    MappedWhole(db, q, stale);
  }

  lemma BareOrKnown(db: AnalyzerDatabase, start: set<ModelMethod>, m: ModelMethod)
    requires NewAreBare(db, start) && m in db.methods.Values
    ensures m in start || m.instr == []
    ensures RecOf(m).instr == m.instr
  {
  }

  ghost function NextProgress(p: Progress, m: ModelMethod, after: Rec, xs: seq<Step>, h: Graph): Progress {
    Progress(p.ms + [m], p.logs + [Sites(after.instr, |after.instr|)], p.steps + [xs], p.states + [h],
             p.start, p.ledger)
  }

  /** One more mapping, seen on what the methods have recorded before it and after it. */
  lemma ProgressNext(recs: map<ModelMethod, Rec>, p: Progress, m: ModelMethod, before: Rec, after: Rec,
      xs: seq<Step>, g: Graph, h: Graph, l: Ledger, now: Ledger, stale: set<Sig>)
    requires Counted(recs, p.start, p.ms, g.methods) && Logged(recs, p.ms, p.logs, g.methods, stale)
    requires Keyed(g.methods) && Grows(g.methods, h.methods)
    requires Walked(p, stale) && p.states[|p.ms|] == g
    requires TracedBlocks(g, before.instr, after.instr, |after.instr|, xs, h, stale)
    requires m in p.ms ==> m in recs && recs[m] == before
    requires m in p.start && m !in p.ms ==> p.start[m] == before
    requires m in p.start || before.instr == []
    requires BlocksUpTo(Scope(g.methods, h.methods, stale), before.instr, after.instr, |after.instr|)
    requires Paired(p.ms, p.logs, p.steps) && l == EnterAll(p.ledger, p.ms, p.logs, p.steps)
    requires Kept(before.note, l, m, Sites(after.instr, |after.instr|), xs, after.note, now)
    ensures var q := NextProgress(p, m, after, xs, h);
      && OneMore(p, q, m) && q.ms == p.ms + [m] && |q.logs| == |q.ms| && q.start == p.start
      && q.Nodes() == With(p.Nodes(), xs)
      && Counted(recs[m := after], q.start, q.ms, h.methods)
      && Logged(recs[m := after], q.ms, q.logs, h.methods, stale)
      && Paired(q.ms, q.logs, q.steps) && now == EnterAll(q.ledger, q.ms, q.logs, q.steps)
      && Walked(q, stale) && q.states[|q.ms|] == h
  {
    hide Counted, Logged, EnterAll, Enter, NoteAfter, Sites, BlocksUpTo, Keyed, Grows, Positions, TracedBlocks;
    hide WalkedAt, CalleesOf, Callees;
    var sc, log := Scope(g.methods, h.methods, stale), Sites(after.instr, |after.instr|);
    CountedNext(recs, p.start, p.ms, m, sc, before, after);
    MappedIsLinked(sc, before.instr, after.instr);
    LoggedNext(recs, p.ms, p.logs, m, g.methods, h.methods, stale, after);
    EnterAllNext(p.ledger, p.ms, p.logs, p.steps, m, log, xs);
    CalleesNext(p.steps, xs);
    if m in p.ms {
      CountedLinked(recs, p.start, p.ms, g.methods, m);
    }
    WalkedNext(p, m, before, after, xs, g, h, stale);
  }

  lemma CountedLinked(recs: map<ModelMethod, Rec>, start: map<ModelMethod, Rec>, ms: seq<ModelMethod>,
      index: map<Key, ModelMethod>, m: ModelMethod)
    requires Counted(recs, start, ms, index) && m in ms
    ensures m in recs && FullyLinked(index, recs[m].instr)
  {
  }

  /** The calls of a linked method refer to indexed methods. */
  lemma {:induction false} LinkedCalls(index: map<Key, ModelMethod>, blocks: seq<seq<Instr>>, i: nat)
    requires FullyLinked(index, blocks) && i <= |blocks|
    ensures forall c :: c in Calling(blocks, i) ==> Signature(c.ref) in index
  {
    if i > 0 {
      LinkedCalls(index, blocks, i - 1);
      LinkedBlockCalls(index, blocks, i - 1, |blocks[i - 1]|);
    }
  }

  lemma {:induction false} LinkedBlockCalls(index: map<Key, ModelMethod>, blocks: seq<seq<Instr>>, i: nat, j: nat)
    requires FullyLinked(index, blocks) && i < |blocks| && j <= |blocks[i]|
    ensures forall c :: c in BlockCalls(blocks[i], i, j) ==> Signature(c.ref) in index
  {
    if j > 0 {
      LinkedBlockCalls(index, blocks, i, j - 1);
      if IsCall(blocks[i][j - 1]) {
        assert InvokeAt(blocks, Pos(i, j - 1));
      }
    }
  }

  /** What was resolved in the last mapping. */
  lemma ResolvingNext(p: Progress, m: ModelMethod, before: Rec, log: seq<Site>, xs: seq<Step>, g: Graph)
    requires Traced(Calling(before.instr, |before.instr|), log, xs)
    requires m in p.ms ==> FullyLinked(g.methods, before.instr)
    requires m in p.start && m !in p.ms ==> p.start[m] == before
    requires m in p.start || before.instr == []
    ensures Resolving(p.start, p.ms, m, log, xs, g)
  {
    hide FullyLinked;
    var calls := Calling(before.instr, |before.instr|);
    if !(m in p.start && m !in p.ms) {
      if m in p.ms {
        LinkedCalls(g.methods, before.instr, |before.instr|);
      }
      forall x | x in xs
        ensures Signature(x.ref) in g.methods
      {
        var k :| 0 <= k < |xs| && xs[k] == x;
        assert calls[k] in calls;
      }
    }
  }

  lemma WalkedNext(p: Progress, m: ModelMethod, before: Rec, after: Rec, xs: seq<Step>, g: Graph, h: Graph,
      stale: set<Sig>)
    requires Walked(p, stale) && p.states[|p.ms|] == g
    requires TracedBlocks(g, before.instr, after.instr, |after.instr|, xs, h, stale)
    requires m in p.ms ==> FullyLinked(g.methods, before.instr)
    requires m in p.start && m !in p.ms ==> p.start[m] == before
    requires m in p.start || before.instr == []
    ensures Walked(NextProgress(p, m, after, xs, h), stale)
  {
    hide Path, Resolving, FullyLinked, Sites, Calling;
    var q := NextProgress(p, m, after, xs, h);
    ResolvingNext(p, m, before, Sites(after.instr, |after.instr|), xs, g);
    forall a | 0 <= a < |q.ms|
      ensures WalkedAt(q, a, stale)
    {
      if a < |p.ms| {
        assert WalkedAt(p, a, stale);
        assert q.ms[..a] == p.ms[..a];
      } else {
        assert q.ms[..a] == p.ms;
      }
    }
  }

  lemma MappedWhole(db: AnalyzerDatabase, p: Progress, stale: set<Sig>)
    requires Counted(RecsOf(p.ms), p.start, p.ms, db.methods)
    requires Logged(RecsOf(p.ms), p.ms, p.logs, db.methods, stale)
    requires forall m :: m in p.start && m !in p.ms ==> RecOf(m) == p.start[m]
    requires Paired(p.ms, p.logs, p.steps) && LedgerOf(db, p.Nodes()) == EnterAll(p.ledger, p.ms, p.logs, p.steps)
    requires NewAreBare(db, p.start.Keys) && db.methods.Values <= p.Nodes()
    requires Walked(p, stale) && p.states[|p.ms|] == db.View()
    ensures MappedSo(db, p, stale)
  {
  }

  lemma MappedParts(db: AnalyzerDatabase, p: Progress, stale: set<Sig>)
    requires MappedSo(db, p, stale)
    ensures Counted(RecsOf(p.ms), p.start, p.ms, db.methods)
    ensures Logged(RecsOf(p.ms), p.ms, p.logs, db.methods, stale)
    ensures forall m :: m in p.start && m !in p.ms ==> RecOf(m) == p.start[m]
    ensures Paired(p.ms, p.logs, p.steps) && |p.logs| == |p.ms|
    ensures LedgerOf(db, p.Nodes()) == EnterAll(p.ledger, p.ms, p.logs, p.steps) && db.methods.Values <= p.Nodes()
    ensures RecsOf(p.ms).Keys == (set x | x in p.ms) && forall m :: m in p.ms ==> RecsOf(p.ms)[m] == RecOf(m)
    ensures NewAreBare(db, p.start.Keys) && Walked(p, stale) && |p.states| == |p.ms| + 1
    ensures p.states[|p.ms|] == db.View()
  {
  }

  lemma KeyedOf(db: AnalyzerDatabase, stale: set<Sig>)
    requires db.View().Consistent({}, stale)
    ensures Keyed(db.methods) && db.View().methods == db.methods
  {
    EntrySigs(db.View(), stale);
  }

  lemma ExtendsGrows(g: Graph, h: Graph)
    requires Extends(g, h)
    ensures Grows(g.methods, h.methods)
  {
  }

  /** A class of the batch during the last pass: it is in the database, or the database has another
      class of its name, which holds its methods. */
  ghost predicate InPlace(db: AnalyzerDatabase, v: ModelClass)
    reads db, v
  {
    && v.methods.Valid()
    && (InDatabase(db, v) ||
         (v !in db.classes.Values && v.name in db.classes && OwnIndexed(v.methods.at, v.name, db.methods)))
  }

  ghost predicate InDatabase(db: AnalyzerDatabase, v: ModelClass)
    reads db
  {
    v.name in db.classes && db.classes[v.name] == v
  }

  /** The table holds methods of class `n` only, and the index holds them all. */
  ghost predicate OwnIndexed(t: map<Key, ModelMethod>, n: string, index: map<Key, ModelMethod>) {
    forall k :: k in t ==> k.Signature? && k.sig.fqcn == n && k in index && index[k] == t[k]
  }

  lemma StoredMember(g: Graph, n: string, k: Key, stale: set<Sig>)
    requires g.Consistent({}, stale) && n in g.classes && k in g.classes[n].methods.at
    ensures var m := g.classes[n].methods.at[k];
      m in g.methods.Values && (k.Signature? ==> k in g.methods && g.methods[k] == m)
  {
    assert g.ClassShape(n) && g.MembersIndexed(n, stale);
    assert g.Indexed(g.classes[n].methods.at[k], k, stale);
  }

  /** The members of such a class are reached through the index. */
  lemma MemberInPlace(db: AnalyzerDatabase, v: ModelClass, k: Key, stale: set<Sig>)
    requires db.View().Consistent({}, stale) && InPlace(db, v) && k in v.methods.at
    ensures v.methods.at[k] in db.methods.Values
    ensures k.Signature? ==> k in db.methods && db.methods[k] == v.methods.at[k]
  {
    hide Graph.Consistent;
    if InDatabase(db, v) {
      assert db.View().classes[v.name] == v.View();
      StoredMember(db.View(), v.name, k, stale);
    }
  }

  /** The table of a class as a graph has it; `own` is that of a class which the graph does not hold. */
  ghost function TableIn(g: Graph, v: ModelClass, own: Table<ModelMethod>): Table<ModelMethod> {
    if g.HasClass(v) then g.classes[v.name].methods else own
  }

  /** The graph holds the class, or it holds another one of its name and indexes its methods. */
  ghost predicate Placed(g: Graph, v: ModelClass, own: Table<ModelMethod>) {
    g.HasClass(v) || (own.Valid() && v.name in g.classes && OwnIndexed(own.at, v.name, g.methods))
  }

  /** In place, and with the table `own` if the database has another class of its name. */
  ghost predicate Stands(db: AnalyzerDatabase, v: ModelClass, own: Table<ModelMethod>)
    reads db, v
  {
    InPlace(db, v) && (v !in db.classes.Values ==> v.methods == own)
  }

  lemma StandsIn(db: AnalyzerDatabase, v: ModelClass, own: Table<ModelMethod>)
    requires Stands(db, v, own)
    ensures v.methods == TableIn(db.View(), v, own) && v.methods.Valid() && InPlace(db, v)
    ensures db.View().HasClass(v) ||
      (v !in db.classes.Values && v.methods == own && Placed(db.View(), v, own))
  {
  }

  lemma StaysIndexed(t: map<Key, ModelMethod>, n: string, g: Graph, h: Graph)
    requires Extends(g, h) && OwnIndexed(t, n, g.methods)
    ensures OwnIndexed(t, n, h.methods)
  {
  }

  lemma TableStays(g: Graph, h: Graph, n: string, stale: set<Sig>)
    requires g.Consistent({}, stale) && h.Consistent({}, stale) && Extends(g, h) && n in g.classes
    ensures n in h.classes && h.classes[n].node == g.classes[n].node && h.classes[n].methods.Valid()
    ensures g.classes[n].methods.at.Keys <= h.classes[n].methods.at.Keys
  {
    assert h.ClassShape(n);
  }

  /** While the graph only grows, a class stays in place. */
  lemma StaysInPlace(g: Graph, db: AnalyzerDatabase, v: ModelClass, own: Table<ModelMethod>, stale: set<Sig>)
    requires g.Consistent({}, stale) && db.View().Consistent({}, stale) && Extends(g, db.View())
    requires g.HasClass(v) ||
      (v !in db.classes.Values && v.methods == own && Placed(g, v, own))
    ensures Stands(db, v, own)
  {
    hide Graph.Consistent;
    if g.HasClass(v) {
      TableStays(g, db.View(), v.name, stale);
      assert db.View().classes[v.name] == db.classes[v.name].View();
    } else {
      StaysIndexed(own.at, v.name, g, db.View());
    }
  }

  /** No key is ever lost. */
  lemma KeysStay(g: Graph, h: Graph, v: ModelClass, own: Table<ModelMethod>)
    requires Extends(g, h) && (h.HasClass(v) ==> g.HasClass(v))
    ensures TableIn(g, v, own).at.Keys <= TableIn(h, v, own).at.Keys
  {
  }

  // ---------- the tour of the last pass ----------

  /** The classes of a batch, and the tables of those that the database does not hold. */
  datatype Round = Round(batch: seq<ModelClass>, own: seq<Table<ModelMethod>>) {
    /** What class number `j` holds in a graph. */
    ghost function Held(j: nat, g: Graph): Table<ModelMethod>
      requires j < |batch| == |own|
    {
      TableIn(g, batch[j], own[j])
    }
  }

  /** The visits of the pass: whose turn it was, and under which key; and where the turns begin. */
  datatype Tour = Tour(turn: seq<nat>, keys: seq<Key>, begins: seq<nat>)

  /** The keys that class number `j` had when its turn began. */
  ghost function KeysOfTurn(r: Round, u: Tour, states: seq<Graph>, j: nat): seq<Key>
    requires j < |r.batch| == |r.own| && j < |u.begins| && u.begins[j] < |states|
  {
    r.Held(j, states[u.begins[j]]).keys
  }

  /** Visit number `a` maps what the class holds, by then, under the next key that it had when its
      turn began. */
  ghost predicate VisitAt(r: Round, u: Tour, ms: seq<ModelMethod>, states: seq<Graph>, a: nat)
    requires a < |ms| == |u.turn| == |u.keys| && |states| == |ms| + 1 && |r.batch| == |r.own|
  {
    var j := u.turn[a];
    && j < |r.batch| && j < |u.begins| && u.begins[j] <= a < u.begins[j] + |KeysOfTurn(r, u, states, j)|
    && u.keys[a] == KeysOfTurn(r, u, states, j)[a - u.begins[j]]
    && u.keys[a] in r.Held(j, states[a]).at && ms[a] == r.Held(j, states[a]).at[u.keys[a]]
  }

  /** The first `n` visits since class `j` began are its own. */
  ghost predicate InTurn(u: Tour, j: nat, n: nat)
    requires j < |u.begins|
  {
    u.begins[j] + n <= |u.turn| && forall a :: u.begins[j] <= a < u.begins[j] + n ==> u.turn[a] == j
  }

  ghost predicate TurnDone(r: Round, u: Tour, states: seq<Graph>, j: nat)
    requires j + 1 < |u.begins| && j < |r.batch| == |r.own| && u.begins[j] < |states|
  {
    var n := |KeysOfTurn(r, u, states, j)|;
    u.begins[j + 1] == u.begins[j] + n && InTurn(u, j, n)
  }

  /** The visits so far: all keys of the first `c` classes, and `i` keys of the next one. */
  ghost predicate Toured(r: Round, u: Tour, ms: seq<ModelMethod>, states: seq<Graph>, c: nat, i: nat) {
    && |r.batch| == |r.own| && |u.turn| == |u.keys| == |ms| && |states| == |ms| + 1
    && |u.begins| == c + 1 <= |r.batch| + 1 && u.begins[0] == 0 && |ms| == u.begins[c] + i && InTurn(u, c, i)
    && (forall j :: 0 <= j <= c ==> u.begins[j] <= |ms|)
    && (forall j :: 0 <= j < c ==> TurnDone(r, u, states, j))
    && forall a :: 0 <= a < |ms| ==> VisitAt(r, u, ms, states, a)
  }

  lemma TourBegins(r: Round, g: Graph)
    requires |r.batch| == |r.own|
    ensures Toured(r, Tour([], [], [0]), [], [g], 0, 0)
  {
  }

  lemma TourKey(r: Round, u: Tour, ms: seq<ModelMethod>, states: seq<Graph>, c: nat, i: nat, k: Key,
      more: seq<Graph>)
    requires Toured(r, u, ms, states, c, i) && c < |r.batch|
    requires i < |KeysOfTurn(r, u, states, c)| && k == KeysOfTurn(r, u, states, c)[i]
    requires k in r.Held(c, states[|ms|]).at && |more| == |ms| + 2 && more[..|ms| + 1] == states
    ensures var m := r.Held(c, states[|ms|]).at[k];
      Toured(r, Tour(u.turn + [c], u.keys + [k], u.begins), ms + [m], more, c, i + 1)
  {
    var m := r.Held(c, states[|ms|]).at[k];
    var w, ns := Tour(u.turn + [c], u.keys + [k], u.begins), ms + [m];
    assert forall a :: 0 <= a <= |ms| ==> more[a] == states[a];
    forall a | 0 <= a < |ns|
      ensures VisitAt(r, w, ns, more, a)
    {
      assert a < |ms| ==> VisitAt(r, u, ms, states, a);
    }
    forall j | 0 <= j < c
      ensures TurnDone(r, w, more, j)
    {
      assert TurnDone(r, u, states, j);
    }
  }

  lemma TourClass(r: Round, u: Tour, ms: seq<ModelMethod>, states: seq<Graph>, c: nat)
    requires |u.begins| == c + 1 && c < |r.batch| == |r.own| && u.begins[c] < |states|
    requires Toured(r, u, ms, states, c, |KeysOfTurn(r, u, states, c)|)
    ensures Toured(r, u.(begins := u.begins + [|ms|]), ms, states, c + 1, 0)
  {
    var w := u.(begins := u.begins + [|ms|]);
    forall a | 0 <= a < |ms|
      ensures VisitAt(r, w, ms, states, a)
    {
      assert VisitAt(r, u, ms, states, a);
    }
    forall j | 0 <= j < c + 1
      ensures TurnDone(r, w, states, j)
    {
      assert j < c ==> TurnDone(r, u, states, j);
    }
  }

  /** Maps what is stored under one of the keys of a class. */
  method MapKey(db: AnalyzerDatabase, v: ModelClass, m: ModelMethod, ghost own: Table<ModelMethod>,
      ghost p: Progress, ghost stale: set<Sig>) returns (ghost q: Progress)
    requires db.View().Consistent({}, stale) && Stands(db, v, own) && m in db.methods.Values
    requires MappedSo(db, p, stale)
    modifies db`classes, db`methods, db`missing, db`calls
    modifies db.classes.Values`methods, db.classes.Values`inherit
    modifies db.methods.Values`enclosing, db.methods.Values`declaring, db.methods.Values`callers
    modifies m`instr, m`useMethod, m`useMethodCtr
    ensures db.View().Consistent({}, stale) && Extends(old(db.View()), db.View())
    ensures fresh(db.classes.Values - old(db.classes.Values)) && fresh(db.methods.Values - old(db.methods.Values))
    ensures MappedSo(db, q, stale) && OneMore(p, q, m) && Stands(db, v, own)
  {
    hide Graph.Consistent, MappedSo, Extends, CallerIndex, OneMore, InPlace, Stands, OwnIndexed, Table.Valid, TableIn;
    ghost var g := db.View();
    StandsIn(db, v, own);
    q := MapNext(db, m, p, stale);
    StaysInPlace(g, db, v, own, stale);
  }

  /** `q` continues `p`. */
  ghost predicate Onward(p: Progress, q: Progress) {
    q.ledger == p.ledger && q.start == p.start && |p.states| > 0 && |q.states| > 0 && q.states[0] == p.states[0]
  }

  lemma OneOnward(p: Progress, q: Progress, r: Progress, m: ModelMethod)
    requires Onward(p, q) && OneMore(q, r, m)
    ensures Onward(p, r) && r.ms == q.ms + [m]
  {
    assert r.states[0] == r.states[..|q.states|][0];
  }

  /** The state of the loop over the keys of class number `c`, after `i` of them; its turn began with
      the graph `g`. */
  ghost predicate Visiting(db: AnalyzerDatabase, r: Round, u: Tour, c: nat, i: nat, g: Graph,
      p0: Progress, p: Progress, stale: set<Sig>)
    reads db, db.classes.Values, db.methods.Values, p.ms, p.Nodes(), r.batch
  {
    && db.View().Consistent({}, stale) && Extends(g, db.View()) && MappedSo(db, p, stale) && Onward(p0, p)
    && Toured(r, u, p.ms, p.states, c, i) && c < |r.batch| && Stands(db, r.batch[c], r.own[c])
    && g == p.states[u.begins[c]]
  }

  lemma VisitKey(db: AnalyzerDatabase, r: Round, u: Tour, c: nat, i: nat, g: Graph, p0: Progress, p: Progress,
      k: Key, stale: set<Sig>)
    requires |r.batch| == |r.own| && Visiting(db, r, u, c, i, g, p0, p, stale)
    requires i < |r.Held(c, g).keys| && r.Held(c, g).keys[i] == k && r.Held(c, g).Valid()
    requires db.View().HasClass(r.batch[c]) ==> g.HasClass(r.batch[c])
    ensures k in r.batch[c].methods.at && r.batch[c].methods.at[k] in db.methods.Values
    ensures k in r.Held(c, db.View()).at && r.batch[c].methods.at[k] == r.Held(c, db.View()).at[k]
  {
    hide Graph.Consistent, Extends, MappedSo, Stands, InPlace, AnalyzerDatabase.View, Toured;
    StandsIn(db, r.batch[c], r.own[c]);
    KeysStay(g, db.View(), r.batch[c], r.own[c]);
    assert k in r.Held(c, g).keys;
    MemberInPlace(db, r.batch[c], k, stale);
  }

  lemma VisitNext(r: Round, u: Tour, c: nat, i: nat, g: Graph, p: Progress, q: Progress, k: Key, m: ModelMethod)
    requires Toured(r, u, p.ms, p.states, c, i) && c < |r.batch| && g == p.states[u.begins[c]]
    requires i < |r.Held(c, g).keys| && r.Held(c, g).keys[i] == k && OneMore(p, q, m)
    requires k in r.Held(c, p.states[|p.ms|]).at && m == r.Held(c, p.states[|p.ms|]).at[k]
    ensures Toured(r, Tour(u.turn + [c], u.keys + [k], u.begins), q.ms, q.states, c, i + 1)
    ensures u.begins[c] < |q.states| && q.states[u.begins[c]] == g
  {
    hide Toured;
    TourSizes(r, u, p.ms, p.states, c, i);
    TourKey(r, u, p.ms, p.states, c, i, k, q.states);
    assert q.states[u.begins[c]] == q.states[..|p.states|][u.begins[c]];
  }

  lemma TourSizes(r: Round, u: Tour, ms: seq<ModelMethod>, states: seq<Graph>, c: nat, i: nat)
    requires Toured(r, u, ms, states, c, i)
    ensures |r.batch| == |r.own| && |u.begins| == c + 1 && u.begins[c] <= |ms| && |states| == |ms| + 1
  {
  }

  /** One turn of the loop over the keys. */
  method MapTurn(db: AnalyzerDatabase, v: ModelClass, k: Key, ghost r: Round, ghost u: Tour, ghost c: nat,
      ghost i: nat, ghost g: Graph, ghost p0: Progress, ghost p: Progress, ghost stale: set<Sig>)
      returns (ghost q: Progress, ghost w: Tour)
    requires |r.batch| == |r.own| && Visiting(db, r, u, c, i, g, p0, p, stale) && v == r.batch[c]
    requires i < |r.Held(c, g).keys| && r.Held(c, g).keys[i] == k && r.Held(c, g).Valid()
    requires g.HasClass(v) || v !in db.classes.Values
    modifies db`classes, db`methods, db`missing, db`calls
    modifies db.classes.Values`methods, db.classes.Values`inherit
    modifies db.methods.Values`enclosing, db.methods.Values`declaring, db.methods.Values`callers
    modifies db.methods.Values`instr, db.methods.Values`useMethod, db.methods.Values`useMethodCtr
    ensures fresh(db.classes.Values - old(db.classes.Values)) && fresh(db.methods.Values - old(db.methods.Values))
    ensures Visiting(db, r, w, c, i + 1, g, p0, q, stale)
  {
    hide Graph.Consistent, InPlace, Extends, MappedSo, Onward, OneMore, Toured, Stands, TableIn, Graph.HasClass;
    hide AnalyzerDatabase.View, CallerIndex, Table.Valid, Round.Held;
    NotHeld(db, v);
    ghost var h := db.View();
    VisitKey(db, r, u, c, i, g, p0, p, k, stale);
    LastState(db, p, stale);
    var m := v.methods.at[k];
    q := MapKey(db, v, m, r.own[c], p, stale);
    OneOnward(p0, p, q, m);
    ExtendsOn(g, h, db.View(), stale);
    VisitNext(r, u, c, i, g, p, q, k, m);
    w := Tour(u.turn + [c], u.keys + [k], u.begins);
  }

  lemma NotHeld(db: AnalyzerDatabase, v: ModelClass)
    ensures v !in db.classes.Values ==> !db.View().HasClass(v)
  {
  }

  lemma LastState(db: AnalyzerDatabase, p: Progress, stale: set<Sig>)
    requires MappedSo(db, p, stale)
    ensures |p.states| == |p.ms| + 1 && p.states[|p.ms|] == db.View()
  {
  }

  /** Pass 4, one class: maps what is stored, as its turn comes, under each key that the class has at
      the beginning. */
  method MapClass(db: AnalyzerDatabase, v: ModelClass, ghost r: Round, ghost u: Tour, ghost c: nat,
      ghost p0: Progress, ghost p: Progress, ghost stale: set<Sig>) returns (ghost q: Progress, ghost w: Tour)
    requires db.View().Consistent({}, stale) && MappedSo(db, p, stale) && Onward(p0, p)
    requires Toured(r, u, p.ms, p.states, c, 0) && c < |r.batch| && v == r.batch[c] && Stands(db, v, r.own[c])
    modifies db`classes, db`methods, db`missing, db`calls
    modifies db.classes.Values`methods, db.classes.Values`inherit
    modifies db.methods.Values`enclosing, db.methods.Values`declaring, db.methods.Values`callers
    modifies db.methods.Values`instr, db.methods.Values`useMethod, db.methods.Values`useMethodCtr
    ensures fresh(db.classes.Values - old(db.classes.Values)) && fresh(db.methods.Values - old(db.methods.Values))
    ensures MappedSo(db, q, stale) && Onward(p0, q) && Toured(r, w, q.ms, q.states, c + 1, 0)
    ensures db.View().Consistent({}, stale) && Extends(old(db.View()), db.View())
  {
    hide *;
    ghost var g := db.View();
    VisitBegins(db, r, u, c, p0, p, stale);
    var keys := v.methods.keys;
    q, w := p, u;
    for i := 0 to |keys|
      invariant fresh(db.classes.Values - old(db.classes.Values)) && fresh(db.methods.Values - old(db.methods.Values))
      invariant |r.batch| == |r.own| && Visiting(db, r, w, c, i, g, p0, q, stale)
      invariant keys == r.Held(c, g).keys && r.Held(c, g).Valid()
      invariant g.HasClass(v) || v !in db.classes.Values
    {
      q, w := MapTurn(db, v, keys[i], r, w, c, i, g, p0, q, stale);
    }
    VisitEnds(db, r, w, c, g, p0, q, stale);
    w := w.(begins := w.begins + [|q.ms|]);
  }

  lemma VisitBegins(db: AnalyzerDatabase, r: Round, u: Tour, c: nat, p0: Progress, p: Progress, stale: set<Sig>)
    requires db.View().Consistent({}, stale) && MappedSo(db, p, stale) && Onward(p0, p)
    requires Toured(r, u, p.ms, p.states, c, 0) && c < |r.batch| && Stands(db, r.batch[c], r.own[c])
    ensures |r.batch| == |r.own| && Visiting(db, r, u, c, 0, db.View(), p0, p, stale)
    ensures r.Held(c, db.View()) == r.batch[c].methods && r.batch[c].methods.Valid()
    ensures db.View().HasClass(r.batch[c]) || r.batch[c] !in db.classes.Values
  {
    hide Graph.Consistent, MappedSo, Onward, Stands, AnalyzerDatabase.View, Table.Valid;
    LastState(db, p, stale);
    StandsIn(db, r.batch[c], r.own[c]);
    SameExtends(db.View());
  }

  lemma VisitEnds(db: AnalyzerDatabase, r: Round, u: Tour, c: nat, g: Graph, p0: Progress, p: Progress,
      stale: set<Sig>)
    requires |r.batch| == |r.own| && c < |r.batch|
    requires Visiting(db, r, u, c, |r.Held(c, g).keys|, g, p0, p, stale)
    ensures Toured(r, u.(begins := u.begins + [|p.ms|]), p.ms, p.states, c + 1, 0)
    ensures MappedSo(db, p, stale) && Onward(p0, p) && db.View().Consistent({}, stale) && Extends(g, db.View())
  {
    hide Graph.Consistent, MappedSo, Onward, Stands, Extends, AnalyzerDatabase.View, Table.Valid, Toured;
    TourSizes(r, u, p.ms, p.states, c, |r.Held(c, g).keys|);
    TourClass(r, u, p.ms, p.states, c);
  }

  /** The classes of the batch are in place. */
  ghost predicate Places(db: AnalyzerDatabase, r: Round)
    reads db, r.batch
  {
    |r.batch| == |r.own| && forall j :: 0 <= j < |r.batch| ==> Stands(db, r.batch[j], r.own[j])
  }

  lemma AllPlaced(db: AnalyzerDatabase, r: Round)
    requires Places(db, r)
    ensures |r.batch| == |r.own|
    ensures forall j :: 0 <= j < |r.batch| ==>
      && Stands(db, r.batch[j], r.own[j]) && Placed(db.View(), r.batch[j], r.own[j])
      && (db.View().HasClass(r.batch[j]) || (r.batch[j] !in db.classes.Values && r.batch[j].methods == r.own[j]))
  {
    hide InPlace, Stands, AnalyzerDatabase.View, Table.Valid, Graph.HasClass, TableIn;
    forall j | 0 <= j < |r.batch|
      ensures Placed(db.View(), r.batch[j], r.own[j])
      ensures db.View().HasClass(r.batch[j]) ||
        (r.batch[j] !in db.classes.Values && r.batch[j].methods == r.own[j])
    {
      StandsIn(db, r.batch[j], r.own[j]);
    }
  }

  /** The classes of the batch while one of them is mapped. */
  lemma AllStayInPlace(g: Graph, db: AnalyzerDatabase, r: Round, stale: set<Sig>)
    requires g.Consistent({}, stale) && db.View().Consistent({}, stale) && Extends(g, db.View())
    requires |r.batch| == |r.own|
    requires forall j :: 0 <= j < |r.batch| ==>
      && Placed(g, r.batch[j], r.own[j])
      && (g.HasClass(r.batch[j]) || (r.batch[j] !in db.classes.Values && r.batch[j].methods == r.own[j]))
    ensures Places(db, r)
  {
    hide Graph.Consistent, Extends, InPlace, AnalyzerDatabase.View, Table.Valid, Graph.HasClass, Stands;
    forall j | 0 <= j < |r.batch|
      ensures Stands(db, r.batch[j], r.own[j])
    {
      StaysInPlace(g, db, r.batch[j], r.own[j], stale);
    }
  }

  ghost function TablesOf(batch: seq<ModelClass>): (ts: seq<Table<ModelMethod>>)
    reads batch
    ensures |ts| == |batch| && forall j :: 0 <= j < |batch| ==> ts[j] == batch[j].methods
  {
    if batch == [] then [] else TablesOf(batch[..|batch| - 1]) + [batch[|batch| - 1].methods]
  }

  /** The state of the loop over the classes, after `c` of them. */
  ghost predicate BatchDone(db: AnalyzerDatabase, r: Round, u: Tour, c: nat, g: Graph, p0: Progress, p: Progress,
      stale: set<Sig>)
    reads db, db.classes.Values, db.methods.Values, r.batch, p.ms, p.Nodes()
  {
    && db.View().Consistent({}, stale) && Extends(g, db.View()) && Places(db, r) && c <= |r.batch|
    && MappedSo(db, p, stale) && Onward(p0, p) && Toured(r, u, p.ms, p.states, c, 0)
  }

  /** One turn of the loop over the classes. */
  method MapOne(db: AnalyzerDatabase, batch: seq<ModelClass>, i: nat, ghost r: Round, ghost u: Tour,
      ghost g: Graph, ghost p0: Progress, ghost p: Progress, ghost stale: set<Sig>)
      returns (ghost q: Progress, ghost w: Tour)
    requires i < |batch| && batch == r.batch && BatchDone(db, r, u, i, g, p0, p, stale)
    modifies db`classes, db`methods, db`missing, db`calls
    modifies db.classes.Values`methods, db.classes.Values`inherit
    modifies db.methods.Values`enclosing, db.methods.Values`declaring, db.methods.Values`callers
    modifies db.methods.Values`instr, db.methods.Values`useMethod, db.methods.Values`useMethodCtr
    ensures fresh(db.classes.Values - old(db.classes.Values)) && fresh(db.methods.Values - old(db.methods.Values))
    ensures BatchDone(db, r, w, i + 1, g, p0, q, stale)
  {
    hide Graph.Consistent, Extends, MappedSo, Onward, Toured, AnalyzerDatabase.View, Stands, Places, Placed;
    hide Graph.HasClass, CallerIndex;
    ghost var h := db.View();
    AllPlaced(db, r);
    q, w := MapClass(db, batch[i], r, u, i, p0, p, stale);
    AllStayInPlace(h, db, r, stale);
    ExtendsOn(g, h, db.View(), stale);
  }

  /** The loop of pass 4. */
  method MapClasses(db: AnalyzerDatabase, batch: seq<ModelClass>, ghost r: Round, ghost u: Tour, ghost p0: Progress,
      ghost stale: set<Sig>) returns (ghost p: Progress, ghost w: Tour)
    requires batch == r.batch && BatchDone(db, r, u, 0, db.View(), p0, p0, stale)
    modifies db`classes, db`methods, db`missing, db`calls
    modifies db.classes.Values`methods, db.classes.Values`inherit
    modifies db.methods.Values`enclosing, db.methods.Values`declaring, db.methods.Values`callers
    modifies db.methods.Values`instr, db.methods.Values`useMethod, db.methods.Values`useMethodCtr
    ensures fresh(db.classes.Values - old(db.classes.Values)) && fresh(db.methods.Values - old(db.methods.Values))
    ensures BatchDone(db, r, w, |batch|, old(db.View()), p0, p, stale)
  {
    hide *;
    ghost var g := db.View();
    p, w := p0, u;
    for i := 0 to |batch|
      invariant fresh(db.classes.Values - old(db.classes.Values)) && fresh(db.methods.Values - old(db.methods.Values))
      invariant BatchDone(db, r, w, i, g, p0, p, stale)
    {
      p, w := MapOne(db, batch, i, r, w, g, p0, p, stale);
    }
  }

  /** What the indexed methods have recorded. */
  ghost function Recs(db: AnalyzerDatabase): map<ModelMethod, Rec>
    reads db, db.methods.Values
  {
    map m | m in db.methods.Values :: RecOf(m)
  }

  ghost function ProgressOf(db: AnalyzerDatabase): Progress
    reads db, db.classes.Values, db.methods.Values
  {
    Progress([], [], [], [db.View()], Recs(db), LedgerOf(db, db.methods.Values))
  }

  lemma NothingMapped(db: AnalyzerDatabase, stale: set<Sig>)
    ensures MappedSo(db, ProgressOf(db), stale)
  {
    hide LedgerOf, AnalyzerDatabase.View;
    var p := ProgressOf(db);
    assert p.Nodes() == db.methods.Values;
    assert NewAreBare(db, p.start.Keys) && Walked(p, stale);
  }

  /** What pass 4 leaves behind, having mapped the methods of `p` in that order: each has recorded,
      besides what it held at the start, each of its calls as often as it was mapped; its counter
      exceeds the number of its entries by as much as before; and the caller lists, the call nodes, the
      missing nodes and the places of methods are those of the logged calls, one after the other. */
  ghost predicate CrossReferenced(db: AnalyzerDatabase, p: Progress, stale: set<Sig>)
    reads db, db.methods.Values, p.ms, p.Nodes()
  {
    && (forall m :: m in p.ms && m in p.start ==>
          && Recorded(p.start[m].note.uses, m.useMethod, m.instr, Occurrences(p.ms, m))
          && NoteOf(m).excess == p.start[m].note.excess)
    && (forall m :: m in p.start && m !in p.ms ==> RecOf(m) == p.start[m])
    && (forall m :: m in p.ms ==> FullyLinked(db.methods, m.instr))
    && |p.logs| == |p.ms|
    && (forall a :: 0 <= a < |p.ms| ==> AllKnown(db.methods, stale, p.logs[a]) && SameTrace(p.logs[a], p.ms[a].instr))
    && Entries(db, p) && db.methods.Values <= p.Nodes()
  }

  lemma SoReferenced(db: AnalyzerDatabase, p: Progress, stale: set<Sig>)
    requires MappedSo(db, p, stale)
    ensures CrossReferenced(db, p, stale)
  {
    hide Recorded, FullyLinked, AllKnown, SameTrace, EnterAll, LedgerOf, Walked;
    assert forall m :: m in p.ms ==> RecsOf(p.ms)[m] == RecOf(m);
    forall a | 0 <= a < |p.ms|
      ensures AllKnown(db.methods, stale, p.logs[a]) && SameTrace(p.logs[a], p.ms[a].instr)
    {
      assert p.ms[a] in p.ms;
    }
  }

  lemma BatchEnds(db: AnalyzerDatabase, r: Round, u: Tour, g: Graph, p0: Progress, p: Progress, stale: set<Sig>)
    requires BatchDone(db, r, u, |r.batch|, g, p0, p, stale)
    ensures db.View().Consistent({}, stale) && Extends(g, db.View()) && MappedSo(db, p, stale) && Onward(p0, p)
    ensures forall v :: v in r.batch ==> InPlace(db, v)
    ensures Toured(r, u, p.ms, p.states, |r.batch|, 0) && Walked(p, stale) && p.states[|p.ms|] == db.View()
  {
    hide Graph.Consistent, Extends, InPlace, AnalyzerDatabase.View, Walked, CrossReferenced;
  }

  lemma BatchBegins(db: AnalyzerDatabase, batch: seq<ModelClass>, stale: set<Sig>)
    requires db.View().Consistent({}, stale) && forall v :: v in batch ==> InPlace(db, v)
    ensures BatchDone(db, Round(batch, TablesOf(batch)), Tour([], [], [0]), 0, db.View(), ProgressOf(db),
      ProgressOf(db), stale) && Places(db, Round(batch, TablesOf(batch)))
  {
    hide Graph.Consistent, InPlace, MappedSo;
    SameExtends(db.View());
    NothingMapped(db, stale);
    TourBegins(Round(batch, TablesOf(batch)), db.View());
    forall j | 0 <= j < |batch|
      ensures Stands(db, batch[j], TablesOf(batch)[j])
    {
      assert batch[j] in batch;
    }
  }

  /** A run of pass 4 over the classes of `r`: `p.states` are the graphs before each mapping, the first
      of them that before the pass, and `p.start` what the methods of its index had recorded. */
  ghost predicate Passed(r: Round, u: Tour, p: Progress, stale: set<Sig>) {
    && Toured(r, u, p.ms, p.states, |r.batch|, 0) && Walked(p, stale)
    && p.states[0].Consistent({}, stale) && p.start.Keys == p.states[0].methods.Values
    && forall j :: 0 <= j < |r.batch| ==> Placed(p.states[0], r.batch[j], r.own[j])
  }

  /** Pass 4: maps, class by class, what is stored under each key that the class has when its turn
      comes. The tour says which method was mapped at each visit, given the graph by then; the walk
      says how each mapping led from one graph to the next; and what the methods and the caller lists
      have recorded follows from these. */
  method MapBatch(db: AnalyzerDatabase, batch: seq<ModelClass>, ghost stale: set<Sig>)
      returns (ghost p: Progress, ghost u: Tour)
    requires db.View().Consistent({}, stale) && forall v :: v in batch ==> InPlace(db, v)
    modifies db`classes, db`methods, db`missing, db`calls
    modifies db.classes.Values`methods, db.classes.Values`inherit
    modifies db.methods.Values`enclosing, db.methods.Values`declaring, db.methods.Values`callers
    modifies db.methods.Values`instr, db.methods.Values`useMethod, db.methods.Values`useMethodCtr
    ensures db.View().Consistent({}, stale) && Extends(old(db.View()), db.View())
    ensures fresh(db.classes.Values - old(db.classes.Values)) && fresh(db.methods.Values - old(db.methods.Values))
    ensures forall v :: v in batch ==> InPlace(db, v)
    ensures Passed(Round(batch, old(TablesOf(batch))), u, p, stale)
    ensures p.states[0] == old(db.View()) && p.states[|p.ms|] == db.View()
    ensures p.start == old(Recs(db)) && p.ledger == old(LedgerOf(db, db.methods.Values))
    ensures CrossReferenced(db, p, stale)
    ensures |p.logs| == |p.ms| && forall x, c :: x in p.Nodes() ==>
      (c in x.callers <==> CallerAfter(p.ledger.callers, p.ms, p.logs, x, c))
  {
    hide *;
    ghost var r, p0, g := Round(batch, TablesOf(batch)), ProgressOf(db), db.View();
    BatchBegins(db, batch, stale);
    StartOf(db, r);
    p, u := MapClasses(db, batch, r, Tour([], [], [0]), p0, stale);
    BatchEnds(db, r, u, g, p0, p, stale);
    SoReferenced(db, p, stale);
    SoPassed(r, u, p0, p, g, stale);
    CallersAfter(db, p, stale);
  }

  lemma StartOf(db: AnalyzerDatabase, r: Round)
    requires Places(db, r)
    ensures ProgressOf(db).states == [db.View()] && db.View().methods == db.methods
    ensures ProgressOf(db).start == Recs(db) && ProgressOf(db).ledger == LedgerOf(db, db.methods.Values)
    ensures ProgressOf(db).start.Keys == db.View().methods.Values
    ensures |r.batch| == |r.own| && forall j :: 0 <= j < |r.batch| ==> Placed(db.View(), r.batch[j], r.own[j])
  {
    hide Placed, Places;
    AllPlaced(db, r);
  }

  lemma SoPassed(r: Round, u: Tour, p0: Progress, p: Progress, g: Graph, stale: set<Sig>)
    requires Onward(p0, p) && p0.states == [g] && p0.start.Keys == g.methods.Values && g.Consistent({}, stale)
    requires Toured(r, u, p.ms, p.states, |r.batch|, 0) && Walked(p, stale) && |r.batch| == |r.own|
    requires forall j :: 0 <= j < |r.batch| ==> Placed(g, r.batch[j], r.own[j])
    ensures Passed(r, u, p, stale) && p.states[0] == g && p.start == p0.start && p.ledger == p0.ledger
  {
    hide Placed, Toured, Walked, Graph.Consistent;
  }

  /** The caller list of a node is that of the logged calls. */
  lemma CallerLists(db: AnalyzerDatabase, p: Progress)
    requires Entries(db, p)
    ensures |p.logs| == |p.ms|
    ensures forall x :: x in p.Nodes() ==> x.callers == Get(CalledAll(p.ledger.callers, p.ms, p.logs), x)
  {
    hide EnterAll, CalledAll;
    EnterAllCallers(p.ledger, p.ms, p.logs, p.steps);
    assert LedgerOf(db, p.Nodes()).callers == CallersOf(p.Nodes());
  }

  lemma CallersAfter(db: AnalyzerDatabase, p: Progress, stale: set<Sig>)
    requires CrossReferenced(db, p, stale)
    ensures |p.logs| == |p.ms| && forall x, c :: x in p.Nodes() ==>
      (c in x.callers <==> CallerAfter(p.ledger.callers, p.ms, p.logs, x, c))
  {
    hide Recorded, FullyLinked, AllKnown, SameTrace, CalledAll, CallerAfter, Entries;
    CallerLists(db, p);
    forall x, c | x in p.Nodes()
      ensures c in x.callers <==> CallerAfter(p.ledger.callers, p.ms, p.logs, x, c)
    {
      CalledAllIff(p.ledger.callers, p.ms, p.logs, x, c);
    }
  }

  // ---------- callers against uses ----------

  /** No list has a caller of that signature. */
  ghost predicate NowhereListed(lists: map<ModelMethod, seq<ModelMethod>>, sig: Sig) {
    forall x :: x in lists ==> Unlisted(lists[x], sig)
  }

  /** The caller list of the node that the index holds. */
  ghost function ListAt(lists: map<ModelMethod, seq<ModelMethod>>, index: map<Key, ModelMethod>, s: Sig):
      seq<ModelMethod>
  {
    if Signature(s) in index then Get(lists, index[Signature(s)]) else []
  }

  /** Some method of that signature calls `s` through the node that the index holds. */
  ghost predicate SomeIndexed(ms: seq<ModelMethod>, logs: seq<seq<Site>>, index: map<Key, ModelMethod>, s: Sig,
      sig: Sig)
    requires |logs| == |ms|
  {
    exists b :: 0 <= b < |ms| && ms[b].sig == sig && Calls(logs[b], s, index)
  }

  lemma CallsIndexed(log: seq<Site>, s: Sig, index: map<Key, ModelMethod>)
    requires Keyed(index)
    ensures Calls(log, s, index) <==> Signature(s) in index && CallsNode(log, index[Signature(s)])
  {
    if Signature(s) in index && CallsNode(log, index[Signature(s)]) {
      var x :| x in log && x.callee == index[Signature(s)];
      assert x.callee.sig == s;
    }
  }

  /** Without replaced methods a call is a call of the indexed node. */
  lemma CurrentCalls(log: seq<Site>, s: Sig, index: map<Key, ModelMethod>)
    requires AllKnown(index, {}, log)
    ensures Calls(log, s, index) <==> PositionsOf(log, s) != []
  {
    KeysHavePositions(log, s);
  }

  /** A method mapped for the first time, and the only one of its signature, is a caller of exactly
      the methods it uses if and only if it calls each of them through the node that the index holds. */
  lemma CallersAreUses(base: map<ModelMethod, seq<ModelMethod>>, ms: seq<ModelMethod>, logs: seq<seq<Site>>,
      index: map<Key, ModelMethod>, m: ModelMethod, use: map<Sig, seq<Pos>>, blocks: seq<seq<Instr>>)
    requires |logs| == |ms| && m in ms && (forall x :: x in ms && x.sig == m.sig ==> x == m) && Keyed(index)
    requires NowhereListed(base, m.sig)
    requires Recorded(map[], use, blocks, Occurrences(ms, m))
    ensures (forall s :: m in ListAt(CalledAll(base, ms, logs), index, s) <==> s in use)
      <==> forall s :: Positions(blocks, s) != [] <==> SomeIndexed(ms, logs, index, s, m.sig)
  {
    hide Positions, CalledAll, SomeIndexed, ListAt, Keyed;
    forall s
      ensures m in ListAt(CalledAll(base, ms, logs), index, s) <==> SomeIndexed(ms, logs, index, s, m.sig)
      ensures s in use <==> Positions(blocks, s) != []
    {
      CallerIffSome(base, ms, logs, index, s, m);
    }
  }

  /** Where no method has been replaced, such a method is a caller of exactly the methods it uses. */
  lemma CurrentCallersAreUses(base: map<ModelMethod, seq<ModelMethod>>, ms: seq<ModelMethod>, logs: seq<seq<Site>>,
      index: map<Key, ModelMethod>, m: ModelMethod, use: map<Sig, seq<Pos>>, blocks: seq<seq<Instr>>)
    requires |logs| == |ms| && m in ms && (forall x :: x in ms && x.sig == m.sig ==> x == m) && Keyed(index)
    requires NowhereListed(base, m.sig)
    requires Recorded(map[], use, blocks, Occurrences(ms, m))
    requires forall a :: 0 <= a < |ms| ==> AllKnown(index, {}, logs[a]) && (ms[a] == m ==> SameTrace(logs[a], blocks))
    ensures forall s :: m in ListAt(CalledAll(base, ms, logs), index, s) <==> s in use
  {
    hide Recorded, Unlisted, CalledAll, AllKnown, Calls, Positions, ListAt, Keyed;
    CallersAreUses(base, ms, logs, index, m, use, blocks);
    forall s
      ensures Positions(blocks, s) != [] <==> SomeIndexed(ms, logs, index, s, m.sig)
    {
      forall a | 0 <= a < |ms| && ms[a] == m
        ensures Calls(logs[a], s, index) <==> Positions(blocks, s) != []
      {
        CurrentCalls(logs[a], s, index);
      }
      var a :| 0 <= a < |ms| && ms[a] == m;
    }
  }

  lemma CallerIffSome(base: map<ModelMethod, seq<ModelMethod>>, ms: seq<ModelMethod>, logs: seq<seq<Site>>,
      index: map<Key, ModelMethod>, s: Sig, m: ModelMethod)
    requires |logs| == |ms| && m in ms && (forall x :: x in ms && x.sig == m.sig ==> x == m) && Keyed(index)
    requires NowhereListed(base, m.sig)
    ensures m in ListAt(CalledAll(base, ms, logs), index, s) <==> SomeIndexed(ms, logs, index, s, m.sig)
  {
    hide CalledAll, Calls, CallsNode, Unlisted, Keyed;
    forall b | 0 <= b < |ms|
      ensures Calls(logs[b], s, index) <==> Signature(s) in index && CallsNode(logs[b], index[Signature(s)])
    {
      CallsIndexed(logs[b], s, index);
    }
    if Signature(s) in index {
      var x := index[Signature(s)];
      CalledAllIff(base, ms, logs, x, m);
      if SomeCaller(ms, logs, x, m.sig) {
        var a := LeastCaller(ms, logs, x, m.sig);
        assert ms[a] in ms;
      }
      NotListed(base, x, m);
    }
  }

  lemma NotListed(base: map<ModelMethod, seq<ModelMethod>>, x: ModelMethod, m: ModelMethod)
    requires NowhereListed(base, m.sig)
    ensures m !in Get(base, x) && Unlisted(Get(base, x), m.sig)
  {
  }

  lemma {:induction false} LeastCaller(ms: seq<ModelMethod>, logs: seq<seq<Site>>, x: ModelMethod, sig: Sig)
      returns (a: nat)
    requires |logs| == |ms| && SomeCaller(ms, logs, x, sig)
    ensures FirstCaller(ms, logs, x, sig, a)
  {
    var n := |ms| - 1;
    if SomeCaller(ms[..n], logs[..n], x, sig) {
      a := LeastCaller(ms[..n], logs[..n], x, sig);
    } else {
      a := n;
      assert forall b :: 0 <= b < n ==> ms[..n][b] == ms[b] && logs[..n][b] == logs[b];
    }
  }
}
