/** Building the model: each batch of parsed classes is merged into the database, and then its
    methods are cross-referenced; batch after batch goes into the same database. */
module Build {
  import opened Model
  import opened Resolver
  import opened Merge
  import opened Steps
  import opened Ledgers
  import opened XRef
  import opened Passes

  ghost function Members(batch: seq<ModelClass>): set<ModelMethod>
    reads batch
  {
    set v, k | v in batch && k in v.methods.at :: v.methods.at[k]
  }

  lemma MembersIndexed(views: seq<ClassView>, rank: string -> nat, methods: map<Key, ModelMethod>,
      fields: map<Key, ModelField>, i: nat)
    requires ParsedApart(views, rank) && i < |views|
    ensures views[i].methods.Valid()
    ensures OwnIndexed(views[i].methods.at, views[i].node.name, Over(methods, MethodTables(views), |views|))
  {
    hide Over, MethodTables, FieldTables, Apart;
    AllMembersOf(views, rank, methods, fields, i);
    TablesApart(views, rank);
    assert views[i] in views && OwnMethods(views[i]);
  }

  /** After the merge a class of the batch is stored, or the database has another class of its name. */
  lemma MergedClass(db: AnalyzerDatabase, batch: seq<ModelClass>, before: map<string, ModelClass>,
      stored: map<string, ModelClass>, missing: seq<MissingNode>, names: set<string>, i: nat)
    requires db.View().Shaped() && i < |batch|
    requires Stored(before, stored, batch) && Grown(Stock(stored, missing), StockOf(db), names)
    requires batch[i].name in before ==> before[batch[i].name] != batch[i]
    ensures InDatabase(db, batch[i]) || (batch[i] !in db.classes.Values && batch[i].name in db.classes)
    ensures batch[i].name !in before ==> InDatabase(db, batch[i])
  {
    hide Graph.ClassShape;
    NodesNamed(db.View());
    assert batch[i].name in Names(batch);
    assert forall n :: n in db.classes ==> db.View().classes[n].node == db.classes[n];
  }

  /** What a merge leaves for pass 4: its classes are in place. */
  lemma MergedInPlace(db: AnalyzerDatabase, batch: seq<ModelClass>, views: seq<ClassView>,
      methods: map<Key, ModelMethod>, fields: map<Key, ModelField>, before: map<string, ModelClass>,
      stored: map<string, ModelClass>, missing: seq<MissingNode>, names: set<string>, stale: set<Sig>)
    requires db.View().Consistent({}, stale) && |views| == |batch| && ParsedApart(views, db.rank)
    requires forall i :: 0 <= i < |batch| ==> views[i].methods == batch[i].methods && views[i].node == batch[i]
    requires Stored(before, stored, batch) && Grown(Stock(stored, missing), StockOf(db), names)
    requires forall v :: v in batch && v.name in before ==> before[v.name] != v
    requires db.methods == Over(methods, MethodTables(views), |views|)
    ensures forall v :: v in batch ==> InPlace(db, v)
  {
    hide Over, ParsedApart, Stored, Grown, OwnIndexed, InDatabase, Table.Valid, MethodTables, Graph.ClassShape;
    forall i | 0 <= i < |batch|
      ensures InPlace(db, batch[i])
    {
      assert batch[i] in batch;
      MembersIndexed(views, db.rank, methods, fields, i);
      MergedClass(db, batch, before, stored, missing, names, i);
    }
  }

  /** The nodes that a merge puts into the index are those of the batch. */
  lemma {:induction false} OverValues(base: map<Key, ModelMethod>, views: seq<ClassView>, i: nat,
      known: set<ModelMethod>)
    requires i <= |views| && base.Values <= known
    requires forall j, k :: 0 <= j < |views| && k in views[j].methods.at ==> views[j].methods.at[k] in known
    ensures Over(base, MethodTables(views), i).Values <= known
  {
    if i > 0 {
      OverValues(base, views, i - 1, known);
    }
  }

  lemma Mergeables(db: AnalyzerDatabase, batch: seq<ModelClass>)
    requires MayMerge(db, batch)
    ensures |Views(batch)| == |batch| && ParsedApart(Views(batch), db.rank)
    ensures forall i :: 0 <= i < |batch| ==>
      Views(batch)[i].methods == batch[i].methods && Views(batch)[i].node == batch[i]
    ensures forall v :: v in batch && v.name in db.classes ==> db.classes[v.name] != v
    ensures forall i, k :: 0 <= i < |batch| && k in batch[i].methods.at ==> batch[i].methods.at[k] in Members(batch)
    ensures NamesApart(Views(batch))
  {
    hide Parsed;
    forall i | 0 <= i < |batch|
      ensures Parsed(Views(batch)[i], db.rank)
    {
      assert batch[i] in batch && Mergeable(batch[i], db.rank);
    }
  }

  lemma StoredValues(db: AnalyzerDatabase, batch: seq<ModelClass>, before: map<string, ModelClass>,
      stored: map<string, ModelClass>, missing: seq<MissingNode>, names: set<string>)
    requires Stored(before, stored, batch) && Grown(Stock(stored, missing), StockOf(db), names)
    ensures stored.Values <= before.Values + (set v | v in batch) && before.Keys + Names(batch) <= db.classes.Keys
  {
    forall n | n in stored
      ensures stored[n] in before.Values || stored[n] in batch
    {
      if n !in before {
        var v :| v in batch && v.name == n;
        var i :| 0 <= i < |batch| && batch[i] == v;
        assert stored[batch[i].name] == batch[i];
      }
    }
  }

  ghost predicate Named(views: seq<ClassView>, n: string) {
    exists i :: 0 <= i < |views| && views[i].node.name == n
  }

  /** What merging these classes makes of a graph, class by class in `gs`; and whether the outcome is fully
      valid is told from the state before. */
  ghost predicate MergedTo(g: Graph, views: seq<ClassView>, gs: seq<Graph>) {
    && Merging(gs, views, |views|) && StoredIn(g, views, gs[0]) && NamesApart(views)
    && (NewNodes(views, g.methods) ==> (gs[|views|].Valid() <==> SlotsCurrent(g) && SlotsUnreplaced(g, views)))
  }

  /** The outcome: the index is overlaid with the members, the classes whose name is new are added, those of
      known names overridden, and the others stay as they are. */
  lemma MergedParts(g: Graph, views: seq<ClassView>, gs: seq<Graph>)
    requires MergedTo(g, views, gs)
    ensures |gs| == |views| + 1 && gs[|views|].methods == Over(g.methods, MethodTables(views), |views|)
    ensures forall n :: n in g.classes && !Named(views, n) ==>
      n in gs[|views|].classes && gs[|views|].classes[n] == g.classes[n]
    ensures forall i :: 0 <= i < |views| && views[i].node.name !in g.classes ==>
      views[i].node.name in gs[|views|].classes && Adds(views[i], gs[|views|])
  {
    hide Merges, StoredIn, Adds, NamesApart, NewNodes, Graph.Valid, SlotsCurrent, SlotsUnreplaced, Over, MethodTables;
    StoredIndexes(g, views, gs[0]);
    ChainIndexes(gs, views, |views|);
    forall n | n in g.classes && !Named(views, n)
      ensures n in gs[|views|].classes && gs[|views|].classes[n] == g.classes[n]
    {
      MergedKeeps(g, views, gs, n);
    }
    forall i | 0 <= i < |views| && views[i].node.name !in g.classes
      ensures views[i].node.name in gs[|views|].classes && Adds(views[i], gs[|views|])
    {
      MergedAdds(g, views, gs, i);
    }
  }

  /** The methods of the batch are enclosed in the classes of the graph. */
  ghost function MergedPlaces(places: map<ModelMethod, Place>, members: set<ModelMethod>, h: Graph):
      map<ModelMethod, Place>
  {
    map m | m in places :: if m in members then places[m].(enclosing := NodeAt(h, m.sig.fqcn)) else places[m]
  }

  /** The records that pass 4 starts from: those of before, with the methods of the batch enclosed in the
      classes of the graph. */
  ghost predicate MergedLedger(ledger: Ledger, h: Graph, before: Ledger, members: set<ModelMethod>) {
    && ledger.callers == before.callers && ledger.calls == before.calls
    && ledger.places == MergedPlaces(before.places, members, h)
  }

  lemma MergedLedgerIs(db: AnalyzerDatabase, members: set<ModelMethod>, before: Ledger)
    requires CallersOf(db.methods.Values) == before.callers && db.calls == before.calls
    requires PlacesOf(db.methods.Values) == MergedPlaces(before.places, members, db.View())
    ensures MergedLedger(LedgerOf(db, db.methods.Values), db.View(), before, members)
  {
  }

  ghost function StockIn(g: Graph, missing: seq<MissingNode>): Stock {
    Stock(map n | n in g.classes :: g.classes[n].node, missing)
  }

  lemma StockInView(db: AnalyzerDatabase)
    ensures StockIn(db.View(), db.missing) == StockOf(db)
  {
  }

  /** Where the methods of the index are enclosed after the merge. */
  lemma PlacesMerged(db: AnalyzerDatabase, batch: seq<ModelClass>, views: seq<ClassView>, members: set<ModelMethod>,
      before: map<ModelMethod, Place>)
    requires |views| == |batch| && forall i :: 0 <= i < |batch| ==>
      OwnMethods(views[i]) && views[i].methods == batch[i].methods && views[i].node == batch[i]
    requires forall m :: m in members ==> exists i, k ::
      0 <= i < |batch| && k in batch[i].methods.at && batch[i].methods.at[k] == m
    requires forall i, k :: 0 <= i < |batch| && k in batch[i].methods.at ==>
      batch[i].name in db.classes && batch[i].methods.at[k].enclosing == db.classes[batch[i].name]
    requires before.Keys == db.methods.Values
    requires forall m :: m in before ==> m.declaring == before[m].declaring
    requires forall m :: m in before && m !in members ==> m.enclosing == before[m].enclosing
    ensures PlacesOf(db.methods.Values) == MergedPlaces(before, members, db.View())
  {
    forall m | m in before && m in members
      ensures m.enclosing == NodeAt(db.View(), m.sig.fqcn)
    {
      var i, k :| 0 <= i < |batch| && k in batch[i].methods.at && batch[i].methods.at[k] == m;
      assert OwnMethods(views[i]);
      NodeInView(db, m.sig.fqcn);
    }
  }

  lemma MembersOfBatch(batch: seq<ModelClass>)
    ensures forall m :: m in Members(batch) ==> exists i, k ::
      0 <= i < |batch| && k in batch[i].methods.at && batch[i].methods.at[k] == m
  {
    forall m | m in Members(batch)
      ensures exists i, k :: 0 <= i < |batch| && k in batch[i].methods.at && batch[i].methods.at[k] == m
    {
      var v, k :| v in batch && k in v.methods.at && v.methods.at[k] == m;
      var i :| 0 <= i < |batch| && batch[i] == v;
      assert batch[i].methods.at[k] == m;
    }
  }

  lemma OwnTables(views: seq<ClassView>, rank: string -> nat)
    requires ParsedApart(views, rank)
    ensures forall i :: 0 <= i < |views| ==> OwnMethods(views[i])
  {
    TablesApart(views, rank);
  }

  /** Passes 1 and 2 of a build, with where the methods are enclosed afterwards. */
  method MergePlaced(db: AnalyzerDatabase, batch: seq<ModelClass>, ghost stale: set<Sig>)
      returns (ghost stored: map<string, ModelClass>, ghost gs: seq<Graph>)
    requires db.View().Consistent({}, stale) && MayMerge(db, batch)
    modifies db`classes, db`missing, db`methods, db`fields
    modifies Members(batch)`enclosing
    modifies (set v | v in batch)`superClass, (set v | v in batch)`interfaces
    modifies (set v | v in batch)`methods, (set v | v in batch)`fields
    modifies db.classes.Values`superClass, db.classes.Values`interfaces
    modifies db.classes.Values`methods, db.classes.Values`fields
    ensures Stored(old(db.classes), stored, batch)
    ensures Grown(Stock(stored, old(db.missing)), StockOf(db), old(ReferredBy(db, batch)))
    ensures fresh(db.classes.Values - stored.Values)
    ensures db.View().Consistent({}, stale + Stale(old(Views(batch)), old(db.classes.Keys)))
    ensures db.methods == old(MergedIndex(db, batch))
    ensures forall v :: v in batch ==> v.methods == old(v.methods)
    ensures |gs| == |batch| + 1 && gs[|batch|] == db.View() && MergedTo(old(db.View()), old(Views(batch)), gs)
    ensures MergedLedger(LedgerOf(db, db.methods.Values), db.View(), old(LedgerOf(db, MergedIndex(db, batch).Values)),
      old(Members(batch)))
    ensures RecsIn(db.methods) == old(RecsIn(MergedIndex(db, batch)))
  {
    hide *;
    ghost var g, views, members := db.View(), Views(batch), Members(batch);
    ghost var nodes := MergedIndex(db, batch).Values;
    ghost var before, places, callers := LedgerOf(db, nodes), PlacesOf(nodes), CallersOf(nodes);
    LedgerParts(db, nodes);
    CallersAre(nodes, callers);
    ViewParts(db);
    Mergeables(db, batch);
    MergedIndexIs(db, batch);
    MembersOfBatch(batch);
    OwnTables(views, db.rank);
    stored, gs := MergeBatch(db, batch, stale);
    PlacesMerged(db, batch, views, members, places);
    CallersAre(nodes, callers);
    MergedLedgerIs(db, members, before);
    MergedSo(g, views, gs);
  }

  lemma CallersAre(nodes: set<ModelMethod>, callers: map<ModelMethod, seq<ModelMethod>>)
    ensures CallersOf(nodes) == callers <==> callers.Keys == nodes && forall m :: m in nodes ==> m.callers == callers[m]
  {
  }

  lemma MergedSo(g: Graph, views: seq<ClassView>, gs: seq<Graph>)
    requires Merging(gs, views, |views|) && StoredIn(g, views, gs[0]) && NamesApart(views)
    requires NewNodes(views, g.methods) ==> (gs[|views|].Valid() <==> SlotsCurrent(g) && SlotsUnreplaced(g, views))
    ensures MergedTo(g, views, gs)
  {
  }

  /** The two passes, with what pass 4 needs to know. */
  method MergeForBuild(db: AnalyzerDatabase, batch: seq<ModelClass>, ghost stale: set<Sig>)
      returns (ghost stored: map<string, ModelClass>, ghost gs: seq<Graph>)
    requires db.View().Consistent({}, stale) && MayMerge(db, batch)
    modifies db`classes, db`missing, db`methods, db`fields
    modifies Members(batch)`enclosing
    modifies (set v | v in batch)`superClass, (set v | v in batch)`interfaces
    modifies (set v | v in batch)`methods, (set v | v in batch)`fields
    modifies db.classes.Values`superClass, db.classes.Values`interfaces
    modifies db.classes.Values`methods, db.classes.Values`fields
    ensures db.View().Consistent({}, stale + Stale(old(Views(batch)), old(db.classes.Keys)))
    ensures |gs| == |batch| + 1 && gs[|batch|] == db.View() && MergedTo(old(db.View()), old(Views(batch)), gs)
    ensures Stored(old(db.classes), stored, batch)
    ensures Grown(Stock(stored, old(db.missing)), StockIn(db.View(), db.missing), old(ReferredBy(db, batch)))
    ensures MergedLedger(LedgerOf(db, db.methods.Values), db.View(), old(LedgerOf(db, MergedIndex(db, batch).Values)),
      old(Members(batch)))
    ensures db.methods == old(MergedIndex(db, batch))
    ensures db.methods.Values <= old(db.methods.Values) + old(Members(batch))
    ensures fresh(db.classes.Values - old(db.classes.Values) - (set v | v in batch))
    ensures old(db.classes.Keys) + Names(batch) <= db.classes.Keys
    ensures RecsIn(db.methods) == old(RecsIn(MergedIndex(db, batch)))
    ensures TablesOf(batch) == old(TablesOf(batch)) && AllInPlace(db, batch)
  {
    hide *;
    ghost var g, views, before, missing := db.View(), Views(batch), db.classes, db.missing;
    ghost var fields, names, tables := db.fields, ReferredBy(db, batch), TablesOf(batch);
    ViewParts(db);
    Mergeables(db, batch);
    MergedIndexIs(db, batch);
    ghost var known := db.methods.Values + Members(batch);
    OverValues(db.methods, views, |views|, known);
    stored, gs := MergePlaced(db, batch, stale);
    StoredValues(db, batch, before, stored, missing, names);
    MergedInPlace(db, batch, views, g.methods, fields, before, stored, missing, names,
      stale + Stale(views, before.Keys));
    StockInView(db);
    SameTablesOf(batch, tables);
    PlacedAll(db, batch);
  }

  ghost predicate AllInPlace(db: AnalyzerDatabase, batch: seq<ModelClass>)
    reads db, batch
  {
    forall v :: v in batch ==> InPlace(db, v)
  }

  lemma PlacedAll(db: AnalyzerDatabase, batch: seq<ModelClass>)
    ensures AllInPlace(db, batch) <==> forall v :: v in batch ==> InPlace(db, v)
  {
  }

  /** What the methods of an index have recorded. */
  ghost function RecsIn(index: map<Key, ModelMethod>): map<ModelMethod, Rec>
    reads index.Values`useMethod, index.Values`useMethodCtr, index.Values`instr
  {
    map m | m in index.Values :: RecOf(m)
  }

  lemma RecordsOf(db: AnalyzerDatabase)
    ensures Recs(db) == RecsIn(db.methods)
  {
  }

  /** The index once the batch is merged. */
  ghost function MergedIndex(db: AnalyzerDatabase, batch: seq<ModelClass>): map<Key, ModelMethod>
    reads db, batch
  {
    Over(db.methods, MethodTables(Views(batch)), |batch|)
  }

  lemma ExtendsKeys(g: Graph, db: AnalyzerDatabase)
    requires Extends(g, db.View())
    ensures g.classes.Keys <= db.classes.Keys
  {
  }

  /** The signatures of replaced methods that slots may hold in this graph. */
  ghost function StaleIn(g: Graph, stale: set<Sig>): set<Sig> {
    if g.Valid() then {} else stale
  }

  lemma StaleInOf(g: Graph, stale: set<Sig>)
    requires g.Consistent({}, stale)
    ensures g.Consistent({}, StaleIn(g, stale))
  {
  }

  lemma StaleEnough(g: Graph, h: Graph, stale: set<Sig>)
    requires h.Consistent({}, StaleIn(g, stale))
    ensures h.Consistent({}, stale) && (g.Valid() ==> h.Valid())
  {
    hide Graph.Consistent;
    if g.Valid() {
      MoreStale(h, {}, {}, stale);
    }
  }

  /** The signatures that slots may hold replaced after a build. */
  ghost function StaleAfter(g: Graph, views: seq<ClassView>, h: Graph, stale: set<Sig>): set<Sig> {
    StaleIn(h, stale + Stale(views, g.classes.Keys))
  }

  /** One build: the batch is merged, and then cross-referenced; `p.states[0]` is the graph in between.
      Afterwards the indexes agree with the classes but for the slots that inherited a replaced
      method, now or earlier; and in full, if they did so after the merge, which is told from the
      state before. What pass 4 did is a run of it on the merged graph, on top of the records, caller lists
      and call nodes from before, the places that the merge gave to the methods of the batch, and the
      classes that the merge added to the missing nodes. */
  method BuildModel(db: AnalyzerDatabase, batch: seq<ModelClass>, ghost stale: set<Sig>)
      returns (ghost p: Progress, ghost u: Tour, ghost gs: seq<Graph>, ghost stored: map<string, ModelClass>)
    requires db.View().Consistent({}, stale) && MayMerge(db, batch)
    modifies db
    modifies db.classes.Values`superClass, db.classes.Values`interfaces
    modifies db.classes.Values`methods, db.classes.Values`inherit, db.classes.Values`fields
    modifies (set v | v in batch)`superClass, (set v | v in batch)`interfaces
    modifies (set v | v in batch)`methods, (set v | v in batch)`inherit, (set v | v in batch)`fields
    modifies MergedIndex(db, batch).Values, Members(batch)`enclosing
    ensures |p.states| == |p.ms| + 1 && p.states[|p.ms|] == db.View()
    ensures MergedTo(old(db.View()), old(Views(batch)), gs) && |gs| == |batch| + 1 && gs[|batch|] == p.states[0]
    ensures var now := StaleAfter(old(db.View()), old(Views(batch)), p.states[0], stale);
      && Passed(Round(batch, old(TablesOf(batch))), u, p, now) && CrossReferenced(db, p, now)
      && db.View().Consistent({}, now)
    ensures p.start == old(RecsIn(MergedIndex(db, batch)))
    ensures MergedLedger(p.ledger, p.states[0], old(LedgerOf(db, MergedIndex(db, batch).Values)), old(Members(batch)))
    ensures Stored(old(db.classes), stored, batch)
    ensures Grown(Stock(stored, old(db.missing)), StockIn(p.states[0], p.ledger.missing), old(ReferredBy(db, batch)))
    ensures db.View().Consistent({}, stale + Stale(old(Views(batch)), old(db.classes.Keys)))
    ensures p.states[0].Valid() ==> db.View().Valid()
    ensures old(db.classes.Keys) + Names(batch) <= db.classes.Keys
    ensures fresh(db.classes.Values - old(db.classes.Values) - (set v | v in batch))
    ensures fresh(db.methods.Values - old(db.methods.Values) - old(Members(batch)))
  {
    hide *;
    ghost var g, views := db.View(), Views(batch);
    ghost var now := stale + Stale(views, db.classes.Keys);
    ViewParts(db);
    stored, gs := MergeForBuild(db, batch, stale);
    StaleInOf(db.View(), now);
    LedgerParts(db, db.methods.Values);
    ghost var classes, methods := db.classes.Values, db.methods.Values;
    p, u := MapForBuild(db, batch, StaleIn(db.View(), now));
    Beyond(db.classes.Values, classes, old(db.classes.Values), set v | v in batch);
    Beyond(db.methods.Values, methods, old(db.methods.Values), old(Members(batch)));
    StaleEnough(p.states[0], db.View(), now);
    StaleAfterIs(g, views, p.states[0], stale);
  }

  lemma Beyond<T>(last: set<T>, between: set<T>, first: set<T>, given: set<T>)
    ensures last - first - given <= (last - between) + (between - first - given)
  {
  }

  lemma StaleAfterIs(g: Graph, views: seq<ClassView>, h: Graph, stale: set<Sig>)
    ensures StaleAfter(g, views, h, stale) == StaleIn(h, stale + Stale(views, g.classes.Keys))
  {
  }

  lemma SameTablesOf(batch: seq<ModelClass>, tables: seq<Table<ModelMethod>>)
    requires |tables| == |batch| && forall j :: 0 <= j < |batch| ==> batch[j].methods == tables[j]
    ensures TablesOf(batch) == tables
  {
  }

  /** Pass 4 of a build. */
  method MapForBuild(db: AnalyzerDatabase, batch: seq<ModelClass>, ghost stale: set<Sig>)
      returns (ghost p: Progress, ghost u: Tour)
    requires db.View().Consistent({}, stale) && AllInPlace(db, batch)
    modifies db`classes, db`methods, db`missing, db`calls
    modifies db.classes.Values`methods, db.classes.Values`inherit, db.methods.Values
    ensures db.View().Consistent({}, stale) && |p.states| == |p.ms| + 1
    ensures Passed(Round(batch, old(TablesOf(batch))), u, p, stale) && CrossReferenced(db, p, stale)
    ensures p.states[0] == old(db.View()) && p.states[|p.ms|] == db.View()
    ensures p.start == old(RecsIn(db.methods)) && p.ledger == old(LedgerOf(db, db.methods.Values))
    ensures old(db.classes.Keys) <= db.classes.Keys
    ensures fresh(db.classes.Values - old(db.classes.Values)) && fresh(db.methods.Values - old(db.methods.Values))
  {
    hide *;
    ghost var g, r := db.View(), Round(batch, TablesOf(batch));
    ViewParts(db);
    RecordsOf(db);
    PlacedAll(db, batch);
    p, u := MapBatch(db, batch, stale);
    Sizes(r, u, p, stale);
    ExtendsKeys(g, db);
  }

  lemma MergedIndexIs(db: AnalyzerDatabase, batch: seq<ModelClass>)
    ensures MergedIndex(db, batch) == Over(db.methods, MethodTables(Views(batch)), |batch|)
  {
  }

  // ---------- a run of builds ----------

  ghost function AllClasses(batches: seq<seq<ModelClass>>): set<ModelClass> {
    set b, v | b in batches && v in b :: v
  }

  ghost function AllMembers(batches: seq<seq<ModelClass>>): set<ModelMethod>
    reads AllClasses(batches)
  {
    set v, k | v in AllClasses(batches) && k in v.methods.at :: v.methods.at[k]
  }

  ghost function AllViews(batches: seq<seq<ModelClass>>): (vs: seq<seq<ClassView>>)
    reads AllClasses(batches)
    ensures |vs| == |batches| && forall i :: 0 <= i < |batches| ==> vs[i] == Views(batches[i])
  {
    if batches == [] then []
    else
      var n := |batches| - 1;
      assert batches[n] in batches && forall b :: b in batches[..n] ==> b in batches;
      assert forall v :: v in batches[n] ==> v in AllClasses(batches);
      AllViews(batches[..n]) + [Views(batches[n])]
  }

  /** The methods replaced by the first `i` batches, each in the graph of its time. */
  ghost function RunStale(views: seq<seq<ClassView>>, graphs: seq<Graph>, i: nat): set<Sig>
    requires i <= |views| && i <= |graphs|
  {
    if i == 0 then {} else RunStale(views, graphs, i - 1) + Stale(views[i - 1], graphs[i - 1].classes.Keys)
  }

  /** From batch `i` on the classes are as the parser left them, and not in the database. */
  ghost predicate Ahead(db: AnalyzerDatabase, batches: seq<seq<ModelClass>>, views: seq<seq<ClassView>>, i: nat)
    reads db, AllClasses(batches)
  {
    |views| == |batches| && forall j :: i <= j < |batches| ==>
      assert batches[j] in batches && forall v :: v in batches[j] ==> v in AllClasses(batches);
      && Views(batches[j]) == views[j]
      && forall v :: v in batches[j] ==> Mergeable(v, db.rank) && v !in db.classes.Values
  }

  /** Batches of distinct names, none of whose classes occurs in another. */
  ghost predicate Separate(batches: seq<seq<ModelClass>>) {
    && (forall b :: b in batches ==> DistinctNames(b))
    && forall i, j, v :: 0 <= i < j < |batches| && v in batches[i] ==> v !in batches[j]
  }

  lemma AheadMayMerge(db: AnalyzerDatabase, batches: seq<seq<ModelClass>>, views: seq<seq<ClassView>>, i: nat)
    requires Ahead(db, batches, views, i) && i < |batches| && Separate(batches)
    ensures MayMerge(db, batches[i]) && Views(batches[i]) == views[i]
    ensures forall v :: v in batches[i] ==> v in AllClasses(batches)
  {
    hide Mergeable;
    assert batches[i] in batches;
  }

  lemma AheadIs(db: AnalyzerDatabase, batches: seq<seq<ModelClass>>, views: seq<seq<ClassView>>, i: nat)
    ensures Ahead(db, batches, views, i) <==> |views| == |batches| && forall j :: i <= j < |batches| ==>
      Views(batches[j]) == views[j] && forall v :: v in batches[j] ==> Mergeable(v, db.rank) && v !in db.classes.Values
  {
    hide Mergeable, Views;
    if |views| == |batches| && forall j :: i <= j < |batches| ==>
      Views(batches[j]) == views[j] && forall v :: v in batches[j] ==> Mergeable(v, db.rank) && v !in db.classes.Values
    {
      assert Ahead(db, batches, views, i);
    }
  }

  lemma LaterApart(batches: seq<seq<ModelClass>>, i: nat)
    requires Separate(batches) && i < |batches|
    ensures forall j, v :: i < j < |batches| && v in batches[j] ==> v !in batches[i]
  {
  }

  lemma MergedWithin(db: AnalyzerDatabase, batch: seq<ModelClass>)
    requires MayMerge(db, batch)
    ensures MergedIndex(db, batch).Values <= db.methods.Values + Members(batch)
  {
    hide MayMerge, Over, MethodTables, ParsedApart, NamesApart;
    Mergeables(db, batch);
    OverValues(db.methods, Views(batch), |batch|, db.methods.Values + Members(batch));
  }

  /** One build of a run, seen from outside. */
  method BuildOn(db: AnalyzerDatabase, batch: seq<ModelClass>, ghost stale: set<Sig>)
    requires db.View().Consistent({}, stale) && MayMerge(db, batch)
    modifies db, db.classes.Values, db.methods.Values, (set v | v in batch), Members(batch)
    ensures db.View().Consistent({}, stale + Stale(old(Views(batch)), old(db.classes.Keys)))
    ensures old(db.classes.Keys) + Names(batch) <= db.classes.Keys
    ensures BuildsOn(old(db.View()), old(Views(batch)), db.View())
    ensures fresh(db.classes.Values - old(db.classes.Values) - (set v | v in batch))
    ensures fresh(db.methods.Values - old(db.methods.Values) - old(Members(batch)))
  {
    hide *;
    ghost var g, views := db.View(), Views(batch);
    Mergeables(db, batch);
    MergedWithin(db, batch);
    ghost var p, u, gs, stored := BuildModel(db, batch, stale);
    ValidBuild(g, stale, views, gs, db.View());
  }

  /** It leaves the later batches alone. */
  method BuildNext(db: AnalyzerDatabase, batches: seq<seq<ModelClass>>, i: nat, ghost views: seq<seq<ClassView>>,
      ghost stale: set<Sig>)
    requires db.View().Consistent({}, stale) && i < |batches|
    requires Separate(batches) && Ahead(db, batches, views, i)
    modifies db, db.classes.Values, db.methods.Values, (set v | v in batches[i]), Members(batches[i])
    ensures i < |views| && db.View().Consistent({}, stale + Stale(views[i], old(db.classes.Keys)))
    ensures old(db.classes.Keys) + Names(batches[i]) <= db.classes.Keys
    ensures BuildsOn(old(db.View()), views[i], db.View())
    ensures Ahead(db, batches, views, i + 1)
    ensures fresh(db.classes.Values - old(db.classes.Values) - (set v | v in batches[i]))
    ensures fresh(db.methods.Values - old(db.methods.Values) - old(Members(batches[i])))
  {
    hide *;
    LaterApart(batches, i);
    AheadMayMerge(db, batches, views, i);
    AheadIs(db, batches, views, i);
    BuildOn(db, batches[i], stale);
    AheadIs(db, batches, views, i + 1);
  }

  /** A build into a valid graph that replaces no method which a slot holds leaves a valid graph. */
  ghost predicate BuildsOn(g: Graph, views: seq<ClassView>, h: Graph) {
    g.Valid() && NewNodes(views, g.methods) && SlotsUnreplaced(g, views) ==> h.Valid()
  }

  lemma ValidBuild(g: Graph, stale: set<Sig>, views: seq<ClassView>, gs: seq<Graph>, h: Graph)
    requires g.Consistent({}, stale) && MergedTo(g, views, gs)
    requires |gs| == |views| + 1 && (gs[|views|].Valid() ==> h.Valid())
    ensures BuildsOn(g, views, h)
  {
    hide Graph.Consistent, Graph.Valid, Over, NewNodes, SlotsUnreplaced, SlotsCurrent;
    ValidIff(g, stale);
  }

  /** The methods that these classes hold. */
  ghost function Held(views: seq<ClassView>): set<ModelMethod> {
    set v, k | v in views && k in v.methods.at :: v.methods.at[k]
  }

  lemma MembersHeld(batch: seq<ModelClass>)
    ensures Members(batch) == Held(Views(batch))
  {
    forall m | m in Members(batch)
      ensures m in Held(Views(batch))
    {
      var v, k :| v in batch && k in v.methods.at && v.methods.at[k] == m;
      var j :| 0 <= j < |batch| && batch[j] == v;
      assert Views(batch)[j] in Views(batch) && Views(batch)[j].methods.at[k] == m;
    }
    forall m | m in Held(Views(batch))
      ensures m in Members(batch)
    {
      var c, k :| c in Views(batch) && k in c.methods.at && c.methods.at[k] == m;
      var j :| 0 <= j < |batch| && Views(batch)[j] == c;
      assert batch[j] in batch;
    }
  }

  lemma AllHeld(batches: seq<seq<ModelClass>>, i: nat)
    requires i < |batches|
    ensures Members(batches[i]) <= AllMembers(batches) && (set v | v in batches[i]) <= AllClasses(batches)
    ensures Held(AllViews(batches)[i]) <= AllMembers(batches)
  {
    assert batches[i] in batches && forall v :: v in batches[i] ==> v in AllClasses(batches);
    MembersHeld(batches[i]);
  }

  /** The graphs before each of the first `i` builds, and after them. */
  ghost predicate GraphsSo(graphs: seq<Graph>, batches: seq<seq<ModelClass>>, views: seq<seq<ClassView>>, i: nat,
      first: Graph)
  {
    && |graphs| == i + 1 && i <= |batches| && i <= |views| && graphs[0] == first
    && forall j :: 0 <= j < i ==>
         && graphs[j].classes.Keys + Names(batches[j]) <= graphs[j + 1].classes.Keys
         && BuildsOn(graphs[j], views[j], graphs[j + 1])
  }

  lemma GraphsNext(graphs: seq<Graph>, batches: seq<seq<ModelClass>>, views: seq<seq<ClassView>>, i: nat,
      first: Graph, now: Graph)
    requires GraphsSo(graphs, batches, views, i, first) && i < |batches| && i < |views|
    requires graphs[i].classes.Keys + Names(batches[i]) <= now.classes.Keys && BuildsOn(graphs[i], views[i], now)
    ensures GraphsSo(graphs + [now], batches, views, i + 1, first)
  {
    hide Names, BuildsOn;
  }

  lemma {:induction false} RunStaleFrame(views: seq<seq<ClassView>>, graphs: seq<Graph>, now: Graph, i: nat)
    requires i <= |views| && i <= |graphs|
    ensures RunStale(views, graphs + [now], i) == RunStale(views, graphs, i)
  {
    if i > 0 {
      RunStaleFrame(views, graphs, now, i - 1);
    }
  }

  /** The state of the database after `i` builds. */
  ghost predicate Built(db: AnalyzerDatabase, batches: seq<seq<ModelClass>>, views: seq<seq<ClassView>>,
      graphs: seq<Graph>, first: Graph, stale: set<Sig>, i: nat)
    reads db, db.classes.Values, AllClasses(batches)
  {
    && GraphsSo(graphs, batches, views, i, first) && graphs[i] == db.View()
    && db.View().Consistent({}, stale + RunStale(views, graphs, i)) && Ahead(db, batches, views, i)
  }

  /** One turn of the run. */
  method BuildTurn(db: AnalyzerDatabase, batches: seq<seq<ModelClass>>, i: nat, ghost views: seq<seq<ClassView>>,
      ghost graphs: seq<Graph>, ghost first: Graph, ghost stale: set<Sig>) returns (ghost more: seq<Graph>)
    requires i < |batches| && Separate(batches) && Built(db, batches, views, graphs, first, stale, i)
    modifies db, db.classes.Values, db.methods.Values, (set v | v in batches[i]), Members(batches[i])
    ensures Built(db, batches, views, more, first, stale, i + 1)
    ensures fresh(db.classes.Values - old(db.classes.Values) - (set v | v in batches[i]))
    ensures fresh(db.methods.Values - old(db.methods.Values) - old(Members(batches[i])))
  {
    hide Graph.Consistent, AnalyzerDatabase.View, Ahead, Stale, Members, Separate, GraphsSo, BuildsOn;
    GraphsParts(graphs, batches, views, i, first);
    ViewParts(db);
    BuildNext(db, batches, i, views, stale + RunStale(views, graphs, i));
    ViewParts(db);
    more := graphs + [db.View()];
    GraphsNext(graphs, batches, views, i, first, db.View());
    RunStaleFrame(views, graphs, db.View(), i);
    assert stale + RunStale(views, graphs, i) + Stale(views[i], graphs[i].classes.Keys)
        == stale + RunStale(views, more, i + 1);
  }

  lemma GraphsParts(graphs: seq<Graph>, batches: seq<seq<ModelClass>>, views: seq<seq<ClassView>>, i: nat, first: Graph)
    requires GraphsSo(graphs, batches, views, i, first)
    ensures |graphs| == i + 1 && i <= |views|
  {
  }

  lemma RunBegins(db: AnalyzerDatabase, batches: seq<seq<ModelClass>>, stale: set<Sig>)
    requires db.View().Consistent({}, stale) && Ahead(db, batches, AllViews(batches), 0)
    ensures Built(db, batches, AllViews(batches), [db.View()], db.View(), stale, 0)
  {
    hide Graph.Consistent, Ahead, AnalyzerDatabase.View;
    assert stale + RunStale(AllViews(batches), [db.View()], 0) == stale;
  }

  lemma RunEnds(db: AnalyzerDatabase, batches: seq<seq<ModelClass>>, views: seq<seq<ClassView>>,
      graphs: seq<Graph>, first: Graph, stale: set<Sig>, i: nat)
    requires Built(db, batches, views, graphs, first, stale, i)
    ensures GraphsSo(graphs, batches, views, i, first) && |graphs| == i + 1 && i <= |views| && graphs[i] == db.View()
    ensures db.View().Consistent({}, stale + RunStale(views, graphs, i))
  {
    hide Graph.Consistent, Ahead, AnalyzerDatabase.View, RunStale, BuildsOn;
  }

  lemma AheadNow(db: AnalyzerDatabase, batches: seq<seq<ModelClass>>, views: seq<seq<ClassView>>,
      graphs: seq<Graph>, first: Graph, stale: set<Sig>, i: nat)
    requires Built(db, batches, views, graphs, first, stale, i) && i < |batches|
    ensures |views| == |batches| && Members(batches[i]) == Held(views[i])
  {
    hide Graph.Consistent, Members, Held, AnalyzerDatabase.View, BuildsOn;
    MembersHeld(batches[i]);
  }

  /** At each build the nodes were new, and no slot held a method that the batch replaces. */
  ghost predicate NothingReplaced(graphs: seq<Graph>, views: seq<seq<ClassView>>, i: nat) {
    i <= |graphs| && i <= |views| && forall j :: 0 <= j < i ==>
      NewNodes(views[j], graphs[j].methods) && SlotsUnreplaced(graphs[j], views[j])
  }

  lemma {:induction false} RunValid(graphs: seq<Graph>, batches: seq<seq<ModelClass>>, views: seq<seq<ClassView>>,
      n: nat, i: nat, first: Graph)
    requires GraphsSo(graphs, batches, views, n, first) && i <= n && NothingReplaced(graphs, views, i) && first.Valid()
    ensures graphs[i].Valid()
  {
    hide Graph.Valid, NewNodes, SlotsUnreplaced, Names;
    if i > 0 {
      RunValid(graphs, batches, views, n, i - 1, first);
      assert BuildsOn(graphs[i - 1], views[i - 1], graphs[i]);
    }
  }

  /** A run of builds into the same database. At each point the indexes agree with the classes but
      for inherited slots that hold a method which some batch has replaced, given the graph when it
      came; and they agree in full after a run from a valid graph in which no batch replaces a method
      that a slot holds. */
  method BuildRun(db: AnalyzerDatabase, batches: seq<seq<ModelClass>>, ghost stale: set<Sig>)
      returns (ghost graphs: seq<Graph>)
    requires db.View().Consistent({}, stale) && Separate(batches) && Ahead(db, batches, AllViews(batches), 0)
    modifies db, db.classes.Values, db.methods.Values, AllClasses(batches), AllMembers(batches)
    ensures GraphsSo(graphs, batches, old(AllViews(batches)), |batches|, old(db.View()))
    ensures |graphs| == |batches| + 1 && graphs[|batches|] == db.View()
    ensures db.View().Consistent({}, stale + RunStale(old(AllViews(batches)), graphs, |batches|))
    ensures old(db.View().Valid()) && NothingReplaced(graphs, old(AllViews(batches)), |batches|) ==> db.View().Valid()
  {
    hide *;
    ghost var views, first := AllViews(batches), db.View();
    ghost var members := AllMembers(batches);
    graphs := [first];
    RunBegins(db, batches, stale);
    forall i | 0 <= i < |batches|
      ensures Held(views[i]) <= members && (set v | v in batches[i]) <= AllClasses(batches)
    {
      AllHeld(batches, i);
    }
    for i := 0 to |batches|
      invariant Built(db, batches, views, graphs, first, stale, i)
      invariant fresh(db.classes.Values - old(db.classes.Values) - AllClasses(batches))
      invariant fresh(db.methods.Values - old(db.methods.Values) - members)
    {
      AheadNow(db, batches, views, graphs, first, stale, i);
      graphs := BuildTurn(db, batches, i, views, graphs, first, stale);
    }
    RunEnds(db, batches, views, graphs, first, stale, |batches|);
    if first.Valid() && NothingReplaced(graphs, views, |batches|) {
      RunValid(graphs, batches, views, |batches|, |batches|, first);
    }
  }
}
