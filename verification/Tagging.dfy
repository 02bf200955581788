/** The tagging passes of a full scan over the six node collections. */
module Tagging {

  datatype Tag = Internal | Static | Mixed | Dynamic | RuntimeBuffer | RuntimeFile | Other(name: string)

  /** A node of the model; strings know the nodes that use them. */
  class Node {
    var tags: set<Tag>
    const src: seq<Node>

    constructor (tags: set<Tag>, src: seq<Node>)
      ensures this.tags == tags && this.src == src
    {
      this.tags, this.src := tags, src;
    }

    method AddTag(t: Tag)
      modifies this
      ensures tags == old(tags) + {t}
    {
      tags := tags + {t};
    }
  }

  /** The tests of the passes: the node has none of the tags, or a node that uses it has the tag. */
  datatype Condition = Lacks(tags: set<Tag>) | UsedBy(tag: Tag)

  type Tags = map<Node, set<Tag>>

  // ---------- one pass over one collection ----------

  function TagSet(tags: seq<Tag>): set<Tag> {
    set t | t in tags
  }

  predicate Meets(c: Condition, m: Tags, v: Node)
    requires v in m && forall s :: s in v.src ==> s in m
  {
    match c
    case Lacks(ts) => m[v] * ts == {}
    case UsedBy(t) => exists s :: s in v.src && t in m[s]
  }

  /** All nodes and their users are covered. */
  ghost predicate Covers(m: Tags) {
    forall v, s :: v in m && s in v.src ==> s in m
  }

  /** Every node of the collection that meets the condition gets the tags. */
  ghost function Tagged(m: Tags, coll: seq<Node>, c: Condition, add: set<Tag>): (r: Tags)
    requires Covers(m)
    ensures r.Keys == m.Keys && Covers(r)
  {
    map v | v in m :: m[v] + if v in coll && Meets(c, m, v) then add else {}
  }

  /** The tags a pass adds do not change its own test of the users. */
  predicate Stable(c: Condition, add: set<Tag>) {
    c.UsedBy? ==> c.tag !in add
  }

  /** Visiting one more node, whether or not it was visited before. */
  lemma TaggedNext(m: Tags, coll: seq<Node>, v: Node, c: Condition, add: set<Tag>)
    requires Covers(m) && Stable(c, add) && v in m
    ensures var r := Tagged(m, coll, c, add);
      Tagged(m, coll + [v], c, add) == r[v := r[v] + if Meets(c, r, v) then add else {}]
  {
    var r, next := Tagged(m, coll, c, add), Tagged(m, coll + [v], c, add);
    assert c.UsedBy? ==> (Meets(c, r, v) <==> Meets(c, m, v));
    forall w | w in m
      ensures next[w] == r[v := r[v] + if Meets(c, r, v) then add else {}][w]
    {
      assert w in coll + [v] <==> w in coll || w == v;
    }
  }

  /** The number of visits that tag. */
  ghost function Visits(m: Tags, coll: seq<Node>, c: Condition, add: set<Tag>): nat
    requires Covers(m) && forall v :: v in coll ==> v in m
  {
    if coll == [] then 0 else
      var init, v := coll[..|coll| - 1], coll[|coll| - 1];
      assert v in coll;
      Visits(m, init, c, add) + if Meets(c, Tagged(m, init, c, add), v) then 1 else 0
  }

  ghost function Meeting(m: Tags, coll: seq<Node>, c: Condition): set<Node>
    requires Covers(m)
  {
    set v | v in coll && v in m && Meets(c, m, v)
  }

  /** A node that gets the tags does not meet the condition any more. */
  predicate Ends(c: Condition, add: set<Tag>) {
    c.Lacks? && c.tags * add != {}
  }

  /** Which nodes meet the condition when some have got the tags. */
  lemma MeetsAfter(m: Tags, init: seq<Node>, v: Node, c: Condition, add: set<Tag>)
    requires Covers(m) && Stable(c, add) && v in m
    ensures Meets(c, Tagged(m, init, c, add), v) <==> Meets(c, m, v) && !(Ends(c, add) && v in init)
  {
    var r := Tagged(m, init, c, add);
    if Ends(c, add) {
      var t :| t in c.tags * add;
      assert v in init && Meets(c, m, v) ==> t in r[v] * c.tags;
    } else if c.Lacks? {
      assert c.tags * add == {};
      assert r[v] * c.tags == m[v] * c.tags;
    }
  }

  lemma MeetingNext(m: Tags, init: seq<Node>, v: Node, c: Condition)
    requires Covers(m) && v in m && forall w :: w in init ==> w in m
    ensures |Meeting(m, init + [v], c)| == |Meeting(m, init, c)| + if v !in init && Meets(c, m, v) then 1 else 0
  {
    var before, after := Meeting(m, init, c), Meeting(m, init + [v], c);
    hide Meets, Covers;
    assert after == if v !in init && Meets(c, m, v) then before + {v} else before;
  }

  /** No node that meets the condition occurs twice. */
  ghost predicate MeetOnce(m: Tags, coll: seq<Node>, c: Condition)
    requires Covers(m) && forall v :: v in coll ==> v in m
  {
    forall i, j :: 0 <= i < j < |coll| && coll[i] == coll[j] ==> !Meets(c, m, coll[i])
  }

  lemma MeetOnceNext(m: Tags, init: seq<Node>, v: Node, c: Condition)
    requires Covers(m) && v in m && forall w :: w in init ==> w in m
    ensures MeetOnce(m, init + [v], c) <==> MeetOnce(m, init, c) && !(v in init && Meets(c, m, v))
  {
    hide Meets, Covers;
    var coll := init + [v];
    if MeetOnce(m, coll, c) {
      assert forall i :: 0 <= i < |init| ==> coll[i] == init[i];
      if v in init {
        var i :| 0 <= i < |init| && init[i] == v;
        assert coll[i] == coll[|init|];
      }
    }
  }

  /** The count of a pass over a collection is the number of nodes that met its condition exactly if
      the tags it adds end the condition, or no node that meets it is stored twice. */
  lemma {:induction false} CountIsMeeting(m: Tags, coll: seq<Node>, c: Condition, add: set<Tag>)
    requires Covers(m) && Stable(c, add) && forall v :: v in coll ==> v in m
    ensures Visits(m, coll, c, add) >= |Meeting(m, coll, c)|
    ensures Visits(m, coll, c, add) == |Meeting(m, coll, c)| <==> Ends(c, add) || MeetOnce(m, coll, c)
  {
    if coll != [] {
      var init, v := coll[..|coll| - 1], coll[|coll| - 1];
      assert coll == init + [v] && v in coll;
      CountIsMeeting(m, init, c, add);
      hide Meets, Covers, Tagged, Meeting, Ends, MeetOnce;
      MeetsAfter(m, init, v, c, add);
      MeetingNext(m, init, v, c);
      MeetOnceNext(m, init, v, c);
    }
  }

  /** A node stored under two keys is counted twice by the static pass, though it is one node. */
  lemma TwiceCounted(m: Tags, v: Node)
    requires Covers(m) && v in m && Internal !in m[v]
    ensures Visits(m, [v, v], Lacks({Internal}), {Static}) == 2
    ensures Meeting(m, [v, v], Lacks({Internal})) == {v}
  {
    var c, add := Lacks({Internal}), {Static};
    assert [v, v][..1] == [v] && [v][..0] == [];
    assert Visits(m, [v], c, add) == Visits(m, [], c, add) + 1;
    MeetsAfter(m, [v], v, c, add);
  }

  // ---------- the passes ----------

  /** Where data that the dynamic pass tags comes from: captured buffers, captured files, or hooks. */
  datatype Origin = Buffers | Files | Hooks

  datatype Pass =
    | StaticPass
    | StringPass
    | MixedPass
    | DynamicPass(origin: Origin)

  function ConditionOf(p: Pass): Condition {
    match p
    case StaticPass => Lacks({Internal})
    case StringPass => UsedBy(Internal)
    case MixedPass => Lacks({Internal, Static})
    case DynamicPass(_) => Lacks({Internal, Static})
  }

  function TagsOf(p: Pass): set<Tag> {
    match p
    case StaticPass => {Static}
    case StringPass => {Static}
    case MixedPass => {Mixed, Static}
    case DynamicPass(Buffers) => {Dynamic, RuntimeBuffer}
    case DynamicPass(Files) => {Dynamic, RuntimeFile}
    case DynamicPass(Hooks) => {Dynamic}
  }

  const STRINGS := 4

  /** A pass goes over the strings or over all collections. */
  function Visited(p: Pass, colls: seq<seq<Node>>): seq<seq<Node>>
    requires |colls| == 6
  {
    if p.StringPass? then [colls[STRINGS]] else colls
  }

  ghost function NodesOf(colls: seq<seq<Node>>): set<Node> {
    set i, v | 0 <= i < |colls| && v in colls[i] :: v
  }

  /** Collections are visited one after the other. */
  ghost function TaggedAll(m: Tags, colls: seq<seq<Node>>, c: Condition, add: set<Tag>): (r: Tags)
    requires Covers(m)
    ensures r.Keys == m.Keys && Covers(r)
  {
    if colls == [] then m
    else Tagged(TaggedAll(m, colls[..|colls| - 1], c, add), colls[|colls| - 1], c, add)
  }

  /** A node in any of the collections gets the tags exactly if it met the condition at the start. */
  lemma {:induction false} TaggedAllIs(m: Tags, colls: seq<seq<Node>>, c: Condition, add: set<Tag>)
    requires Covers(m) && Stable(c, add)
    ensures forall v :: v in m ==>
      TaggedAll(m, colls, c, add)[v] == m[v] + if v in NodesOf(colls) && Meets(c, m, v) then add else {}
  {
    if colls != [] {
      var init, last := colls[..|colls| - 1], colls[|colls| - 1];
      TaggedAllIs(m, init, c, add);
      var r := TaggedAll(m, init, c, add);
      assert c.UsedBy? ==> forall v :: v in m ==> (Meets(c, r, v) <==> Meets(c, m, v));
      NodesOfLast(colls);
    }
  }

  lemma NodesOfLast(colls: seq<seq<Node>>)
    requires colls != []
    ensures forall v :: v in NodesOf(colls) <==> v in NodesOf(colls[..|colls| - 1]) || v in colls[|colls| - 1]
  {
    var init := colls[..|colls| - 1];
    assert forall i :: 0 <= i < |init| ==> init[i] == colls[i];
  }

  /** Which nodes get which tags in each pass. */
  lemma PassTags(m: Tags, colls: seq<seq<Node>>, p: Pass)
    requires Covers(m) && |colls| == 6
    ensures var r := TaggedAll(m, Visited(p, colls), ConditionOf(p), TagsOf(p));
      forall v :: v in m ==>
        match p
        case StaticPass => r[v] == m[v] + if v in NodesOf(colls) && Internal !in m[v] then {Static} else {}
        case StringPass =>
          r[v] == m[v] + if v in colls[4] && exists u :: u in v.src && Internal in m[u] then {Static} else {}
        case MixedPass =>
          r[v] == m[v] +
            if v in NodesOf(colls) && Internal !in m[v] && Static !in m[v] then {Mixed, Static} else {}
        case DynamicPass(o) =>
          r[v] == m[v] +
            if v !in NodesOf(colls) || Internal in m[v] || Static in m[v] then {}
            else {Dynamic} + if o.Buffers? then {RuntimeBuffer} else if o.Files? then {RuntimeFile} else {}
  {
    hide TaggedAll, NodesOf;
    TaggedAllIs(m, Visited(p, colls), ConditionOf(p), TagsOf(p));
    NodesOfOne(colls[4]);
    forall v | v in m
      ensures m[v] * {Internal} == {} <==> Internal !in m[v]
      ensures m[v] * {Internal, Static} == {} <==> Internal !in m[v] && Static !in m[v]
    {
      LacksBoth(m[v]);
    }
  }

  lemma NodesOfOne(coll: seq<Node>)
    ensures forall v :: v in NodesOf([coll]) <==> v in coll
  {
    assert [coll][0] == coll;
  }

  lemma LacksBoth(ts: set<Tag>)
    ensures ts * {Internal} == {} <==> Internal !in ts
    ensures ts * {Internal, Static} == {} <==> Internal !in ts && Static !in ts
  {
    assert Internal in ts ==> Internal in ts * {Internal} && Internal in ts * {Internal, Static};
    assert Static in ts ==> Static in ts * {Internal, Static};
  }

  // ---------- a full scan ----------

  datatype State = State(colls: seq<seq<Node>>, tags: Tags) {
    ghost predicate Valid() {
      |colls| == 6 && Covers(tags) && NodesOf(colls) <= tags.Keys
    }
  }

  /** Between the passes new nodes arrive with any tags, and nodes get any further tags. */
  datatype Event = Arrive(colls: seq<seq<Node>>, tags: Tags) | Touch(node: Node, tags_: set<Tag>) | Do(pass: Pass)

  ghost predicate MayStep(s: State, e: Event) {
    && s.Valid()
    && match e
       case Arrive(colls, tags) =>
         && |colls| == 6 && Covers(tags + s.tags) && NodesOf(colls) <= tags.Keys + s.tags.Keys
         && tags.Keys !! s.tags.Keys
       case Touch(v, _) => v in s.tags
       case Do(_) => true
  }

  ghost function Step(s: State, e: Event): State
    requires MayStep(s, e)
  {
    match e
    case Arrive(colls, tags) =>
      State(seq(6, i requires 0 <= i < 6 => s.colls[i] + colls[i]), tags + s.tags)
    case Touch(v, ts) => s.(tags := s.tags[v := s.tags[v] + ts])
    case Do(p) => s.(tags := TaggedAll(s.tags, Visited(p, s.colls), ConditionOf(p), TagsOf(p)))
  }

  ghost predicate Has(m: Tags, v: Node, t: Tag) {
    v in m && t in m[v]
  }

  /** The event, which is no pass, gives the node the tag. */
  ghost predicate Brings(e: Event, v: Node, t: Tag) {
    match e
    case Arrive(_, tags) => Has(tags, v, t)
    case Touch(w, ts) => w == v && t in ts
    case Do(_) => false
  }

  ghost predicate Brought(es: seq<Event>, v: Node, t: Tag) {
    exists e :: e in es && Brings(e, v, t)
  }

  /** The node has the tag at the start, or from an event that is no pass. */
  ghost predicate Given(m: Tags, es: seq<Event>, v: Node, t: Tag) {
    Has(m, v, t) || Brought(es, v, t)
  }

  /** Neither internal nor static. */
  ghost predicate Loose(m: Tags, v: Node) {
    v in m && Internal !in m[v] && Static !in m[v]
  }

  ghost predicate Gives(s: State, p: Pass, v: Node, t: Tag)
    requires |s.colls| == 6
  {
    match p
    case StaticPass => t == Static && v in NodesOf(s.colls) && !Has(s.tags, v, Internal)
    case StringPass => t == Static && v in s.colls[4] && exists u :: u in v.src && Has(s.tags, u, Internal)
    case MixedPass => (t == Mixed || t == Static) && v in NodesOf(s.colls) && Loose(s.tags, v)
    case DynamicPass(o) =>
      && (t == Dynamic || (t == RuntimeBuffer && o.Buffers?) || (t == RuntimeFile && o.Files?))
      && v in NodesOf(s.colls) && Loose(s.tags, v)
  }

  lemma NodesArrive(a: seq<seq<Node>>, b: seq<seq<Node>>)
    requires |a| == |b| == 6
    ensures NodesOf(seq(6, i requires 0 <= i < 6 => a[i] + b[i])) == NodesOf(a) + NodesOf(b)
  {
    var c := seq(6, i requires 0 <= i < 6 => a[i] + b[i]);
    assert forall i, v :: 0 <= i < 6 ==> (v in c[i] <==> v in a[i] || v in b[i]);
  }

  /** A pass keeps the collections, and gives what it gives. */
  lemma PassGives(s: State, p: Pass)
    requires s.Valid()
    ensures Step(s, Do(p)).Valid() && Step(s, Do(p)).colls == s.colls && Step(s, Do(p)).tags.Keys == s.tags.Keys
    ensures forall v, t :: Has(Step(s, Do(p)).tags, v, t) <==> Has(s.tags, v, t) || Gives(s, p, v, t)
  {
    hide TaggedAll, NodesOf, Visited, ConditionOf, TagsOf;
    PassTags(s.tags, s.colls, p);
    assert p.StringPass? ==> forall v :: v in s.colls[4] ==> v in s.tags by {
      assert forall v :: v in s.colls[4] ==> v in NodesOf(s.colls) by { InNodes(s.colls); }
    }
  }

  lemma InNodes(colls: seq<seq<Node>>)
    ensures forall k, v :: 0 <= k < |colls| && v in colls[k] ==> v in NodesOf(colls)
  {
  }

  /** What a step adds to the tags; nodes and collections only grow. */
  lemma StepHas(s: State, e: Event)
    requires MayStep(s, e)
    ensures Step(s, e).Valid() && s.tags.Keys <= Step(s, e).tags.Keys && NodesOf(s.colls) <= NodesOf(Step(s, e).colls)
    ensures forall v, t :: Has(Step(s, e).tags, v, t) <==>
      Has(s.tags, v, t) || Brings(e, v, t) || (e.Do? && Gives(s, e.pass, v, t))
  {
    hide NodesOf, TaggedAll, Gives;
    match e
    case Arrive(colls, tags) => NodesArrive(s.colls, colls);
    case Touch(_, _) =>
    case Do(p) => PassGives(s, p);
  }

  ghost predicate MayRun(s: State, es: seq<Event>)
    decreases |es|
  {
    es == [] || (MayStep(s, es[0]) && MayRun(Step(s, es[0]), es[1..]))
  }

  ghost function Run(s: State, es: seq<Event>): State
    requires MayRun(s, es)
    decreases |es|
  {
    if es == [] then s else Run(Step(s, es[0]), es[1..])
  }

  /** What may happen between two passes; late in a scan, data captured at run time is tagged as it comes. */
  predicate Between(e: Event, late: bool) {
    e.Do? ==> late && e.pass.DynamicPass?
  }

  lemma BroughtNext(es: seq<Event>)
    requires es != []
    ensures forall v, t :: Brought(es, v, t) <==> Brings(es[0], v, t) || Brought(es[1..], v, t)
  {
    assert forall e :: e in es <==> e == es[0] || e in es[1..];
  }

  lemma BroughtBoth(a: seq<Event>, b: seq<Event>)
    ensures forall v, t :: Brought(a + b, v, t) <==> Brought(a, v, t) || Brought(b, v, t)
  {
    assert forall e :: e in a + b <==> e in a || e in b;
  }

  /** The tags that the events give stay; what a node has beside them is the tags of the dynamic pass,
      given to a stored node that was neither internal nor static at first. */
  lemma {:induction false} RunHas(s: State, es: seq<Event>, late: bool)
    requires s.Valid() && MayRun(s, es) && forall e :: e in es ==> Between(e, late)
    ensures var r := Run(s, es);
      && r.Valid() && s.tags.Keys <= r.tags.Keys && NodesOf(s.colls) <= NodesOf(r.colls)
      && forall v, t ::
        && (Given(s.tags, es, v, t) ==> Has(r.tags, v, t))
        && (Has(r.tags, v, t) ==>
             || Given(s.tags, es, v, t)
             || (late && (t == Dynamic || t == RuntimeBuffer || t == RuntimeFile)
                  && v in NodesOf(r.colls) && !Has(s.tags, v, Internal) && !Has(s.tags, v, Static)))
    decreases |es|
  {
    if es != [] {
      hide NodesOf, Brings, Brought, Step, MayStep, Covers;
      var e, next := es[0], Step(s, es[0]);
      assert e in es && Between(e, late);
      StepHas(s, e);
      RunHas(next, es[1..], late);
      BroughtNext(es);
    } else {
      assert forall v, t :: !Brought(es, v, t);
    }
  }

  /** After a pass no visited node meets a condition that the pass ends. */
  lemma PassSettles(s: State, p: Pass)
    requires s.Valid()
    ensures forall v :: v in NodesOf(Visited(p, s.colls)) ==>
      var ts := Step(s, Do(p)).tags[v];
      match p
      case StaticPass => Internal in ts || Static in ts
      case StringPass => (exists u :: u in v.src && Internal in s.tags[u]) ==> Static in ts
      case MixedPass => Internal in ts || Static in ts
      case DynamicPass(_) => Internal in ts || Static in ts || Dynamic in ts
  {
    TaggedAllIs(s.tags, Visited(p, s.colls), ConditionOf(p), TagsOf(p));
  }

  /** The passes of a full scan, from the first one on; `mid` and `late` happen between them. */
  ghost predicate MayScan(s: State, mid: seq<Event>, late: seq<Event>) {
    && s.Valid()
    && var a := Step(s, Do(StaticPass));
    && a.Valid() && var b := Step(a, Do(StringPass));
    && MayRun(b, mid) && (forall e :: e in mid ==> Between(e, false)) && Run(b, mid).Valid()
    && var c := Step(Run(b, mid), Do(MixedPass));
    && MayRun(c, late) && (forall e :: e in late ==> Between(e, true)) && Run(c, late).Valid()
  }

  ghost function BeforeMixed(s: State, mid: seq<Event>): State
    requires s.Valid() && Step(s, Do(StaticPass)).Valid() && MayRun(Step(Step(s, Do(StaticPass)), Do(StringPass)), mid)
  {
    Run(Step(Step(s, Do(StaticPass)), Do(StringPass)), mid)
  }

  ghost function BeforeLast(s: State, mid: seq<Event>, late: seq<Event>): State
    requires MayScan(s, mid, late)
  {
    Run(Step(BeforeMixed(s, mid), Do(MixedPass)), late)
  }

  ghost function Scanned(s: State, mid: seq<Event>, late: seq<Event>): State
    requires MayScan(s, mid, late)
  {
    Step(BeforeLast(s, mid, late), Do(DynamicPass(Hooks)))
  }

  /** After the first two passes and what follows them a node has the tags that it was given, and the
      static tag if it was stored at the start and not internal, or is a string that an internal node uses. */
  lemma FirstHalf(s: State, mid: seq<Event>)
    requires s.Valid() && Step(s, Do(StaticPass)).Valid()
    requires MayRun(Step(Step(s, Do(StaticPass)), Do(StringPass)), mid) && forall e :: e in mid ==> Between(e, false)
    ensures var m := BeforeMixed(s, mid);
      && m.Valid() && NodesOf(s.colls) <= NodesOf(m.colls)
      && forall v, t :: Has(m.tags, v, t) <==> Given(s.tags, mid, v, t) || (t == Static && StaticAtFirst(s, v))
  {
    hide NodesOf, Run, MayRun, Step, Brought, Covers;
    var a := Step(s, Do(StaticPass));
    PassGives(s, StaticPass);
    PassGives(a, StringPass);
    RunHas(Step(a, Do(StringPass)), mid, false);
  }

  /** The node is made static by the first two passes. */
  ghost predicate StaticAtFirst(s: State, v: Node)
    requires |s.colls| == 6
  {
    || (v in NodesOf(s.colls) && !Has(s.tags, v, Internal))
    || (v in s.colls[4] && exists u :: u in v.src && Has(s.tags, u, Internal))
  }

  /** From the mixed pass on: beside the tags that a node has or is given, the stored nodes that are neither
      internal nor static get the mixed and the static tag, and only nodes that come later can get tags
      of the dynamic passes. */
  lemma SecondHalf(m: State, late: seq<Event>)
    requires m.Valid() && MayRun(Step(m, Do(MixedPass)), late) && forall e :: e in late ==> Between(e, true)
    ensures var l := Run(Step(m, Do(MixedPass)), late);
      && l.Valid() && var r := Step(l, Do(DynamicPass(Hooks)));
      && r.Valid() && r.colls == l.colls && NodesOf(m.colls) <= NodesOf(r.colls)
      && (forall v, t :: Has(r.tags, v, t) ==>
           || Given(m.tags, late, v, t)
           || ((t == Mixed || t == Static) && v in NodesOf(m.colls) && Loose(m.tags, v))
           || ((t == Dynamic || t == RuntimeBuffer || t == RuntimeFile)
                && v in NodesOf(r.colls) && v !in NodesOf(m.colls)
                && !Has(m.tags, v, Internal) && !Has(m.tags, v, Static)))
      && (forall v, t :: Given(m.tags, late, v, t) ==> Has(r.tags, v, t))
      && (forall v :: v in NodesOf(m.colls) && Loose(m.tags, v) ==> Has(r.tags, v, Mixed) && Has(r.tags, v, Static))
      && (forall v :: v in NodesOf(l.colls) && Loose(l.tags, v) ==> Has(r.tags, v, Dynamic))
  {
    hide NodesOf, Run, MayRun, Step, Brought, Covers;
    var c := Step(m, Do(MixedPass));
    PassGives(m, MixedPass);
    RunHas(c, late, true);
    var l := Run(c, late);
    PassGives(l, DynamicPass(Hooks));
    assert forall v :: v in NodesOf(m.colls) ==> Given(c.tags, late, v, Internal) || Given(c.tags, late, v, Static);
    assert forall v :: v in NodesOf(m.colls) && Loose(m.tags, v) ==>
      Given(c.tags, late, v, Mixed) && Given(c.tags, late, v, Static);
    assert forall v, t :: Given(m.tags, late, v, t) ==> Given(c.tags, late, v, t);
    forall v, t | Has(m.tags, v, t)
      ensures Has(l.tags, v, t)
    {
      assert Given(m.tags, late, v, t);
    }
    assert forall v :: v in NodesOf(m.colls) ==> Has(l.tags, v, Internal) || Has(l.tags, v, Static);
    assert forall v, t :: Has(l.tags, v, t) ==>
      || Given(m.tags, late, v, t)
      || ((t == Mixed || t == Static) && v in NodesOf(m.colls) && Loose(m.tags, v))
      || ((t == Dynamic || t == RuntimeBuffer || t == RuntimeFile)
           && v !in NodesOf(m.colls) && !Has(m.tags, v, Internal) && !Has(m.tags, v, Static));
    assert forall v :: v in NodesOf(l.colls) && Loose(l.tags, v) ==> Gives(l, DynamicPass(Hooks), v, Dynamic);
    var r := Step(l, Do(DynamicPass(Hooks)));
    assert r.Valid() && forall v, t :: Has(l.tags, v, t) ==> Has(r.tags, v, t);
  }

  /** After a full scan every stored node is internal, static or dynamic. A node is mixed exactly if somebody
      else made it so, or it was stored before the mixed pass and neither internal nor static then; and
      static exactly if somebody else made it so, or one of the first three passes. Only nodes that came after
      the mixed pass can have a tag of the dynamic ones. So no node has both the mixed and the dynamic tag
      unless somebody else gave it one of them, and no node of the start is made mixed or dynamic. A node
      that is internal from the start gets no tag but the static one, as a string that an internal node
      uses. All other tags, the internal one among them, come from others. */
  lemma FullScan(s: State, mid: seq<Event>, late: seq<Event>)
    requires MayScan(s, mid, late)
    ensures var m, l, r := BeforeMixed(s, mid), BeforeLast(s, mid, late), Scanned(s, mid, late);
      && m.Valid() && l.Valid() && r.Valid() && NodesOf(s.colls) <= NodesOf(m.colls) <= NodesOf(r.colls)
      && (forall v :: v in NodesOf(r.colls) ==>
           Has(r.tags, v, Internal) || Has(r.tags, v, Static) || Has(r.tags, v, Dynamic))
      && (forall v :: Has(r.tags, v, Mixed) <==>
           || Given(s.tags, mid + late, v, Mixed)
           || (v in NodesOf(m.colls) && !Has(m.tags, v, Internal) && !Has(m.tags, v, Static)))
      && (forall v :: Has(r.tags, v, Static) <==>
           || Given(s.tags, mid + late, v, Static)
           || (v in NodesOf(s.colls) && !Has(s.tags, v, Internal))
           || (v in s.colls[4] && exists u :: u in v.src && Has(s.tags, u, Internal))
           || (v in NodesOf(m.colls) && !Has(m.tags, v, Internal) && !Has(m.tags, v, Static)))
      && (forall v, t :: t in {Dynamic, RuntimeBuffer, RuntimeFile} && Has(r.tags, v, t) ==>
           || Given(s.tags, mid + late, v, t)
           || (v in NodesOf(r.colls) && v !in NodesOf(m.colls)
                && !Has(m.tags, v, Internal) && !Has(m.tags, v, Static)))
      && (forall v :: v in NodesOf(r.colls) && !Has(l.tags, v, Internal) && !Has(l.tags, v, Static) ==>
           Has(r.tags, v, Dynamic))
      && (forall v :: Has(r.tags, v, Mixed) && Has(r.tags, v, Dynamic) ==>
           Given(s.tags, mid + late, v, Mixed) || Given(s.tags, mid + late, v, Dynamic))
      && (forall v, t :: v in NodesOf(s.colls) && t in {Mixed, Dynamic} && Has(r.tags, v, t) ==>
           Given(s.tags, mid + late, v, t))
      && (forall v, t :: Has(s.tags, v, Internal) && Has(r.tags, v, t) ==>
           || Given(s.tags, mid + late, v, t)
           || (t == Static && v in s.colls[4] && exists u :: u in v.src && Has(s.tags, u, Internal)))
      && (forall v, t :: t !in {Static, Mixed, Dynamic, RuntimeBuffer, RuntimeFile} ==>
           (Has(r.tags, v, t) <==> Given(s.tags, mid + late, v, t)))
  {
    hide NodesOf, Run, MayRun, Step, Brought, Covers;
    FirstHalf(s, mid);
    SecondHalf(BeforeMixed(s, mid), late);
    BroughtBoth(mid, late);
    LastSettles(BeforeLast(s, mid, late));
  }

  lemma LastSettles(l: State)
    requires l.Valid()
    ensures var r := Step(l, Do(DynamicPass(Hooks)));
      forall v :: v in NodesOf(l.colls) ==>
        Has(r.tags, v, Internal) || Has(r.tags, v, Static) || Has(r.tags, v, Dynamic)
  {
    PassSettles(l, DynamicPass(Hooks));
  }

  // ---------- the program ----------

  class NodeStore {
    var colls: seq<seq<Node>>
    ghost var nodes: set<Node>

    ghost predicate Valid()
      reads this
    {
      |colls| == 6 && NodesOf(colls) <= nodes && forall v, u :: v in nodes && u in v.src ==> u in nodes
    }

    ghost function View(): (m: Tags)
      reads this, nodes
    {
      map v | v in nodes :: v.tags
    }

    predicate Check(c: Condition, v: Node)
      reads v, v.src
    {
      match c
      case Lacks(ts) => v.tags * ts == {}
      case UsedBy(t) => exists u :: u in v.src && t in u.tags
    }

    method AddTags(v: Node, tags: seq<Tag>)
      modifies v
      ensures v.tags == old(v.tags) + TagSet(tags)
    {
      for i := 0 to |tags|
        invariant v.tags == old(v.tags) + TagSet(tags[..i])
      {
        v.AddTag(tags[i]);
        assert tags[..i + 1] == tags[..i] + [tags[i]];
      }
      assert tags[..|tags|] == tags;
    }

    method Visit(v: Node, c: Condition, tags: seq<Tag>) returns (met: bool)
      requires Valid() && v in nodes
      modifies v
      ensures Covers(old(View())) && met == Meets(c, old(View()), v)
      ensures View() == old(View()[v := v.tags + if Meets(c, View(), v) then TagSet(tags) else {}])
    {
      ghost var m := View();
      met := Check(c, v);
      assert met <==> Meets(c, m, v);
      if met {
        if |tags| == 1 {
          v.AddTag(tags[0]);
          assert tags == [tags[0]] && TagSet(tags) == {tags[0]};
        } else {
          AddTags(v, tags);
        }
      } else {
        assert v.tags + {} == v.tags;
      }
      assert View() == m[v := v.tags];
    }

    /** Tags the nodes of one collection that meet the condition, and counts them. */
    method TagIf(k: nat, c: Condition, tags: seq<Tag>) returns (ctr: nat)
      requires Valid() && k < 6 && Stable(c, TagSet(tags))
      modifies nodes
      ensures Covers(old(View())) && View() == Tagged(old(View()), colls[k], c, TagSet(tags))
      ensures (forall v :: v in colls[k] ==> v in nodes) && ctr == Visits(old(View()), colls[k], c, TagSet(tags))
    {
      ghost var m, add := View(), TagSet(tags);
      var coll := colls[k];
      assert forall v :: v in coll ==> v in NodesOf(colls);
      ctr := 0;
      TaggedNone(m, c, add);
      assert coll[..0] == [];
      hide Tagged, Visits, NodesOf, Meets;
      for i := 0 to |coll|
        invariant View() == Tagged(m, coll[..i], c, add) && ctr == Visits(m, coll[..i], c, add)
      {
        var v := coll[i];
        assert coll[..i + 1] == coll[..i] + [v];
        TaggedNext(m, coll[..i], v, c, add);
        VisitsNext(m, coll[..i], v, c, add);
        var met := Visit(v, c, tags);
        if met {
          ctr := ctr + 1;
        }
      }
      assert coll[..|coll|] == coll;
    }

    /** Tags the nodes of all collections that meet the condition, with one count for each. */
    method TagAllIf(c: Condition, tags: seq<Tag>) returns (stats: seq<nat>)
      requires Valid() && Stable(c, TagSet(tags))
      modifies nodes
      ensures Covers(old(View())) && Holds(colls, old(View()))
      ensures View() == TaggedAll(old(View()), colls, c, TagSet(tags))
      ensures stats == Counts(old(View()), colls, c, TagSet(tags))
    {
      hide Counts, Visits, TaggedAll, Tagged, NodesOf, Stable, Holds;
      ghost var m, add := View(), TagSet(tags);
      stats := [];
      AllHold();
      NoCounts(m, c, add);
      assert colls[..0] == [];
      for k := 0 to 6
        invariant Holds(colls[..k], m) && View() == TaggedAll(m, colls[..k], c, add)
        invariant stats == Counts(m, colls[..k], c, add)
      {
        CountsNext(m, colls, k, c, add);
        var n := TagIf(k, c, tags);
        stats := stats + [n];
      }
      assert colls[..6] == colls;
    }

    lemma AllHold()
      requires Valid()
      ensures Holds(colls, View())
    {
      forall k, v | 0 <= k < |colls| && v in colls[k]
        ensures v in View()
      {
        assert v in NodesOf(colls);
      }
    }

    /** One of the passes of a full scan, and which nodes get which tags. */
    method DoPass(p: Pass)
      requires Valid()
      modifies nodes
      ensures Covers(old(View())) && View() == TaggedAll(old(View()), Visited(p, colls), ConditionOf(p), TagsOf(p))
      ensures forall v :: v in nodes ==>
        match p
        case StaticPass =>
          v.tags == old(v.tags) + if v in NodesOf(colls) && Internal !in old(v.tags) then {Static} else {}
        case StringPass =>
          v.tags == old(v.tags) +
            if v in colls[4] && exists u :: u in v.src && Internal in old(u.tags) then {Static} else {}
        case MixedPass =>
          v.tags == old(v.tags) +
            if v in NodesOf(colls) && Internal !in old(v.tags) && Static !in old(v.tags) then {Mixed, Static} else {}
        case DynamicPass(o) =>
          v.tags == old(v.tags) +
            if v !in NodesOf(colls) || Internal in old(v.tags) || Static in old(v.tags) then {}
            else {Dynamic} + if o.Buffers? then {RuntimeBuffer} else if o.Files? then {RuntimeFile} else {}
    {
      RunPass(p);
      hide TaggedAll, NodesOf, Visited, ConditionOf, TagsOf, Covers;
      PassTags(old(View()), colls, p);
      forall v | v in nodes
        ensures v.tags == View()[v] && old(v.tags) == old(View())[v]
      {
      }
    }

    method RunPass(p: Pass)
      requires Valid()
      modifies nodes
      ensures Covers(old(View())) && View() == TaggedAll(old(View()), Visited(p, colls), ConditionOf(p), TagsOf(p))
    {
      match p
      case StaticPass =>
        var _ := TagAllIf(Lacks({Internal}), [Static]);
        assert TagSet([Static]) == {Static};
      case StringPass =>
        ghost var m := View();
        assert TagSet([Static]) == {Static};
        var _ := TagIf(STRINGS, UsedBy(Internal), [Static]);
        TaggedOne(m, colls[STRINGS], UsedBy(Internal), {Static});
      case MixedPass =>
        var _ := TagAllIf(Lacks({Internal, Static}), [Mixed, Static]);
        assert TagSet([Mixed, Static]) == {Mixed, Static};
      case DynamicPass(Buffers) =>
        var _ := TagAllIf(Lacks({Internal, Static}), [Dynamic, RuntimeBuffer]);
        assert TagSet([Dynamic, RuntimeBuffer]) == {Dynamic, RuntimeBuffer};
      case DynamicPass(Files) =>
        var _ := TagAllIf(Lacks({Internal, Static}), [Dynamic, RuntimeFile]);
        assert TagSet([Dynamic, RuntimeFile]) == {Dynamic, RuntimeFile};
      case DynamicPass(Hooks) =>
        var _ := TagAllIf(Lacks({Internal, Static}), [Dynamic]);
        assert TagSet([Dynamic]) == {Dynamic};
    }
  }

  ghost predicate Holds(colls: seq<seq<Node>>, m: Tags) {
    forall k, v :: 0 <= k < |colls| && v in colls[k] ==> v in m
  }

  /** The counts of a pass over several collections. */
  ghost function Counts(m: Tags, colls: seq<seq<Node>>, c: Condition, add: set<Tag>): seq<nat>
    requires Covers(m) && Holds(colls, m)
  {
    if colls == [] then [] else
      var init := colls[..|colls| - 1];
      Counts(m, init, c, add) + [Visits(TaggedAll(m, init, c, add), colls[|colls| - 1], c, add)]
  }

  lemma NoCounts(m: Tags, c: Condition, add: set<Tag>)
    requires Covers(m)
    ensures Holds([], m) && TaggedAll(m, [], c, add) == m && Counts(m, [], c, add) == []
  {
  }

  lemma CountsNext(m: Tags, colls: seq<seq<Node>>, k: nat, c: Condition, add: set<Tag>)
    requires Covers(m) && k < |colls| && Holds(colls, m)
    ensures var r := TaggedAll(m, colls[..k], c, add);
      && Holds(colls[..k], m) && Holds(colls[..k + 1], m) && (forall v :: v in colls[k] ==> v in r)
      && TaggedAll(m, colls[..k + 1], c, add) == Tagged(r, colls[k], c, add)
      && Counts(m, colls[..k + 1], c, add) == Counts(m, colls[..k], c, add) + [Visits(r, colls[k], c, add)]
  {
    assert colls[..k + 1][..k] == colls[..k];
  }

  /** Which nodes meet the condition when the first collections have been visited. */
  lemma MeetsAfterOthers(m: Tags, init: seq<seq<Node>>, v: Node, c: Condition, add: set<Tag>)
    requires Covers(m) && Stable(c, add) && v in m
    ensures Meets(c, TaggedAll(m, init, c, add), v) <==> Meets(c, m, v) && !(Ends(c, add) && v in NodesOf(init))
  {
    hide TaggedAll, NodesOf;
    TaggedAllIs(m, init, c, add);
    var r := TaggedAll(m, init, c, add);
    if Ends(c, add) {
      var t :| t in c.tags * add;
      assert v in NodesOf(init) && Meets(c, m, v) ==> t in r[v] * c.tags;
    } else if c.Lacks? {
      assert c.tags * add == {};
      assert r[v] * c.tags == m[v] * c.tags;
    }
  }

  /** No node of collection `k` that meets the condition is in an earlier collection. */
  ghost predicate NoneBefore(m: Tags, colls: seq<seq<Node>>, c: Condition, k: nat)
    requires Covers(m) && Holds(colls, m) && k < |colls|
  {
    forall v :: v in Meeting(m, colls[k], c) ==> v !in NodesOf(colls[..k])
  }

  lemma SmallerIff<T>(a: set<T>, b: set<T>)
    requires a <= b
    ensures |a| <= |b| && (|a| == |b| <==> a == b)
  {
    assert |b - a| == |b| - |a|;
    assert a == b <==> b - a == {};
  }

  /** The count of collection `k` is the number of its nodes that met the condition at the start
      exactly if, where the tags end the condition, none of these is in an earlier collection, and
      elsewhere, none of them is stored twice in the collection. */
  lemma CountsAreMeeting(m: Tags, colls: seq<seq<Node>>, c: Condition, add: set<Tag>, k: nat)
    requires Covers(m) && Holds(colls, m) && Stable(c, add) && k < |colls|
    ensures |Counts(m, colls, c, add)| == |colls|
    ensures Counts(m, colls, c, add)[k] == |Meeting(m, colls[k], c)| <==>
      if Ends(c, add) then NoneBefore(m, colls, c, k)
      else (forall v :: v in colls[k] ==> v in m) && MeetOnce(m, colls[k], c)
  {
    CountAt(m, colls, c, add, k);
    hide Counts, Visits, Covers, Stable, Holds, TaggedAll, NodesOf, Meets, Ends;
    var r := TaggedAll(m, colls[..k], c, add);
    forall v | v in colls[k]
      ensures v in m && (Meets(c, r, v) <==> Meets(c, m, v) && !(Ends(c, add) && v in NodesOf(colls[..k])))
    {
      MeetsAfterOthers(m, colls[..k], v, c, add);
    }
    CountIsMeeting(r, colls[k], c, add);
    SmallerIff(Meeting(r, colls[k], c), Meeting(m, colls[k], c));
    assert Meeting(r, colls[k], c) == Meeting(m, colls[k], c) <==>
      forall v :: v in Meeting(m, colls[k], c) ==> v in Meeting(r, colls[k], c);
  }

  lemma {:induction false} CountsLength(m: Tags, colls: seq<seq<Node>>, c: Condition, add: set<Tag>)
    requires Covers(m) && Holds(colls, m)
    ensures |Counts(m, colls, c, add)| == |colls|
  {
    if colls != [] {
      CountsLength(m, colls[..|colls| - 1], c, add);
    }
  }

  lemma {:induction false} CountAt(m: Tags, colls: seq<seq<Node>>, c: Condition, add: set<Tag>, k: nat)
    requires Covers(m) && Holds(colls, m) && k < |colls|
    ensures |Counts(m, colls, c, add)| == |colls| && forall v :: v in colls[k] ==> v in m
    ensures Counts(m, colls, c, add)[k] == Visits(TaggedAll(m, colls[..k], c, add), colls[k], c, add)
  {
    hide TaggedAll, Visits, Covers;
    var n := |colls| - 1;
    CountsLength(m, colls[..n], c, add);
    if k < n {
      assert colls[..n][k] == colls[k] && colls[..n][..k] == colls[..k];
      CountAt(m, colls[..n], c, add, k);
    }
  }

  lemma TaggedOne(m: Tags, coll: seq<Node>, c: Condition, add: set<Tag>)
    requires Covers(m)
    ensures TaggedAll(m, [coll], c, add) == Tagged(m, coll, c, add)
  {
    assert [coll][..0] == [];
  }

  lemma TaggedNone(m: Tags, c: Condition, add: set<Tag>)
    requires Covers(m)
    ensures Tagged(m, [], c, add) == m && Visits(m, [], c, add) == 0
  {
    assert forall v :: v in m ==> m[v] + {} == m[v];
  }

  lemma VisitsNext(m: Tags, coll: seq<Node>, v: Node, c: Condition, add: set<Tag>)
    requires Covers(m) && v in m && forall w :: w in coll ==> w in m
    ensures Visits(m, coll + [v], c, add) ==
      Visits(m, coll, c, add) + if Meets(c, Tagged(m, coll, c, add), v) then 1 else 0
  {
    assert (coll + [v])[..|coll|] == coll;
  }
}
