/** Third pass of the model builder: the list of ancestors of each class. */
module Hierarchy {
  import opened Model
  import opened Resolver

  /** The superclasses of class `n` found in the database, nearest first. */
  ghost function Ancestors(g: Graph, n: string): seq<ModelClass>
    requires g.Shaped() && n in g.classes
    decreases g.rank(n)
  {
    assert g.ClassShape(n);
    match g.classes[n].superClass
    case Resolved(s) => [s] + Ancestors(g, s.name)
    case _ => []
  }

  lemma AncestorStep(g: Graph, n: string)
    requires g.Shaped() && n in g.classes
    ensures g.classes[n].node.name == n
    ensures !g.classes[n].superClass.Resolved? ==> Ancestors(g, n) == []
    ensures g.classes[n].superClass.Resolved? ==>
      var s := g.classes[n].superClass.cls;
      && g.HasClass(s) && g.rank(s.name) < g.rank(n)
      && Ancestors(g, n) == [s] + Ancestors(g, s.name)
  {
    assert g.ClassShape(n);
  }

  /** The ancestors form one chain of `extends` links that starts at the class, stops only where
      there is no linked superclass, and visits no class twice. */
  lemma {:induction false} AncestorsChain(g: Graph, n: string)
    requires g.Shaped() && n in g.classes
    ensures forall i :: 0 <= i < |Ancestors(g, n)| ==>
      g.HasClass(Ancestors(g, n)[i]) && g.rank(Ancestors(g, n)[i].name) < g.rank(n)
    ensures var path := [g.classes[n].node] + Ancestors(g, n);
      && (forall i :: 0 <= i < |path| - 1 ==>
            path[i].name in g.classes && g.classes[path[i].name].superClass == Resolved(path[i + 1]))
      && path[|path| - 1].name in g.classes && !g.classes[path[|path| - 1].name].superClass.Resolved?
    ensures forall i, j :: 0 <= i < j < |Ancestors(g, n)| ==>
      g.rank(Ancestors(g, n)[j].name) < g.rank(Ancestors(g, n)[i].name)
    decreases g.rank(n)
  {
    hide Graph.Shaped, Graph.ClassShape, Ancestors;
    AncestorStep(g, n);
    match g.classes[n].superClass
    case Resolved(s) =>
      AncestorsChain(g, s.name);
      var path, rest := [g.classes[n].node] + Ancestors(g, n), [s] + Ancestors(g, s.name);
      assert path == [g.classes[n].node] + rest;
      assert forall i :: 0 < i < |path| ==> path[i] == rest[i - 1];
    case _ =>
  }

  /** The loop of the third pass. A superclass that is still a name is looked up by the reference
      object itself, which is no key of the collection, so the walk stops there. */
  method CollectSupers(db: AnalyzerDatabase, v: ModelClass)
    requires db.View().Shaped()
    requires db.View().HasClass(v) || !v.superClass.Resolved?
    modifies v`supers
    ensures v.superClass.NoSuper? ==> v.supers == old(v.supers)
    ensures v.superClass.Unresolved? ==> v.supers == []
    ensures v.superClass.Resolved? ==> v.supers == old(Ancestors(db.View(), v.name))
  {
    if !v.superClass.NoSuper? {
      ghost var g := db.View();
      var n, supers, done := v, [], false;
      while !done
        invariant n == v || g.HasClass(n)
        invariant done ==> !n.superClass.Resolved?
        invariant
          if v.superClass.Resolved? then g.HasClass(n) && Ancestors(g, v.name) == supers + Ancestors(g, n.name)
          else n == v && supers == []
        decreases !done, g.rank(n.name)
      {
        assert g.HasClass(n) ==> g.ClassShape(n.name) && g.classes[n.name] == n.View();
        if n.superClass.Resolved? && n.superClass.cls.name in db.classes {
          var scr := db.classes[n.superClass.cls.name];
          supers := supers + [scr];
          n := scr;
        } else {
          done := true;
        }
      }
      v.supers := supers;
    }
  }
}
