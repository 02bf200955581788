/** The node graph shared by the static analyzers: classes, methods and fields that
    point at each other, and the collections that index them. */
module Model {

  datatype Option<+T> = None | Some(value: T)

  /** The canonical signature of a method: `fqcn.name(args)ret`. */
  datatype Sig = Sig(fqcn: string, name: string, descriptor: string)

  /** The property names under which a method is stored in a class or in the database.
      An inherited method is stored under the FQCN of the class that inherits it.
      `ObjectText` is the name a node turns into when it is itself used as a key. */
  datatype Key = Signature(sig: Sig) | ByFqcn(fqcn: string) | ObjectText

  const OBJECT_TEXT := "[object Object]"

  function Render(k: Key): string {
    match k
    case Signature(s) => s.fqcn + "." + s.name + s.descriptor
    case ByFqcn(f) => f
    case ObjectText => OBJECT_TEXT
  }

  predicate WellFormedKey(k: Key) {
    match k
    case Signature(s) => '(' !in s.fqcn && '(' !in s.name && '.' !in s.name && "(" <= s.descriptor
    case ByFqcn(f) => '(' !in f && '[' !in f
    case ObjectText => true
  }

  /** The brackets in a rendered key tell its kind. */
  lemma RenderKind(k: Key)
    requires WellFormedKey(k)
    ensures k.Signature? <==> '(' in Render(k)
    ensures k.ObjectText? ==> '[' in Render(k)
    ensures k.ByFqcn? ==> '[' !in Render(k)
  {
    match k
    case Signature(s) => assert Render(k)[|s.fqcn| + 1 + |s.name|] == s.descriptor[0];
    case ByFqcn(f) =>
    case ObjectText => assert OBJECT_TEXT[0] == '[';
  }

  /** Distinct keys are distinct property names: a signature is recovered by cutting
      its text at the first '(' and then at the last '.'. */
  lemma RenderInjective(a: Key, b: Key)
    requires WellFormedKey(a) && WellFormedKey(b) && Render(a) == Render(b)
    ensures a == b
  {
    RenderKind(a);
    RenderKind(b);
    if a.Signature? && b.Signature? {
      var (s, t) := (a.sig, b.sig);
      assert Render(a) == s.fqcn + "." + s.name + "(" + s.descriptor[1..];
      assert Render(b) == t.fqcn + "." + t.name + "(" + t.descriptor[1..];
      CutAt(s.fqcn + "." + s.name, s.descriptor[1..], t.fqcn + "." + t.name, t.descriptor[1..], '(');
      CutAtLast(s.fqcn, s.name, t.fqcn, t.name, '.');
    }
  }

  lemma CutAt(p: string, x: string, q: string, y: string, c: char)
    requires p + [c] + x == q + [c] + y && c !in p && c !in q
    ensures p == q && x == y
  {
    var s := p + [c] + x;
    assert s[|p|] == c && s[|q|] == c;
    assert forall i :: 0 <= i < |p| ==> s[i] == p[i];
    assert forall i :: 0 <= i < |q| ==> s[i] == q[i];
    assert |p| == |q|;
    assert p == s[..|p|] && q == s[..|q|];
    assert x == s[|p| + 1..] && y == s[|q| + 1..];
  }

  lemma CutAtLast(f: string, n: string, g: string, m: string, c: char)
    requires f + [c] + n == g + [c] + m && c !in n && c !in m
    ensures f == g && n == m
  {
    var s := f + [c] + n;
    assert s[|f|] == c && s[|g|] == c;
    assert forall i :: |f| < i < |s| ==> s[i] == n[i - |f| - 1];
    assert forall i :: |g| < i < |s| ==> s[i] == m[i - |g| - 1];
    assert |f| == |g|;
    assert f == s[..|f|] && g == s[..|g|];
    assert n == s[|f| + 1..] && m == s[|g| + 1..];
  }

  /** A JavaScript object used as a dictionary: keys in insertion order. */
  datatype Table<T> = Table(keys: seq<Key>, at: map<Key, T>) {
    ghost predicate Valid() {
      && (forall i, j :: 0 <= i < j < |keys| ==> keys[i] != keys[j])
      && (forall k :: k in keys <==> k in at)
    }

    function Put(k: Key, v: T): (t: Table<T>)
      requires Valid()
      ensures t.Valid() && t.at == at[k := v]
      ensures keys <= t.keys
    {
      Table(if k in at then keys else keys + [k], at[k := v])
    }
  }

  function EmptyTable<T>(): (t: Table<T>)
    ensures t.Valid()
  {
    Table([], map[])
  }

  class ModelField {
    const sig: Sig

    constructor (sig: Sig)
      ensures this.sig == sig
    {
      this.sig := sig;
    }
  }

  /** What an instruction refers to: a reference before resolution, a node after it. */
  datatype Right = Ref(sig: Sig) | Node(callee: ModelMethod)

  datatype Instr =
    | Nop
    | Invoke(opcode: string, special: bool, static_: bool, right: Right)
    | Other

  datatype Pos = Pos(bb: nat, instr: nat)

  class ModelMethod {
    const sig: Sig
    const missing: bool
    const isPrivate: bool
    const isStatic: bool
    var enclosing: ModelClass?
    var declaring: ModelClass?
    var instr: seq<seq<Instr>>
    var callers: seq<ModelMethod>
    var useMethod: map<Sig, seq<Pos>>
    var useMethodCtr: nat

    constructor (sig: Sig, missing: bool, isPrivate: bool, isStatic: bool, enclosing: ModelClass?,
        instr: seq<seq<Instr>>)
      ensures this.sig == sig && this.missing == missing && this.isPrivate == isPrivate && this.isStatic == isStatic
      ensures this.enclosing == enclosing && this.declaring == null && this.instr == instr
      ensures callers == [] && useMethod == map[] && useMethodCtr == 0
    {
      this.sig, this.missing, this.isPrivate, this.isStatic := sig, missing, isPrivate, isStatic;
      this.enclosing, this.declaring, this.instr := enclosing, null, instr;
      callers, useMethod, useMethodCtr := [], map[], 0;
    }

    /** A caller is recorded once per signature. */
    method AddCaller(m: ModelMethod)
      modifies this`callers
      ensures callers == WithCaller(old(callers), m)
    {
      var found := false;
      for i := 0 to |callers|
        invariant found <==> exists k :: 0 <= k < i && callers[k].sig == m.sig
      {
        if callers[i].sig == m.sig {
          found := true;
          break;
        }
      }
      if !found {
        callers := callers + [m];
      }
    }
  }

  ghost function WithCaller(callers: seq<ModelMethod>, m: ModelMethod): seq<ModelMethod> {
    if exists k :: 0 <= k < |callers| && callers[k].sig == m.sig then callers else callers + [m]
  }

  /** A superclass or an interface of a class: absent, named by the parser, or linked. */
  datatype Super = NoSuper | Unresolved(fqcn: string) | Resolved(cls: ModelClass) {
    function Name(): string
      requires !NoSuper?
    {
      if Unresolved? then fqcn else cls.name
    }
  }

  class ModelClass {
    const name: string
    const missing: bool
    var superClass: Super
    var interfaces: seq<Super>
    var methods: Table<ModelMethod>
    var inherit: map<Key, ModelMethod>
    var fields: Table<ModelField>
    var supers: seq<ModelClass>

    constructor (name: string, missing: bool)
      ensures this.name == name && this.missing == missing
      ensures superClass == NoSuper && interfaces == [] && supers == [] && inherit == map[]
      ensures methods == EmptyTable() && fields == EmptyTable()
    {
      this.name, this.missing := name, missing;
      superClass, interfaces, supers, inherit := NoSuper, [], [], map[];
      methods, fields := EmptyTable(), EmptyTable();
    }

    ghost function View(): ClassView
      reads this`superClass, this`interfaces, this`methods, this`inherit, this`fields
    {
      ClassView(this, superClass, interfaces, methods, inherit, fields)
    }

    /** Replaces the method of that signature by another version of it, unless they compare equal; fails
        if there is none. */
    method UpdateMethod(m: ModelMethod, identical: bool) returns (failed: bool)
      requires methods.Valid()
      modifies this`methods
      ensures failed <==> Signature(m.sig) !in old(methods.at)
      ensures methods == if failed || identical then old(methods) else old(methods).Put(Signature(m.sig), m)
    {
      failed := Signature(m.sig) !in methods.at;
      if !failed && !identical {
        methods := methods.Put(Signature(m.sig), m);
      }
    }

    method UpdateField(f: ModelField, identical: bool) returns (failed: bool)
      requires fields.Valid()
      modifies this`fields
      ensures failed <==> Signature(f.sig) !in old(fields.at)
      ensures fields == if failed || identical then old(fields) else old(fields).Put(Signature(f.sig), f)
    {
      failed := Signature(f.sig) !in fields.at;
      if !failed && !identical {
        fields := fields.Put(Signature(f.sig), f);
      }
    }

    /** A method declared by a parent becomes a member under this class's own FQCN. */
    method AddInheritedMethod(ref: Sig, m: ModelMethod)
      requires methods.Valid()
      modifies this`methods, this`inherit
      ensures methods == old(methods).Put(ByFqcn(ref.fqcn), m)
      ensures inherit == old(inherit)[ByFqcn(ref.fqcn) := m]
    {
      methods := methods.Put(ByFqcn(ref.fqcn), m);
      inherit := inherit[ByFqcn(ref.fqcn) := m];
    }
  }

  datatype MissingNode =
    | MissingClass(cls: ModelClass)
    | MissingMethod(meth: ModelMethod)
    | MissingField(field: ModelField)

  class AnalyzerDatabase {
    var classes: map<string, ModelClass>
    var methods: map<Key, ModelMethod>
    var fields: map<Key, ModelField>
    var missing: seq<MissingNode>
    var calls: set<(string, Sig, Sig)>
    /** The class hierarchy is acyclic: a class ranks above each class it extends. */
    ghost const rank: string -> nat

    constructor (ghost rank: string -> nat)
      ensures this.rank == rank
      ensures classes == map[] && methods == map[] && fields == map[] && missing == [] && calls == {}
    {
      this.rank := rank;
      classes, methods, fields, missing, calls := map[], map[], map[], [], {};
    }

    /** The graph as a value: what each class object currently holds, beside the indexes. */
    ghost function View(): Graph
      reads this`classes, this`methods, this`fields
      reads classes.Values`superClass, classes.Values`interfaces
      reads classes.Values`methods, classes.Values`inherit, classes.Values`fields
    {
      Graph(map n | n in classes :: classes[n].View(), methods, fields, rank)
    }
  }

  datatype ClassView = ClassView(
    node: ModelClass,
    superClass: Super,
    interfaces: seq<Super>,
    methods: Table<ModelMethod>,
    inherit: map<Key, ModelMethod>,
    fields: Table<ModelField>)

  /** A class that has been created and not filled. */
  ghost function EmptyView(c: ModelClass): ClassView {
    ClassView(c, NoSuper, [], EmptyTable(), map[], EmptyTable())
  }

  datatype Graph = Graph(
    classes: map<string, ClassView>,
    methods: map<Key, ModelMethod>,
    fields: map<Key, ModelField>,
    rank: string -> nat)
  {
    ghost predicate HasClass(c: ModelClass) {
      c.name in classes && classes[c.name].node == c
    }

    /** The database indexes this very node under its signature. */
    ghost predicate HasMethod(m: ModelMethod) {
      Signature(m.sig) in methods && methods[Signature(m.sig)] == m
    }

    ghost predicate HasField(f: ModelField) {
      Signature(f.sig) in fields && fields[Signature(f.sig)] == f
    }

    /** Some node is indexed under the method's signature, and it is the method itself
        unless it sits in an inherited slot and its signature belongs to `stale`, the methods
        replaced by an overriding class. An inherited slot holds what the index holds there. */
    ghost predicate Indexed(m: ModelMethod, k: Key, stale: set<Sig>) {
      && Signature(m.sig) in methods
      && (HasMethod(m) || (k.ByFqcn? && m.sig in stale))
      && (k.ByFqcn? ==> k in methods && methods[k] == m)
    }

    /** A node of the index that is current, or was replaced under its signature. */
    ghost predicate Listed(m: ModelMethod, stale: set<Sig>) {
      && m in methods.Values && Signature(m.sig) in methods
      && (HasMethod(m) || m.sig in stale)
    }

    ghost predicate ClassShape(n: string)
      requires n in classes
    {
      var c := classes[n];
      && c.node.name == n
      && c.methods.Valid() && c.fields.Valid()
      && (c.superClass.Resolved? ==> HasClass(c.superClass.cls) && rank(c.superClass.cls.name) < rank(n))
      && (forall k :: k in c.methods.at ==> k == Signature(c.methods.at[k].sig) || k == ByFqcn(n))
      && (forall k :: k in c.methods.at && k.Signature? ==> k.sig.fqcn == n)
      && (forall k :: k in c.fields.at ==> k == Signature(c.fields.at[k].sig) && k.sig.fqcn == n)
    }

    ghost predicate Shaped() {
      forall n :: n in classes ==> ClassShape(n)
    }

    ghost predicate MethodsIndexed(n: string, stale: set<Sig>)
      requires n in classes
    {
      var t := classes[n].methods.at;
      forall k :: k in t ==> Indexed(t[k], k, stale)
    }

    ghost predicate FieldsIndexed(n: string)
      requires n in classes
    {
      var t := classes[n].fields.at;
      forall k :: k in t ==> HasField(t[k])
    }

    ghost predicate MembersIndexed(n: string, stale: set<Sig>)
      requires n in classes
    {
      MethodsIndexed(n, stale) && FieldsIndexed(n)
    }

    /** An index entry stored under a signature is that member of its class. */
    ghost predicate MethodEntry(k: Key, stale: set<Sig>)
      requires k in methods
    {
      && !k.ObjectText? && Indexed(methods[k], k, stale)
      && (k.Signature? ==>
            && methods[k].sig == k.sig && k.sig.fqcn in classes
            && k in classes[k.sig.fqcn].methods.at && classes[k.sig.fqcn].methods.at[k] == methods[k])
    }

    ghost predicate MethodsCanonical(stale: set<Sig>) {
      forall k :: k in methods ==> MethodEntry(k, stale)
    }

    /** The indexes agree with the classes, except for the members of the `pending` classes,
        which a merge has stored but not yet assembled. */
    ghost predicate Consistent(pending: set<string>, stale: set<Sig>) {
      && Shaped()
      && (forall n :: n in classes && n !in pending ==> MembersIndexed(n, stale))
      && MethodsCanonical(stale)
    }

    ghost predicate Valid() {
      Consistent({}, {})
    }

    ghost function WithClass(c: ModelClass, v: ClassView): Graph {
      this.(classes := classes[c.name := v])
    }
  }
}
