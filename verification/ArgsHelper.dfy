/** Argument lists of a hooked method: the overload signature, the parameter names, the logged data. */
module ArgsHelper {
  import opened Text
  import opened Model

  /** An argument type; `Unknown` is a node that is neither basic nor object. */
  datatype Arg = Basic(name: string, arr: bool) | Object(name: string, arr: bool) | Unknown

  // ---------- the primitive words ----------

  function Words(): (ws: seq<(string, string)>)
    ensures |ws| == 10
  {
    [("C", "char"), ("J", "long"), ("D", "double"), ("B", "byte"), ("I", "int"),
     ("S", "short"), ("Z", "boolean"), ("V", "void"), ("L", "Object"), ("F", "float")]
  }

  predicate IsWord(name: string) {
    exists i :: 0 <= i < |Words()| && Words()[i].1 == name
  }

  function Letter(name: string): Option<string> {
    LetterFrom(name, 0)
  }

  function LetterFrom(name: string, i: nat): Option<string>
    decreases |Words()| - i
  {
    if i >= |Words()| then None
    else if Words()[i].1 == name then Some(Words()[i].0)
    else LetterFrom(name, i + 1)
  }

  /** Which word has which letter. */
  lemma LetterIs(name: string)
    ensures Letter(name) ==
      if name == "char" then Some("C") else if name == "long" then Some("J") else if name == "double" then Some("D")
      else if name == "byte" then Some("B") else if name == "int" then Some("I") else if name == "short" then Some("S")
      else if name == "boolean" then Some("Z") else if name == "void" then Some("V")
      else if name == "Object" then Some("L") else if name == "float" then Some("F") else None
  {
    LetterAt(name, 0);
    WordsAt();
  }

  lemma WordsAt()
    ensures Words()[0] == ("C", "char") && Words()[1] == ("J", "long") && Words()[2] == ("D", "double")
    ensures Words()[3] == ("B", "byte") && Words()[4] == ("I", "int") && Words()[5] == ("S", "short")
    ensures Words()[6] == ("Z", "boolean") && Words()[7] == ("V", "void") && Words()[8] == ("L", "Object")
    ensures Words()[9] == ("F", "float")
  {
  }

  method GetLetterFromType(name: string) returns (r: Option<string>)
    ensures r == Letter(name)
  {
    for i := 0 to |Words()|
      invariant Letter(name) == LetterFrom(name, i)
    {
      if Words()[i].1 == name {
        return Some(Words()[i].0);
      }
    }
    return None;
  }

  /** Free of the characters that structure an overload signature. */
  predicate Clean(s: string) {
    ',' !in s && '[' !in s
  }

  lemma WordsAre()
    ensures forall i :: 0 <= i < |Words()| ==> |Words()[i].0| == 1 && Clean(Words()[i].0) && Clean(Words()[i].1)
    ensures forall i, j :: 0 <= i < j < |Words()| ==> Words()[i].0 != Words()[j].0
  {
  }

  lemma {:induction false} LetterAt(name: string, i: nat)
    requires i <= |Words()|
    ensures LetterFrom(name, i).Some? <==> exists j :: i <= j < |Words()| && Words()[j].1 == name
    ensures LetterFrom(name, i).Some? ==>
      exists j :: i <= j < |Words()| && Words()[j] == (LetterFrom(name, i).value, name)
    decreases |Words()| - i
  {
    hide Words;
    if i < |Words()| {
      LetterAt(name, i + 1);
    }
  }

  lemma LetterOfWord(name: string)
    ensures IsWord(name) <==> Letter(name).Some?
    ensures IsWord(name) ==> |Letter(name).value| == 1 && Clean(Letter(name).value) && Clean(name)
  {
    hide Words, LetterFrom, Clean;
    WordsAre();
    LetterAt(name, 0);
  }

  /** A letter stands for one word. */
  lemma LetterInjective(a: string, b: string)
    requires Letter(a).Some? && Letter(a) == Letter(b)
    ensures a == b
  {
    hide Words, LetterFrom, Clean;
    WordsAre();
    LetterAt(a, 0);
    LetterAt(b, 0);
    var i :| 0 <= i < |Words()| && Words()[i] == (Letter(a).value, a);
    var j :| 0 <= j < |Words()| && Words()[j] == (Letter(a).value, b);
    assert i == j;
  }

  // ---------- decimal numbers ----------

  const DIGITS := "0123456789"

  function Decimal(n: nat): (s: string)
    ensures s != "" && forall c :: c in s ==> c in DIGITS
  {
    if n < 10 then [DIGITS[n]] else Decimal(n / 10) + [DIGITS[n % 10]]
  }

  lemma {:induction false} DecimalInjective(m: nat, n: nat)
    requires Decimal(m) == Decimal(n)
    ensures m == n
  {
    var s, t := Decimal(m), Decimal(n);
    assert s[|s| - 1] == DIGITS[m % 10] && t[|t| - 1] == DIGITS[n % 10];
    if m >= 10 && n >= 10 {
      assert s[..|s| - 1] == Decimal(m / 10) && t[..|t| - 1] == Decimal(n / 10);
      DecimalInjective(m / 10, n / 10);
    }
  }

  /** The number that a text of digits shows. */
  function Value(s: string): nat
    requires forall c :: c in s ==> c in DIGITS
  {
    if s == "" then 0 else
      var c := s[|s| - 1];
      assert c in s;
      10 * Value(s[..|s| - 1]) + (c as int - '0' as int)
  }

  lemma {:induction false} DecimalShows(n: nat)
    ensures Value(Decimal(n)) == n && (n > 0 ==> Decimal(n)[0] != '0')
  {
    if n < 10 {
      assert Decimal(n)[..0] == "" && DIGITS[n] as int == '0' as int + n;
    } else {
      DecimalShows(n / 10);
      var s := Decimal(n);
      assert s[..|s| - 1] == Decimal(n / 10) && DIGITS[n % 10] as int == '0' as int + n % 10;
    }
  }

  function ArgName(i: nat): string {
    "arg" + Decimal(i)
  }

  // ---------- what the helper lists ----------

  /** The type as the `overload` method of the instrumentation engine expects it. */
  function CallItem(a: Arg): (s: string)
    requires !a.Unknown?
    ensures |s| >= 2
  {
    "'" + TypeText(a) + "'"
  }

  function TypeText(a: Arg): string
    requires !a.Unknown?
  {
    if !a.arr then a.name
    else if a.Basic? then "[" + Or(Letter(a.name), "null")
    else "[L" + a.name + ";"
  }

  function Or(o: Option<string>, alt: string): string {
    if o.Some? then o.value else alt
  }

  /** Every basic value is logged; of the objects only texts are. */
  predicate Logged(a: Arg) {
    a.Basic? || (a.Object? && (a.name == "java.lang.String" || a.name == "java.lang.CharSequence"))
  }

  function CallItems(args: seq<Arg>): seq<string> {
    if args == [] then [] else
      var a := args[|args| - 1];
      CallItems(args[..|args| - 1]) + if a.Unknown? then [] else [CallItem(a)]
  }

  function HookItems(args: seq<Arg>): seq<string> {
    if args == [] then [] else
      HookItems(args[..|args| - 1]) + if args[|args| - 1].Unknown? then [] else [ArgName(|args| - 1)]
  }

  function DataItems(args: seq<Arg>): seq<string> {
    if args == [] then [] else
      var n := |args| - 1;
      DataItems(args[..n]) + if Logged(args[n]) then [ArgName(n) + ":" + ArgName(n)] else []
  }

  function Listing(items: seq<string>): string {
    if items == [] then "" else Join(items, ',')
  }

  /** Each item followed by a comma. */
  function Terminated(items: seq<string>): string {
    if items == [] then "" else Terminated(items[..|items| - 1]) + items[|items| - 1] + ","
  }

  lemma {:induction false} DropLastComma(items: seq<string>)
    ensures Terminated(items) == if items == [] then "" else Listing(items) + ","
  {
    if |items| == 1 {
      assert items[..0] == [];
    } else if items != [] {
      var init, last := items[..|items| - 1], items[|items| - 1];
      DropLastComma(init);
      JoinAppend(init, last, ',');
      assert items == init + [last];
    }
  }

  lemma TerminatedAppend(items: seq<string>, item: string)
    ensures Terminated(items + [item]) == Terminated(items) + item + ","
  {
    assert (items + [item])[..|items|] == items;
  }

  /** `substr(0, length - 1)`, which takes nothing from an empty text. */
  function DropLast(s: string): string {
    if s == "" then "" else s[..|s| - 1]
  }

  /** What one turn of the loop adds to the three texts. */
  lemma Turn(args: seq<Arg>, v: nat)
    requires v < |args|
    ensures Terminated(CallItems(args[..v + 1])) ==
      Terminated(CallItems(args[..v])) + if args[v].Unknown? then "" else CallItem(args[v]) + ","
    ensures Terminated(HookItems(args[..v + 1])) ==
      Terminated(HookItems(args[..v])) + if args[v].Unknown? then "" else ArgName(v) + ","
    ensures Terminated(DataItems(args[..v + 1])) ==
      Terminated(DataItems(args[..v])) + if Logged(args[v]) then ArgName(v) + ":" + ArgName(v) + "," else ""
  {
    var a, init := args[v], args[..v];
    assert args[..v + 1][..v] == init;
    assert CallItems(init) + [] == CallItems(init) && HookItems(init) + [] == HookItems(init);
    assert DataItems(init) + [] == DataItems(init);
    assert CallItems(args[..v + 1]) == if a.Unknown? then CallItems(init) else CallItems(init) + [CallItem(a)];
    assert HookItems(args[..v + 1]) == if a.Unknown? then HookItems(init) else HookItems(init) + [ArgName(v)];
    assert DataItems(args[..v + 1]) ==
      if Logged(a) then DataItems(init) + [ArgName(v) + ":" + ArgName(v)] else DataItems(init);
    hide Terminated, CallItem, Logged, CallItems, HookItems, DataItems, Decimal;
    TerminatedAppend(HookItems(init), ArgName(v));
    TerminatedAppend(DataItems(init), ArgName(v) + ":" + ArgName(v));
    if !a.Unknown? {
      TerminatedAppend(CallItems(init), CallItem(a));
    }
  }

  lemma ItemText(a: Arg)
    ensures a.Basic? && a.arr ==> CallItem(a) + "," == "'[" + Or(Letter(a.name), "null") + "',"
    ensures a.Object? && a.arr ==> CallItem(a) + "," == "'[L" + a.name + ";',"
    ensures !a.Unknown? && !a.arr ==> CallItem(a) + "," == "'" + a.name + "',"
  {
  }

  method MakeArgsHelper(args: seq<Arg>) returns (callSignature: string, hookArgs: string, data: string)
    ensures callSignature == Listing(CallItems(args))
    ensures hookArgs == Listing(HookItems(args))
    ensures data == Terminated(DataItems(args))
  {
    hide Terminated, CallItems, HookItems, DataItems, Listing, Decimal, Letter, CallItem;
    callSignature, hookArgs, data := "", "", "";
    NoItems(args[..0]);
    for v := 0 to |args|
      invariant callSignature == Terminated(CallItems(args[..v]))
      invariant hookArgs == Terminated(HookItems(args[..v]))
      invariant data == Terminated(DataItems(args[..v]))
    {
      Turn(args, v);
      ItemText(args[v]);
      var arg := ArgName(v);
      match args[v]
      case Basic(name, arr) =>
        var letter := GetLetterFromType(name);
        callSignature := callSignature + if arr then "'[" + Or(letter, "null") + "'," else "'" + name + "',";
        data := data + arg + ":" + arg + ",";
        hookArgs := hookArgs + arg + ",";
      case Object(name, arr) =>
        callSignature := callSignature + if arr then "'[L" + name + ";'," else "'" + name + "',";
        if Logged(args[v]) {
          data := data + arg + ":" + arg + ",";
        }
        hookArgs := hookArgs + arg + ",";
      case Unknown =>
    }
    assert args[..|args|] == args;
    DropLastComma(CallItems(args));
    DropLastComma(HookItems(args));
    ListingEmpty(CallItems(args));
    ListingEmpty(HookItems(args));
    callSignature := DropLast(callSignature);
    hookArgs := DropLast(hookArgs);
  }

  lemma NoItems(args: seq<Arg>)
    ensures args == [] ==>
      Terminated(CallItems(args)) == Terminated(HookItems(args)) == Terminated(DataItems(args)) == ""
  {
  }

  lemma ListingEmpty(items: seq<string>)
    ensures items == [] ==> Listing(items) == ""
  {
  }

  // ---------- what the lists mean ----------

  /** Basic types are primitive words; object names are not, and hold no comma and no '['. */
  predicate Known(a: Arg) {
    match a
    case Basic(n, _) => IsWord(n)
    case Object(n, _) => !IsWord(n) && Clean(n)
    case Unknown => false
  }

  predicate AllKnown(args: seq<Arg>) {
    forall a :: a in args ==> Known(a)
  }

  lemma ItemHasNoComma(a: Arg)
    requires Known(a)
    ensures ',' !in CallItem(a)
  {
    hide IsWord, Letter;
    LetterOfWord(a.name);
    assert a.arr && a.Object? ==> TypeText(a) == "[L" + a.name + ";";
  }

  lemma ItemsOfNone()
    ensures CallItems([]) == [] && HookItems([]) == []
  {
  }

  lemma LastItems(args: seq<Arg>)
    requires args != [] && Known(args[|args| - 1])
    ensures var n := |args| - 1;
      && CallItems(args) == CallItems(args[..n]) + [CallItem(args[n])]
      && HookItems(args) == HookItems(args[..n]) + [ArgName(n)]
  {
  }

  lemma {:induction false} ItemsAt(args: seq<Arg>)
    requires AllKnown(args)
    ensures |CallItems(args)| == |HookItems(args)| == |args|
    ensures forall i :: 0 <= i < |args| ==>
      Known(args[i]) && CallItems(args)[i] == CallItem(args[i]) && HookItems(args)[i] == ArgName(i)
  {
    hide CallItem, CallItems, HookItems, ArgName;
    if args == [] {
      ItemsOfNone();
    } else {
      var n := |args| - 1;
      var init, last := args[..n], args[n];
      assert Known(last) && forall a :: a in init ==> Known(a);
      ItemsAt(init);
      LastItems(args);
      forall i | 0 <= i < |args|
        ensures Known(args[i]) && CallItems(args)[i] == CallItem(args[i]) && HookItems(args)[i] == ArgName(i)
      {
        if i < n {
          assert init[i] == args[i];
        }
      }
    }
  }

  /** Cut at its commas, each list has one item per argument: its type, and its numbered name. */
  lemma ListsArePerArgument(args: seq<Arg>)
    requires AllKnown(args) && args != []
    ensures var types, names := Split(Listing(CallItems(args)), ','), Split(Listing(HookItems(args)), ',');
      && |types| == |names| == |args|
      && forall i :: 0 <= i < |args| ==> Known(args[i]) && types[i] == CallItem(args[i]) && names[i] == ArgName(i)
  {
    hide CallItem, Split, Join, CallItems, HookItems, ArgName;
    ItemsAt(args);
    forall s | s in CallItems(args)
      ensures ',' !in s
    {
      var i :| 0 <= i < |args| && s == CallItems(args)[i];
      ItemHasNoComma(args[i]);
    }
    forall s | s in HookItems(args)
      ensures ',' !in s
    {
      var i :| 0 <= i < |args| && s == HookItems(args)[i];
      NameHasNoComma(i);
    }
    SplitJoin(CallItems(args), ',');
    SplitJoin(HookItems(args), ',');
  }

  lemma NameHasNoComma(i: nat)
    ensures ',' !in ArgName(i)
  {
  }

  /** No two parameters of a hook share a name. */
  lemma NamesDistinct(i: nat, j: nat)
    requires ArgName(i) == ArgName(j)
    ensures i == j
  {
    assert ArgName(i)[3..] == Decimal(i) && ArgName(j)[3..] == Decimal(j);
    DecimalInjective(i, j);
  }

  lemma TypeTextIs(a: Arg)
    requires Known(a)
    ensures var x := TypeText(a);
      && (!a.arr ==> x == a.name && '[' !in x)
      && (a.arr ==> |x| >= 2 && x[0] == '[')
      && (a.arr && a.Basic? ==> |x| == 2 && Letter(a.name) == Some(x[1..]))
      && (a.arr && a.Object? ==> |x| >= 3 && x[2..|x| - 1] == a.name)
  {
    hide IsWord, Letter;
    LetterOfWord(a.name);
  }

  lemma CallItemInjective(a: Arg, b: Arg)
    requires Known(a) && Known(b) && CallItem(a) == CallItem(b)
    ensures a == b
  {
    var s, t, x := CallItem(a), CallItem(b), TypeText(a);
    assert s[1..|s| - 1] == x && t[1..|t| - 1] == TypeText(b);
    assert x != "" ==> x[0] in x;
    hide CallItem, TypeText, IsWord, Letter;
    TypeTextIs(a);
    TypeTextIs(b);
    if a.arr && b.arr && a.Basic? && b.Basic? {
      LetterInjective(a.name, b.name);
    }
  }

  lemma SplitEmpty()
    ensures Split(Listing([]), ',') == [""]
  {
  }

  /** The overload signature determines the types of the arguments. */
  lemma SignatureDetermines(a: seq<Arg>, b: seq<Arg>)
    requires AllKnown(a) && AllKnown(b) && Listing(CallItems(a)) == Listing(CallItems(b))
    ensures a == b
  {
    ItemsAt(a);
    ItemsAt(b);
    SplitEmpty();
    hide CallItems, Split, Join, Decimal, Listing, Known;
    if a != [] && b != [] {
      ListsArePerArgument(a);
      ListsArePerArgument(b);
      forall i | 0 <= i < |a|
        ensures a[i] == b[i]
      {
        assert CallItem(a[i]) == CallItem(b[i]);
        CallItemInjective(a[i], b[i]);
      }
    } else if a != [] {
      ListsArePerArgument(a);
    } else if b != [] {
      ListsArePerArgument(b);
    }
  }

  lemma {:induction false} DataOf(args: seq<Arg>, s: string)
    ensures s in DataItems(args) <==>
      exists i :: 0 <= i < |args| && Logged(args[i]) && s == ArgName(i) + ":" + ArgName(i)
  {
    if args != [] {
      DataOf(args[..|args| - 1], s);
    }
  }

  lemma NameText(i: nat)
    ensures ArgName(i) + ":" + ArgName(i) == "arg" + Decimal(i) + ":arg" + Decimal(i)
  {
    assert ":arg" == ":" + "arg";
  }

  /** Logged are the basic arguments, arrays or not, and those of the two text types. */
  lemma DataAt(args: seq<Arg>, s: string)
    ensures s in DataItems(args) <==>
      exists i ::
        && 0 <= i < |args| && s == "arg" + Decimal(i) + ":arg" + Decimal(i)
        && (args[i].Basic? || (args[i].Object? && args[i].name in {"java.lang.String", "java.lang.CharSequence"}))
  {
    hide DataItems, Decimal, ArgName;
    DataOf(args, s);
    if s in DataItems(args) {
      var i :| 0 <= i < |args| && Logged(args[i]) && s == ArgName(i) + ":" + ArgName(i);
      NameText(i);
    }
    if i :| 0 <= i < |args| && Logged(args[i]) && s == "arg" + Decimal(i) + ":arg" + Decimal(i) {
      NameText(i);
    }
  }
}
