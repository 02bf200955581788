/** Token replacement in hook scripts: replace-until-absent loops against simultaneous substitution. */
module Templates {
  import opened Model

  const MARK := "@@"

  function Token(name: string): string {
    MARK + name + MARK
  }

  predicate IsName(n: string) {
    n != "" && '@' !in n
  }

  // ---------- String.replace with a string pattern ----------

  predicate OccursAt(s: string, t: string, i: int) {
    0 <= i <= |s| - |t| && s[i..i + |t|] == t
  }

  /** `indexOf`: the first occurrence. */
  function IndexOf(s: string, t: string): (i: int)
    ensures i == -1 || OccursAt(s, t, i)
    ensures forall j :: OccursAt(s, t, j) ==> 0 <= i <= j
  {
    if |t| <= |s| && s[..|t|] == t then 0
    else if s == "" then -1
    else
      var i := IndexOf(s[1..], t);
      assert forall j :: OccursAt(s, t, j) ==>
        j > 0 && s[1..][j - 1..j - 1 + |t|] == s[j..j + |t|] && OccursAt(s[1..], t, j - 1);
      assert i >= 0 ==> s[1..][i..i + |t|] == s[i + 1..i + 1 + |t|];
      if i == -1 then -1 else i + 1
  }

  predicate Occurs(s: string, t: string) {
    IndexOf(s, t) > -1
  }

  /** The replacement text: `$$`, `$&`, `` $` `` and `$'` stand for a dollar sign, the match, what
      precedes it and what follows it. */
  function Dollars(v: string, pre: string, m: string, post: string): string {
    if |v| < 2 then v
    else if IsPattern(v[0], v[1]) then
      (match v[1]
       case '$' => "$"
       case '&' => m
       case '`' => pre
       case _ => post) + Dollars(v[2..], pre, m, post)
    else [v[0]] + Dollars(v[1..], pre, m, post)
  }

  predicate IsPattern(a: char, b: char) {
    a == '$' && (b == '$' || b == '&' || b == '`' || b == '\'')
  }

  predicate NoPattern(v: string) {
    forall i :: 0 <= i < |v| - 1 ==> !IsPattern(v[i], v[i + 1])
  }

  function Replace(s: string, t: string, v: string): string {
    var i := IndexOf(s, t);
    if i == -1 then s else
      var pre, post := s[..i], s[i + |t|..];
      pre + Dollars(v, pre, t, post) + post
  }

  predicate Plain(v: string) {
    '@' !in v && NoPattern(v)
  }

  /** A value free of '@' replaces a token literally if and only if it holds no pattern. */
  lemma LiteralIff(v: string, t: string)
    requires '@' !in v && '@' in t
    ensures Dollars(v, "", t, "") == v <==> NoPattern(v)
  {
    DollarsGrow(v, t);
    if NoPattern(v) {
      DollarsPlain(v, "", t, "");
    }
  }

  lemma {:induction false} DollarsPlain(v: string, pre: string, m: string, post: string)
    requires NoPattern(v)
    ensures Dollars(v, pre, m, post) == v
  {
    if |v| >= 2 {
      var w := v[1..];
      forall i | 0 <= i < |w| - 1
        ensures !IsPattern(w[i], w[i + 1])
      {
        assert w[i] == v[i + 1] && w[i + 1] == v[i + 2];
      }
      DollarsPlain(w, pre, m, post);
    }
  }

  lemma {:induction false} DollarsGrow(v: string, t: string)
    requires '@' in t
    ensures '@' in Dollars(v, "", t, "") || |Dollars(v, "", t, "")| <= |v|
    ensures !NoPattern(v) ==> '@' in Dollars(v, "", t, "") || |Dollars(v, "", t, "")| < |v|
  {
    if |v| >= 2 {
      DollarsGrow(v[2..], t);
      DollarsGrow(v[1..], t);
      if !IsPattern(v[0], v[1]) && !NoPattern(v) {
        var i :| 0 <= i < |v| - 1 && IsPattern(v[i], v[i + 1]);
        assert v[1..][i - 1] == v[i] && v[1..][i] == v[i + 1];
        assert !NoPattern(v[1..]);
      }
    }
  }

  // ---------- the loop for one token ----------

  function Count(s: string): (n: nat)
  {
    if s == "" then 0 else Count(s[1..]) + if s[0] == '@' then 1 else 0
  }

  lemma {:induction false} CountConcat(a: string, b: string)
    ensures Count(a + b) == Count(a) + Count(b)
  {
    if a == "" {
      assert a + b == b;
    } else {
      assert (a + b)[1..] == a[1..] + b;
      CountConcat(a[1..], b);
    }
  }

  lemma {:induction false} CountNone(s: string)
    ensures Count(s) == 0 <==> '@' !in s
  {
    if s != "" {
      CountNone(s[1..]);
    }
  }

  /** Each replacement by a plain value removes the '@' of one token. */
  lemma ReplaceFalls(s: string, name: string, v: string)
    requires Plain(v) && Occurs(s, Token(name))
    ensures Count(Replace(s, Token(name), v)) < Count(s)
  {
    var t := Token(name);
    var i := IndexOf(s, t);
    var pre, post := s[..i], s[i + |t|..];
    DollarsPlain(v, pre, t, post);
    assert s == pre + t + post;
    assert t[0] == '@';
    CountNone(v);
    CountNone(t);
    CountConcat(pre + t, post);
    CountConcat(pre, t);
    CountConcat(pre + v, post);
    CountConcat(pre, v);
  }

  ghost function ReplaceAll(s: string, name: string, v: string): string
    requires Plain(v)
    decreases Count(s)
  {
    if Occurs(s, Token(name)) then
      ReplaceFalls(s, name, v);
      ReplaceAll(Replace(s, Token(name), v), name, v)
    else s
  }

  lemma AbsentStays(s: string, t: string, v: string)
    requires !Occurs(s, t)
    ensures Replace(s, t, v) == s
  {
    assert IndexOf(s, t) == -1;
  }

  function Iterate(s: string, t: string, v: string, n: nat): string {
    if n == 0 then s else Replace(Iterate(s, t, v, n - 1), t, v)
  }

  /** A pattern-free value that holds its own token is replaced for ever: no number of turns ends the loop. */
  lemma {:induction false} SelfReferenceLoops(s: string, t: string, v: string, n: nat)
    requires Occurs(s, t) && Occurs(v, t) && NoPattern(v)
    ensures Occurs(Iterate(s, t, v, n), t)
  {
    if n > 0 {
      SelfReferenceLoops(s, t, v, n - 1);
      var s' := Iterate(s, t, v, n - 1);
      KeepsToken(s', t, v);
    }
  }

  lemma OccursShift(a: string, b: string, t: string, k: nat)
    ensures OccursAt(a + b, t, |a| + k) <==> OccursAt(b, t, k)
  {
    assert k + |t| <= |b| ==> (a + b)[|a| + k..|a| + k + |t|] == b[k..k + |t|];
  }

  lemma KeepsToken(s: string, t: string, v: string)
    requires Occurs(s, t) && Occurs(v, t) && NoPattern(v)
    ensures Occurs(Replace(s, t, v), t)
  {
    hide IndexOf;
    var i, k := IndexOf(s, t), IndexOf(v, t);
    var pre, post := s[..i], s[i + |t|..];
    DollarsPlain(v, pre, t, post);
    assert (v + post)[k..k + |t|] == v[k..k + |t|];
    OccursShift(pre, v + post, t, k);
    assert pre + (v + post) == pre + v + post;
  }

  // ---------- templates ----------

  /** A token and the literal text behind it. */
  datatype Hole = Hole(name: string, after: string)

  /** Literals and tokens in alternation; a literal may be empty. */
  datatype Template = Template(before: string, holes: seq<Hole>)

  predicate WellFormed(u: Template) {
    '@' !in u.before && forall h :: h in u.holes ==> IsName(h.name) && '@' !in h.after
  }

  function Text(u: Template): string {
    u.before + TextHoles(u.holes)
  }

  function TextHoles(hs: seq<Hole>): string {
    if hs == [] then "" else Token(hs[0].name) + hs[0].after + TextHoles(hs[1..])
  }

  /** The simultaneous substitution: every known token gives way to its value. */
  function Expand(u: Template, tags: map<string, string>): string {
    u.before + ExpandHoles(u.holes, tags)
  }

  function ExpandHoles(hs: seq<Hole>, tags: map<string, string>): string {
    if hs == [] then "" else
      (if hs[0].name in tags then tags[hs[0].name] else Token(hs[0].name)) + hs[0].after + ExpandHoles(hs[1..], tags)
  }

  /** The first token called `name` gives way to `v`. */
  function FillFirst(u: Template, name: string, v: string): Template
    decreases |u.holes|
  {
    if u.holes == [] then u
    else
      var h, rest := u.holes[0], u.holes[1..];
      if h.name == name then Template(u.before + v + h.after, rest)
      else
        var w := FillFirst(Template(h.after, rest), name, v);
        Template(u.before, [Hole(h.name, w.before)] + w.holes)
  }

  predicate Has(u: Template, name: string) {
    exists h :: h in u.holes && h.name == name
  }

  /** Before the first token called `name`, no literal between two tokens reads `name`. */
  predicate FirstAligned(hs: seq<Hole>, name: string) {
    hs == [] || hs[0].name == name || ((hs[0].after == name ==> |hs| == 1) && FirstAligned(hs[1..], name))
  }

  // ---------- where a token is found ----------

  predicate StartsWith(s: string, t: string) {
    |t| <= |s| && s[..|t|] == t
  }

  predicate EvenStart(s: string) {
    s != "" && s[0] == '@' ==> |s| > 1 && s[1] == '@'
  }

  lemma NotInside(f: string, rest: string, name: string, j: int)
    requires '@' !in f && IsName(name) && EvenStart(rest) && OccursAt(f + MARK + rest, Token(name), j)
    ensures j >= |f| && j != |f| + 1
  {
    var s, t := f + MARK + rest, Token(name);
    var w := s[j..j + |t|];
    assert t[0] == '@' && t[1] == '@' && t[2] == name[0] && name[0] in name;
    assert w[0] == s[j] && w[1] == s[j + 1] && w[2] == s[j + 2];
    assert forall k :: 0 <= k < |f| ==> s[k] == f[k] && f[k] in f;
    assert forall k :: 0 <= k < |rest| ==> s[|f| + 2 + k] == rest[k];
  }

  lemma StartsAtMark(rest: string, name: string)
    ensures OccursAt(MARK + rest, Token(name), 0) <==> StartsWith(rest, name + MARK)
  {
    var s, t := MARK + rest, Token(name);
    assert t == MARK + (name + MARK);
    if |t| <= |s| {
      assert s[0..|t|] == MARK + rest[..|t| - 2];
      assert s[0..|t|][2..] == rest[..|t| - 2] && t[2..] == name + MARK;
    }
  }

  /** The text up to the first mark holds no token; the token at the mark, if any, comes first. */
  lemma FindFrom(f: string, rest: string, name: string)
    requires '@' !in f && IsName(name) && EvenStart(rest)
    ensures var s, t, i := f + MARK + rest, Token(name), IndexOf(rest, Token(name));
      IndexOf(s, t) == if StartsWith(rest, name + MARK) then |f| else if i == -1 then -1 else |f| + 2 + i
  {
    hide IndexOf, OccursAt, StartsWith, EvenStart;
    var s, t := f + MARK + rest, Token(name);
    var i, k := IndexOf(s, t), IndexOf(rest, t);
    assert s == f + (MARK + rest);
    StartsAtMark(rest, name);
    OccursShift(f, MARK + rest, t, 0);
    if i >= 0 {
      NotInside(f, rest, name, i);
      if i > |f| {
        OccursShift(f + MARK, rest, t, i - |f| - 2);
      }
    }
    if k >= 0 {
      OccursShift(f + MARK, rest, t, k);
    }
  }

  lemma StartsIff(f: string, rest: string, name: string)
    requires '@' !in f && IsName(name)
    ensures StartsWith(f + MARK + rest, name + MARK) <==> f == name
    ensures !StartsWith(f, name + MARK)
  {
    var s, t := f + MARK + rest, name + MARK;
    assert t[|name|] == '@' && s[|f|] == '@' && t[..|name|] == name && s[..|f|] == f;
    assert forall k :: 0 <= k < |name| ==> t[k] == name[k] && name[k] in name;
    assert forall k :: 0 <= k < |f| ==> s[k] == f[k] && f[k] in f;
    assert |t| <= |s| ==> forall k :: 0 <= k < |t| ==> s[..|t|][k] == s[k];
    assert |t| <= |f| ==> forall k :: 0 <= k < |t| ==> f[..|t|][k] == f[k];
    if f == name {
      assert s[..|t|] == t;
    }
  }

  // ---------- one replacement ----------

  lemma ReplaceAt(pre: string, t: string, post: string, v: string)
    requires NoPattern(v) && IndexOf(pre + t + post, t) == |pre|
    ensures Replace(pre + t + post, t, v) == pre + v + post
  {
    var s := pre + t + post;
    assert s[..|pre|] == pre && s[|pre| + |t|..] == post;
    DollarsPlain(v, pre, t, post);
  }

  /** What precedes the place of the first occurrence is only copied. */
  lemma ReplaceShift(pre: string, rest: string, t: string, v: string)
    requires NoPattern(v)
    requires IndexOf(pre + rest, t) == if IndexOf(rest, t) == -1 then -1 else |pre| + IndexOf(rest, t)
    ensures Replace(pre + rest, t, v) == pre + Replace(rest, t, v)
  {
    hide IndexOf, Dollars, NoPattern;
    var i, s := IndexOf(rest, t), pre + rest;
    if i >= 0 {
      assert s[..|pre| + i] == pre + rest[..i] && s[|pre| + i + |t|..] == rest[i + |t|..];
      DollarsPlain(v, s[..|pre| + i], t, rest[i + |t|..]);
      DollarsPlain(v, rest[..i], t, rest[i + |t|..]);
    }
  }

  lemma TextSplit(u: Template)
    requires u.holes != []
    ensures var h, next := u.holes[0], Template(u.holes[0].after, u.holes[1..]);
      Text(u) == u.before + MARK + (h.name + MARK + Text(next))
  {
  }

  lemma TextEven(u: Template)
    requires WellFormed(u)
    ensures EvenStart(Text(u))
  {
    if u.before != "" {
      assert u.before[0] in u.before;
    } else if u.holes != [] {
      TextSplit(u);
    }
  }

  lemma NextWellFormed(u: Template)
    requires WellFormed(u) && u.holes != []
    ensures IsName(u.holes[0].name) && WellFormed(Template(u.holes[0].after, u.holes[1..]))
  {
    assert u.holes[0] in u.holes;
  }

  /** What the first literal, mark and name of a text contribute to one replacement. */
  lemma ReplaceAtMark(f: string, n: string, rest: string, name: string, v: string)
    requires '@' !in f && IsName(n) && IsName(name) && NoPattern(v) && EvenStart(rest)
    ensures Replace(f + MARK + (n + MARK + rest), Token(name), v) ==
      if n == name then f + v + rest
      else if StartsWith(rest, name + MARK) then f + MARK + n + v + rest[|name| + 2..]
      else f + MARK + n + MARK + Replace(rest, Token(name), v)
  {
    hide IndexOf, Replace, StartsWith, EvenStart, NoPattern, OccursAt;
    var t, tail, pre := Token(name), n + MARK + rest, f + MARK + n;
    var s := f + MARK + tail;
    NameEven(n, MARK + rest);
    assert tail == n + (MARK + rest);
    FindFrom(f, tail, name);
    FindFrom(n, rest, name);
    StartsIff(n, rest, name);
    if n == name {
      assert s == f + t + rest;
      ReplaceAt(f, t, rest, v);
    } else if StartsWith(rest, name + MARK) {
      StartsTail(rest, name);
      assert s == pre + t + rest[|name| + 2..];
      ReplaceAt(pre, t, rest[|name| + 2..], v);
    } else {
      assert s == (pre + MARK) + rest;
      ReplaceShift(pre + MARK, rest, t, v);
    }
  }

  lemma StartsTail(rest: string, name: string)
    requires StartsWith(rest, name + MARK)
    ensures |rest| >= |name| + 2 && MARK + rest == Token(name) + rest[|name| + 2..]
  {
    assert rest == (name + MARK) + rest[|name| + 2..];
  }

  /** When the text of a template goes on with a name and a mark. */
  lemma TextStarts(u: Template, name: string)
    requires WellFormed(u) && IsName(name)
    ensures StartsWith(Text(u), name + MARK) <==> u.before == name && u.holes != []
    ensures u.before == name && u.holes != [] ==>
      Text(u)[|name| + 2..] == u.holes[0].name + MARK + Text(Template(u.holes[0].after, u.holes[1..]))
  {
    if u.holes == [] {
      TextEnd(u);
      StartsIff(u.before, "", name);
    } else {
      TextSplit(u);
      StartsIff(u.before, u.holes[0].name + MARK + Text(Template(u.holes[0].after, u.holes[1..])), name);
    }
  }

  lemma ReplaceAtHole(u: Template, name: string, v: string)
    requires WellFormed(u) && u.holes != [] && IsName(name) && NoPattern(v)
    ensures var h, next := u.holes[0], Template(u.holes[0].after, u.holes[1..]);
      Replace(Text(u), Token(name), v) ==
        if h.name == name then u.before + v + Text(next)
        else if h.after == name && next.holes != [] then
          u.before + MARK + h.name + v
          + (next.holes[0].name + MARK + Text(Template(next.holes[0].after, next.holes[1..])))
        else u.before + MARK + h.name + MARK + Replace(Text(next), Token(name), v)
  {
    hide IndexOf, Replace, Text, StartsWith, EvenStart;
    var h, next := u.holes[0], Template(u.holes[0].after, u.holes[1..]);
    NextWellFormed(u);
    TextSplit(u);
    TextEven(next);
    ReplaceAtMark(u.before, h.name, Text(next), name, v);
    TextStarts(next, name);
  }

  lemma NameEven(n: string, rest: string)
    requires IsName(n)
    ensures EvenStart(n + rest)
  {
    assert (n + rest)[0] == n[0] && n[0] in n;
  }

  lemma TextEnd(u: Template)
    ensures u.holes == [] ==> Text(u) == u.before
  {
  }

  lemma FillText(u: Template, name: string, v: string)
    requires u.holes != []
    ensures var h, next := u.holes[0], Template(u.holes[0].after, u.holes[1..]);
      Text(FillFirst(u, name, v)) ==
        if h.name == name then u.before + v + Text(next)
        else u.before + MARK + h.name + MARK + Text(FillFirst(next, name, v))
  {
    var h, next := u.holes[0], Template(u.holes[0].after, u.holes[1..]);
    if h.name == name {
      assert Text(Template(u.before + v + h.after, u.holes[1..])) == u.before + v + Text(next);
    } else {
      TextSplit(FillFirst(u, name, v));
      hide Text;
      var w := FillFirst(next, name, v);
      assert Template(w.before, w.holes) == w;
    }
  }

  ghost predicate Aligned(u: Template, name: string, v: string) {
    Replace(Text(u), Token(name), v) == Text(FillFirst(u, name, v))
  }

  lemma AlignedNone(u: Template, name: string, v: string)
    requires WellFormed(u) && u.holes == []
    ensures Aligned(u, name, v)
  {
    TextEnd(u);
    TextAbsent(u.before, name);
    AbsentStays(u.before, Token(name), v);
  }

  lemma AlignedStep(u: Template, name: string, v: string)
    requires WellFormed(u) && IsName(name) && Plain(v) && u.holes != []
    ensures var h, next := u.holes[0], Template(u.holes[0].after, u.holes[1..]);
      Aligned(u, name, v) <==> h.name == name || (!(h.after == name && next.holes != []) && Aligned(next, name, v))
  {
    hide Replace, Text, FillFirst, WellFormed, IsName, NoPattern;
    var h, next := u.holes[0], Template(u.holes[0].after, u.holes[1..]);
    NextWellFormed(u);
    ReplaceAtHole(u, name, v);
    FillText(u, name, v);
    if h.name != name {
      var pre, r, f := u.before + MARK + h.name, Replace(Text(next), Token(name), v), Text(FillFirst(next, name, v));
      if h.after == name && next.holes != [] {
        NextWellFormed(next);
        var g, x := next.holes[0].name, MARK + Text(Template(next.holes[0].after, next.holes[1..]));
        GapDiffers(pre, v, g, x, MARK + f);
        assert pre + (MARK + f) == pre + MARK + f;
        assert g + x == next.holes[0].name + MARK + Text(Template(next.holes[0].after, next.holes[1..]));
      } else {
        SameTails(pre + MARK, r, f);
      }
    }
  }

  /** One replacement fills the first token of that name if and only if no literal between two
      earlier tokens reads like the name: such a literal and the marks around it are found first. */
  lemma {:induction false} ReplaceIff(u: Template, name: string, v: string)
    requires WellFormed(u) && IsName(name) && Plain(v)
    ensures Replace(Text(u), Token(name), v) == Text(FillFirst(u, name, v)) <==> FirstAligned(u.holes, name)
    decreases |u.holes|
  {
    hide Replace, Text, FillFirst, IsName, Plain;
    if u.holes == [] {
      AlignedNone(u, name, v);
    } else {
      NextWellFormed(u);
      ReplaceIff(Template(u.holes[0].after, u.holes[1..]), name, v);
      AlignedStep(u, name, v);
    }
  }

  lemma GapDiffers(pre: string, v: string, n: string, x: string, y: string)
    requires '@' !in v && IsName(n) && StartsWith(y, MARK)
    ensures pre + v + (n + x) != pre + y
  {
    assert (v + n)[0] in v + n;
    assert (pre + v + (n + x))[|pre|] == (v + n)[0] && (pre + y)[|pre|] == y[..2][0];
  }

  lemma TextAbsent(s: string, name: string)
    requires '@' !in s
    ensures !Occurs(s, Token(name))
  {
    var t := Token(name);
    assert t[0] == '@' && forall i :: 0 <= i < |s| ==> s[i] in s;
    assert forall i :: 0 <= i <= |s| - |t| ==> s[i..i + |t|][0] == s[i];
  }

  lemma SameTails(p: string, x: string, y: string)
    ensures p + x == p + y <==> x == y
  {
    assert (p + x)[|p|..] == x && (p + y)[|p|..] == y;
  }

  // ---------- all the loops ----------

  type Tags = map<string, string>

  predicate GoodTags(tags: Tags) {
    forall n :: n in tags ==> IsName(n) && Plain(tags[n])
  }

  /** The text that may come to stand between the token `prev` and a later token, once the known
      tokens between them are filled, reads like no known name but `prev`. */
  predicate NoClash(prev: string, acc: string, hs: seq<Hole>, tags: Tags)
    decreases |hs|
  {
    hs == [] || (
      (acc in tags ==> acc == prev)
      && (hs[0].name in tags ==> NoClash(prev, acc + tags[hs[0].name] + hs[0].after, hs[1..], tags)))
  }

  predicate Clean(hs: seq<Hole>, tags: Tags) {
    hs == [] || (NoClash(hs[0].name, hs[0].after, hs[1..], tags) && Clean(hs[1..], tags))
  }

  lemma {:induction false} CleanAligned(hs: seq<Hole>, tags: Tags, name: string)
    requires Clean(hs, tags) && name in tags
    ensures FirstAligned(hs, name)
  {
    if hs != [] {
      CleanAligned(hs[1..], tags, name);
    }
  }

  lemma {:induction false} FillShift(x: string, y: string, hs: seq<Hole>, name: string, v: string)
    ensures var a, b := FillFirst(Template(x + y, hs), name, v), FillFirst(Template(y, hs), name, v);
      a.before == x + b.before && a.holes == b.holes
  {
    if hs != [] && hs[0].name == name {
      assert x + y + v + hs[0].after == x + (y + v + hs[0].after);
    }
  }

  lemma {:induction false} FillNoClash(prev: string, acc: string, hs: seq<Hole>, tags: Tags, name: string)
    requires NoClash(prev, acc, hs, tags) && name in tags
    ensures var w := FillFirst(Template(acc, hs), name, tags[name]); NoClash(prev, w.before, w.holes, tags)
    decreases |hs|
  {
    if hs != [] && hs[0].name != name && hs[0].name in tags {
      var x := acc + tags[hs[0].name];
      FillNoClash(prev, x + hs[0].after, hs[1..], tags, name);
      FillShift(x, hs[0].after, hs[1..], name, tags[name]);
      var w := FillFirst(Template(hs[0].after, hs[1..]), name, tags[name]);
      var holes := [Hole(hs[0].name, w.before)] + w.holes;
      assert holes[1..] == w.holes;
    }
  }

  lemma {:induction false} FillClean(u: Template, tags: Tags, name: string)
    requires Clean(u.holes, tags) && name in tags
    ensures Clean(FillFirst(u, name, tags[name]).holes, tags)
    decreases |u.holes|
  {
    if u.holes != [] && u.holes[0].name != name {
      var h, next := u.holes[0], Template(u.holes[0].after, u.holes[1..]);
      FillClean(next, tags, name);
      FillNoClash(h.name, h.after, u.holes[1..], tags, name);
      var w := FillFirst(next, name, tags[name]);
      assert ([Hole(h.name, w.before)] + w.holes)[1..] == w.holes;
    }
  }

  lemma {:induction false} FillWellFormed(u: Template, name: string, v: string)
    requires WellFormed(u) && Plain(v)
    ensures WellFormed(FillFirst(u, name, v))
    decreases |u.holes|
  {
    if u.holes != [] {
      NextWellFormed(u);
      FillWellFormed(Template(u.holes[0].after, u.holes[1..]), name, v);
    }
  }

  lemma ExpandSplit(u: Template, tags: Tags, pre: string)
    ensures Expand(Template(pre + u.before, u.holes), tags) == pre + Expand(u, tags)
    ensures u.holes != [] ==> var h, next := u.holes[0], Template(u.holes[0].after, u.holes[1..]);
      Expand(u, tags) == u.before + (if h.name in tags then tags[h.name] else Token(h.name)) + Expand(next, tags)
  {
  }

  /** Filling one token leaves the simultaneous substitution as it was. */
  lemma {:induction false} FillExpand(u: Template, tags: Tags, name: string)
    requires name in tags
    ensures Expand(FillFirst(u, name, tags[name]), tags) == Expand(u, tags)
    decreases |u.holes|
  {
    hide Expand, Token;
    if u.holes != [] {
      var h, next := u.holes[0], Template(u.holes[0].after, u.holes[1..]);
      ExpandSplit(u, tags, "");
      if h.name == name {
        ExpandSplit(next, tags, u.before + tags[name]);
      } else {
        FillExpand(next, tags, name);
        var w := FillFirst(next, name, tags[name]);
        var holes := [Hole(h.name, w.before)] + w.holes;
        assert holes[1..] == w.holes;
        ExpandSplit(Template(u.before, holes), tags, "");
      }
    }
  }

  /** Filling drops one token of that name and adds none. */
  lemma {:induction false} FillHoles(u: Template, name: string, v: string, n: string)
    ensures var w := FillFirst(u, name, v);
      && (Has(w, n) ==> Has(u, n))
      && |w.holes| == |u.holes| - if Has(u, name) then 1 else 0
    decreases |u.holes|
  {
    if u.holes != [] {
      var h, rest := u.holes[0], u.holes[1..];
      assert u.holes == [h] + rest;
      FillHoles(Template(h.after, rest), name, v, n);
      var w := FillFirst(Template(h.after, rest), name, v);
      assert Has(Template("", rest), n) <==> Has(Template(h.after, rest), n);
      assert h.name != name ==> (Has(u, name) <==> Has(Template(h.after, rest), name));
    }
  }

  lemma ReplaceAllStep(s: string, name: string, v: string)
    requires Plain(v)
    ensures ReplaceAll(s, name, v) == ReplaceAll(Replace(s, Token(name), v), name, v)
    ensures Replace(s, Token(name), v) == s ==> ReplaceAll(s, name, v) == s
  {
    if Occurs(s, Token(name)) {
      ReplaceFalls(s, name, v);
    } else {
      AbsentStays(s, Token(name), v);
    }
  }

  /** The state of a script between two loops. */
  ghost predicate Represents(u: Template, s: string, tags: Tags) {
    WellFormed(u) && Clean(u.holes, tags) && Text(u) == s
  }

  /** One loop fills every token of its name. */
  lemma {:induction false} LoopFills(u: Template, tags: Tags, name: string) returns (w: Template)
    requires GoodTags(tags) && name in tags && Represents(u, Text(u), tags)
    ensures Represents(w, ReplaceAll(Text(u), name, tags[name]), tags)
    ensures Expand(w, tags) == Expand(u, tags)
    ensures !Has(w, name) && forall n :: Has(w, n) ==> Has(u, n)
    decreases |u.holes|
  {
    hide ReplaceAll;
    hide Text, Replace, Expand, Clean, WellFormed, NoPattern;
    var v := tags[name];
    CleanAligned(u.holes, tags, name);
    ReplaceIff(u, name, v);
    ReplaceAllStep(Text(u), name, v);
    var next := FillFirst(u, name, v);
    FillClean(u, tags, name);
    FillWellFormed(u, name, v);
    FillExpand(u, tags, name);
    forall n
      ensures Has(next, n) ==> Has(u, n)
    {
      FillHoles(u, name, v, n);
    }
    FillHoles(u, name, v, name);
    if Has(u, name) {
      w := LoopFills(next, tags, name);
    } else {
      FillAbsent(u, name, v);
      w := u;
    }
  }

  lemma {:induction false} FillAbsent(u: Template, name: string, v: string)
    requires !Has(u, name)
    ensures FillFirst(u, name, v) == u
    decreases |u.holes|
  {
    if u.holes != [] {
      var h, next := u.holes[0], Template(u.holes[0].after, u.holes[1..]);
      assert h in u.holes;
      assert forall g :: g in next.holes ==> g in u.holes;
      FillAbsent(next, name, v);
      assert u.holes == [h] + u.holes[1..];
    }
  }

  ghost function Loops(s: string, order: seq<string>, tags: Tags): string
    requires GoodTags(tags) && forall n :: n in order ==> n in tags
    decreases |order|
  {
    if order == [] then s else
      var m := order[0];
      assert m in order;
      Loops(ReplaceAll(s, m, tags[m]), order[1..], tags)
  }

  lemma {:induction false} LoopsFill(u: Template, order: seq<string>, tags: Tags) returns (w: Template)
    requires GoodTags(tags) && (forall n :: n in order ==> n in tags) && Represents(u, Text(u), tags)
    ensures Represents(w, Loops(Text(u), order, tags), tags) && Expand(w, tags) == Expand(u, tags)
    ensures forall n :: Has(w, n) ==> Has(u, n) && n !in order
    decreases |order|
  {
    hide Text, Replace, Expand, Clean, WellFormed, NoPattern, ReplaceAll, Has;
    if order == [] {
      w := u;
    } else {
      var m := order[0];
      assert m in order && order == [m] + order[1..];
      var x := LoopFills(u, tags, m);
      w := LoopsFill(x, order[1..], tags);
    }
  }

  lemma {:induction false} ExpandNone(hs: seq<Hole>, tags: Tags)
    requires forall h :: h in hs ==> h.name !in tags
    ensures ExpandHoles(hs, tags) == TextHoles(hs)
  {
    if hs != [] {
      assert hs[0] in hs;
      ExpandNone(hs[1..], tags);
    }
  }

  /** On a template whose literals cannot be mistaken for a name, the loops, run in any order that
      meets every known name, are one simultaneous substitution. */
  lemma LoopsSubstitute(u: Template, order: seq<string>, tags: Tags)
    requires GoodTags(tags) && (forall n :: n in order <==> n in tags)
    requires WellFormed(u) && Clean(u.holes, tags)
    ensures Loops(Text(u), order, tags) == Expand(u, tags)
  {
    var w := LoopsFill(u, order, tags);
    forall h | h in w.holes
      ensures h.name !in tags
    {
      assert Has(w, h.name);
    }
    ExpandNone(w.holes, tags);
  }

  // ---------- exactly when one loop is right ----------

  /** What one replacement does to a template: it fills the first token called `name`, unless a
      literal that reads so comes first; then it melts the two tokens around that literal into one. */
  function Next(u: Template, name: string, v: string): Template
    decreases |u.holes|
  {
    if u.holes == [] then u
    else
      var h, rest := u.holes[0], u.holes[1..];
      if h.name == name then Template(u.before + v + h.after, rest)
      else if h.after == name && rest != [] then
        Template(u.before, [Hole(h.name + v + rest[0].name, rest[0].after)] + rest[1..])
      else
        var w := Next(Template(h.after, rest), name, v);
        Template(u.before, [Hole(h.name, w.before)] + w.holes)
  }

  lemma NextText(u: Template, name: string, v: string)
    requires u.holes != []
    ensures var h, next := u.holes[0], Template(u.holes[0].after, u.holes[1..]);
      Text(Next(u, name, v)) ==
        if h.name == name then u.before + v + Text(next)
        else if h.after == name && next.holes != [] then
          u.before + MARK + h.name + v
          + (next.holes[0].name + MARK + Text(Template(next.holes[0].after, next.holes[1..])))
        else u.before + MARK + h.name + MARK + Text(Next(next, name, v))
  {
    var h, next, w := u.holes[0], Template(u.holes[0].after, u.holes[1..]), Next(u, name, v);
    if h.name == name {
      assert Text(w) == u.before + v + Text(next);
    } else {
      TextSplit(w);
      hide Text;
      if h.after == name && next.holes != [] {
        var g := next.holes[0];
        assert w.holes[1..] == u.holes[2..] == next.holes[1..];
        assert w.holes[0].name == h.name + v + g.name;
      } else {
        var x := Next(next, name, v);
        assert w.holes[1..] == x.holes && Template(x.before, x.holes) == x;
      }
    }
  }

  lemma {:induction false} ReplaceIsNext(u: Template, name: string, v: string)
    requires WellFormed(u) && IsName(name) && Plain(v)
    ensures Replace(Text(u), Token(name), v) == Text(Next(u, name, v))
    decreases |u.holes|
  {
    if u.holes == [] {
      AlignedNone(u, name, v);
    } else {
      NextWellFormed(u);
      ReplaceIsNext(Template(u.holes[0].after, u.holes[1..]), name, v);
      hide Replace, Text, Next, WellFormed, IsName, NoPattern;
      ReplaceAtHole(u, name, v);
      NextText(u, name, v);
    }
  }

  /** The tokens that a loop must keep, and the length of their names. */
  function Others(hs: seq<Hole>, name: string): nat {
    if hs == [] then 0 else Others(hs[1..], name) + if hs[0].name == name then 0 else 1
  }

  function Length(hs: seq<Hole>, name: string): nat {
    if hs == [] then 0 else Length(hs[1..], name) + if hs[0].name == name then 0 else |hs[0].name|
  }

  /** `b` lost a token to keep, or one of the names grew. */
  predicate Damaged(a: seq<Hole>, b: seq<Hole>, name: string) {
    Others(b, name) < Others(a, name) || (Others(b, name) == Others(a, name) && Length(b, name) > Length(a, name))
  }

  predicate Alike(a: seq<Hole>, b: seq<Hole>, name: string) {
    Others(b, name) == Others(a, name) && Length(b, name) == Length(a, name)
  }

  lemma {:induction false} NextDamages(u: Template, name: string, v: string)
    requires WellFormed(u)
    ensures var w := Next(u, name, v).holes;
      if FirstAligned(u.holes, name) then Alike(u.holes, w, name) && Next(u, name, v) == FillFirst(u, name, v)
      else Damaged(u.holes, w, name)
    ensures WellFormed(Next(u, name, v)) || !Plain(v)
    ensures |Next(u, name, v).holes| == |u.holes| - if FirstAligned(u.holes, name) && !Has(u, name) then 0 else 1
    decreases |u.holes|
  {
    if u.holes != [] {
      var h, rest, w := u.holes[0], u.holes[1..], Next(u, name, v);
      assert u.holes == [h] + rest;
      NextWellFormed(u);
      if h.name == name {
      } else if h.after == name && rest != [] {
        var g := rest[0];
        assert g in u.holes && rest == [g] + rest[1..];
        assert w.holes[1..] == rest[1..];
      } else {
        var next := Template(h.after, rest);
        NextDamages(next, name, v);
        assert w.holes[1..] == Next(next, name, v).holes;
        assert Has(u, name) <==> Has(next, name);
      }
    }
  }

  predicate AllAligned(u: Template, name: string, v: string)
    decreases |u.holes|
  {
    FirstAligned(u.holes, name) &&
    (Has(u, name) ==> (FillHoles(u, name, v, name); AllAligned(FillFirst(u, name, v), name, v)))
  }

  /** One loop, followed to its end: it keeps the other tokens as they are only if it finds nothing
      but tokens. */
  lemma {:induction false} LoopDamages(u: Template, name: string, v: string) returns (w: Template)
    requires WellFormed(u) && IsName(name) && Plain(v)
    ensures WellFormed(w) && ReplaceAll(Text(u), name, v) == Text(w)
    ensures if AllAligned(u, name, v) then Alike(u.holes, w.holes, name) else Damaged(u.holes, w.holes, name)
    decreases |u.holes|
  {
    hide ReplaceAll, Replace, Text, FirstAligned, WellFormed, NoPattern;
    ReplaceIsNext(u, name, v);
    ReplaceAllStep(Text(u), name, v);
    NextDamages(u, name, v);
    var next := Next(u, name, v);
    if |next.holes| == |u.holes| {
      FillAbsent(u, name, v);
      w := u;
    } else {
      w := LoopDamages(next, name, v);
    }
  }

  lemma {:induction false} FillAlike(u: Template, name: string, v: string)
    ensures Alike(u.holes, FillFirst(u, name, v).holes, name)
    decreases |u.holes|
  {
    if u.holes != [] && u.holes[0].name != name {
      var h, next := u.holes[0], Template(u.holes[0].after, u.holes[1..]);
      FillAlike(next, name, v);
      var w := FillFirst(next, name, v);
      assert ([Hole(h.name, w.before)] + w.holes)[1..] == w.holes;
    }
  }

  /** The template that the simultaneous substitution of one token leaves. */
  lemma {:induction false} FillEvery(u: Template, name: string, v: string) returns (w: Template)
    requires WellFormed(u) && IsName(name) && Plain(v)
    ensures WellFormed(w) && Text(w) == Expand(u, map[name := v]) && Alike(u.holes, w.holes, name)
    decreases |u.holes|
  {
    var tags: Tags := map[name := v];
    if Has(u, name) {
      FillHoles(u, name, v, name);
      FillWellFormed(u, name, v);
      FillExpand(u, tags, name);
      FillAlike(u, name, v);
      hide WellFormed, Text, Expand;
      w := FillEvery(FillFirst(u, name, v), name, v);
    } else {
      w := u;
      ExpandNone(u.holes, tags);
    }
  }

  lemma {:induction false} TextInjective(a: Template, b: Template)
    requires WellFormed(a) && WellFormed(b) && Text(a) == Text(b)
    ensures a == b
    decreases |a.holes|
  {
    TextEnd(a);
    TextEnd(b);
    if a.holes != [] {
      TextSplit(a);
    }
    if b.holes != [] {
      TextSplit(b);
    }
    assert a.holes != [] ==> Text(a)[|a.before|] == '@';
    assert b.holes != [] ==> Text(b)[|b.before|] == '@';
    assert forall k :: 0 <= k < |a.before| ==> a.before[k] in a.before;
    assert forall k :: 0 <= k < |b.before| ==> b.before[k] in b.before;
    if a.holes != [] && b.holes != [] {
      var x, y := Template(a.holes[0].after, a.holes[1..]), Template(b.holes[0].after, b.holes[1..]);
      NextWellFormed(a);
      NextWellFormed(b);
      SameStart(a.before, a.holes[0].name, Text(x), b.before, b.holes[0].name, Text(y));
      TextInjective(x, y);
      assert a.holes == [a.holes[0]] + a.holes[1..] && b.holes == [b.holes[0]] + b.holes[1..];
    }
  }

  lemma SameStart(f: string, m: string, x: string, g: string, n: string, y: string)
    requires f + MARK + (m + MARK + x) == g + MARK + (n + MARK + y)
    requires '@' !in f && '@' !in g && '@' !in m && '@' !in n
    ensures f == g && m == n && x == y
  {
    var s, t := m + MARK + x, n + MARK + y;
    assert f + MARK + s == f + ['@'] + ("@" + s) && g + MARK + t == g + ['@'] + ("@" + t);
    CutAt(f, "@" + s, g, "@" + t, '@');
    SameTails("@", s, t);
    assert s == m + ['@'] + ("@" + x) && t == n + ['@'] + ("@" + y);
    CutAt(m, "@" + x, n, "@" + y, '@');
    SameTails("@", x, y);
  }

  /** Only what follows the first token matters. */
  lemma {:induction false} AllAlignedBefore(u: Template, name: string, v: string, before: string)
    ensures AllAligned(u, name, v) <==> AllAligned(Template(before, u.holes), name, v)
    decreases |u.holes|
  {
    var t := Template(before, u.holes);
    assert Has(t, name) <==> Has(u, name);
    if Has(u, name) {
      FillHoles(u, name, v, name);
      FillShift("", u.before, u.holes, name, v);
      FillShift("", before, u.holes, name, v);
      var w := FillFirst(u, name, v);
      SameHoles(u, t, name, v);
      AllAlignedBefore(w, name, v, FillFirst(t, name, v).before);
    }
  }

  lemma SameHoles(u: Template, t: Template, name: string, v: string)
    requires u.holes == t.holes
    ensures FillFirst(t, name, v) == Template(FillFirst(t, name, v).before, FillFirst(u, name, v).holes)
  {
  }

  lemma {:induction false} AllAlignedRest(u: Template, name: string, v: string)
    requires u.holes != [] && AllAligned(u, name, v)
    ensures AllAligned(Template(u.holes[0].after, u.holes[1..]), name, v)
    decreases |u.holes|
  {
    var h, next := u.holes[0], Template(u.holes[0].after, u.holes[1..]);
    assert u.holes == [h] + next.holes;
    if h.name == name {
      assert h in u.holes;
      AllAlignedBefore(FillFirst(u, name, v), name, v, h.after);
    } else if Has(next, name) {
      assert Has(u, name);
      FillHoles(u, name, v, name);
      var w, f := FillFirst(next, name, v), FillFirst(u, name, v);
      assert f.holes[0].after == w.before && f.holes[1..] == w.holes;
      AllAlignedRest(f, name, v);
    }
  }

  lemma {:induction false} NoClashSelf(name: string, acc: string, hs: seq<Hole>, v: string)
    ensures NoClash(name, acc, hs, map[name := v])
    decreases |hs|
  {
    if hs != [] && hs[0].name == name {
      NoClashSelf(name, acc + v + hs[0].after, hs[1..], v);
    }
  }

  lemma {:induction false} AlignedNoClash(u: Template, name: string, v: string)
    requires u.holes != [] && AllAligned(u, name, v)
    ensures NoClash(u.holes[0].name, u.holes[0].after, u.holes[1..], map[name := v])
    decreases |u.holes|
  {
    var h, rest := u.holes[0], u.holes[1..];
    if h.name == name {
      NoClashSelf(name, h.after, rest, v);
    } else if rest != [] && rest[0].name == name {
      assert rest[0] in u.holes;
      FillHoles(u, name, v, name);
      var f := FillFirst(u, name, v);
      var after := h.after + v + rest[0].after;
      assert f.holes == [Hole(h.name, after)] + rest[1..];
      AlignedNoClash(f, name, v);
    }
  }

  /** The condition for one token: the loop finds nothing but tokens if and only if no literal text
      that can come to stand between another token and a later one reads like the name. */
  lemma {:induction false} AlignedIffClean(u: Template, name: string, v: string)
    ensures AllAligned(u, name, v) <==> Clean(u.holes, map[name := v])
    decreases |u.holes|
  {
    var tags: Tags := map[name := v];
    if Clean(u.holes, tags) {
      CleanAligned(u.holes, tags, name);
      if Has(u, name) {
        FillHoles(u, name, v, name);
        FillClean(u, tags, name);
        AlignedIffClean(FillFirst(u, name, v), name, v);
      }
    }
    if AllAligned(u, name, v) && u.holes != [] {
      AlignedNoClash(u, name, v);
      AllAlignedRest(u, name, v);
      AlignedIffClean(Template(u.holes[0].after, u.holes[1..]), name, v);
    }
  }

  /** The loop for one token is the simultaneous substitution if and only if the template is clean. */
  lemma LoopSubstitutesIff(u: Template, name: string, v: string)
    requires WellFormed(u) && IsName(name) && Plain(v)
    ensures ReplaceAll(Text(u), name, v) == Expand(u, map[name := v]) <==> Clean(u.holes, map[name := v])
  {
    var w := LoopDamages(u, name, v);
    var e := FillEvery(u, name, v);
    AlignedIffClean(u, name, v);
    var tags: Tags := map[name := v];
    if Clean(u.holes, tags) {
      LoopsSubstitute(u, [name], tags);
    } else if Text(w) == Text(e) {
      TextInjective(w, e);
    }
  }

  // ---------- exactly when all the loops are right ----------

  /** Every token called `name` gives way to `v`. */
  function FillAll(u: Template, name: string, v: string): Template
    decreases |u.holes|
  {
    if u.holes == [] then u
    else
      var h, w := u.holes[0], FillAll(Template(u.holes[0].after, u.holes[1..]), name, v);
      if h.name == name then Template(u.before + v + w.before, w.holes)
      else Template(u.before, [Hole(h.name, w.before)] + w.holes)
  }

  lemma {:induction false} FillAllShift(x: string, y: string, hs: seq<Hole>, name: string, v: string)
    ensures var a, b := FillAll(Template(x + y, hs), name, v), FillAll(Template(y, hs), name, v);
      a == Template(x + b.before, b.holes)
  {
    if hs != [] && hs[0].name == name {
      var w := FillAll(Template(hs[0].after, hs[1..]), name, v);
      assert x + y + v + w.before == x + (y + v + w.before);
    }
  }

  /** Filling the first one first makes no difference. */
  lemma {:induction false} FillAllFirst(u: Template, name: string, v: string)
    ensures FillAll(FillFirst(u, name, v), name, v) == FillAll(u, name, v)
    decreases |u.holes|
  {
    if u.holes != [] {
      var h, next := u.holes[0], Template(u.holes[0].after, u.holes[1..]);
      if h.name == name {
        FillAllShift(u.before + v, h.after, u.holes[1..], name, v);
      } else {
        FillAllFirst(next, name, v);
        var w := FillFirst(next, name, v);
        var holes := [Hole(h.name, w.before)] + w.holes;
        assert holes[1..] == w.holes && Template(w.before, w.holes) == w;
      }
    }
  }

  lemma {:induction false} FillAllAbsent(u: Template, name: string, v: string)
    requires !Has(u, name)
    ensures FillAll(u, name, v) == u
    decreases |u.holes|
  {
    if u.holes != [] {
      var h, next := u.holes[0], Template(u.holes[0].after, u.holes[1..]);
      assert h in u.holes;
      assert forall g :: g in next.holes ==> g in u.holes;
      FillAllAbsent(next, name, v);
      assert u.holes == [h] + u.holes[1..];
    }
  }

  /** What is left of a template when one token is filled everywhere. */
  lemma {:induction false} FillAllKeeps(u: Template, tags: Tags, name: string)
    requires name in tags
    ensures var w := FillAll(u, name, tags[name]);
      && Expand(w, tags) == Expand(u, tags) && u.before <= w.before
      && (forall h :: h in w.holes ==> h.name != name && Has(u, h.name))
    decreases |u.holes|
  {
    hide Expand, Token;
    if u.holes != [] {
      var h, next := u.holes[0], Template(u.holes[0].after, u.holes[1..]);
      var w := FillAll(next, name, tags[name]);
      FillAllKeeps(next, tags, name);
      ExpandSplit(u, tags, "");
      assert h in u.holes && forall g :: g in next.holes ==> g in u.holes;
      if h.name == name {
        assert Template(w.before, w.holes) == w;
        ExpandSplit(w, tags, u.before + tags[name]);
      } else {
        var holes := [Hole(h.name, w.before)] + w.holes;
        assert holes[1..] == w.holes && Template(w.before, w.holes) == w;
        ExpandSplit(Template(u.before, holes), tags, "");
      }
    }
  }

  lemma {:induction false} FillAllWellFormed(u: Template, name: string, v: string)
    requires WellFormed(u) && Plain(v)
    ensures WellFormed(FillAll(u, name, v))
    decreases |u.holes|
  {
    if u.holes != [] {
      NextWellFormed(u);
      FillAllWellFormed(Template(u.holes[0].after, u.holes[1..]), name, v);
    }
  }

  /** No known name begins with the name of a token and goes on. */
  predicate NoPrefix(hs: seq<Hole>, tags: Tags) {
    forall h, n :: h in hs && n in tags ==> !(h.name < n)
  }

  /** Somewhere from the left, `f` has kept an unknown token where `e` has more text, or a shorter token
      with text behind it. */
  predicate Differ(f: Template, e: Template, tags: Tags)
    decreases |f.holes|
  {
    f.holes != [] &&
    var g := f.holes[0];
    || (g.name !in tags && f.before < e.before)
    || (f.before == e.before && e.holes != [] &&
          var h := e.holes[0];
          || (g.name !in tags && h.name < g.name && h.after != "")
          || (g.name == h.name && Differ(Template(g.after, f.holes[1..]), Template(h.after, e.holes[1..]), tags)))
  }

  lemma {:induction false} DifferApart(f: Template, e: Template, tags: Tags)
    requires Differ(f, e, tags)
    ensures f != e
    decreases |f.holes|
  {
    if f == e {
      DifferApart(Template(f.holes[0].after, f.holes[1..]), Template(e.holes[0].after, e.holes[1..]), tags);
    }
  }

  /** The text before the first token of `f` is a prefix of that of `e`. */
  lemma DifferBefore(f: Template, e: Template, tags: Tags)
    requires Differ(f, e, tags)
    ensures f.before <= e.before
  {
  }

  lemma {:induction false} DifferTrans(f: Template, e: Template, d: Template, tags: Tags)
    requires Differ(f, e, tags) && Differ(e, d, tags)
    ensures Differ(f, d, tags)
    decreases |f.holes|
  {
    if f.before == e.before == d.before && d.holes != [] && f.holes[0].name == e.holes[0].name == d.holes[0].name {
      DifferTrans(Template(f.holes[0].after, f.holes[1..]), Template(e.holes[0].after, e.holes[1..]),
        Template(d.holes[0].after, d.holes[1..]), tags);
    } else if f.before == e.before == d.before && e.holes[0].name == d.holes[0].name {
      DifferBefore(Template(e.holes[0].after, e.holes[1..]), Template(d.holes[0].after, d.holes[1..]), tags);
    }
  }

  lemma DifferShift(x: string, f: Template, e: Template, tags: Tags)
    requires Differ(f, e, tags)
    ensures Differ(Template(x + f.before, f.holes), Template(x + e.before, e.holes), tags)
  {
    assert f.before < e.before ==> x + f.before < x + e.before;
  }

  /** Filling a known token on both sides keeps them apart. */
  lemma {:induction false} FillDiffer(f: Template, e: Template, tags: Tags, name: string)
    requires Differ(f, e, tags) && name in tags
    ensures Differ(FillAll(f, name, tags[name]), FillAll(e, name, tags[name]), tags)
    decreases |f.holes|
  {
    var v, g := tags[name], f.holes[0];
    var p := FillAll(Template(g.after, f.holes[1..]), name, v);
    FillAllKeeps(e, tags, name);
    if g.name !in tags && f.before < e.before {
      assert FillAll(f, name, v) == Template(f.before, [Hole(g.name, p.before)] + p.holes);
    } else {
      var h := e.holes[0];
      var next := Template(h.after, e.holes[1..]);
      var q := FillAll(next, name, v);
      FillAllKeeps(next, tags, name);
      if g.name !in tags && h.name < g.name && h.after != "" {
        assert FillAll(f, name, v) == Template(f.before, [Hole(g.name, p.before)] + p.holes);
        if h.name == name {
          assert FillAll(e, name, v).before == e.before + v + q.before;
        }
      } else {
        FillDiffer(Template(g.after, f.holes[1..]), next, tags, name);
        if h.name == name {
          DifferShift(f.before + v, p, q, tags);
        } else {
          var a, b := [Hole(g.name, p.before)] + p.holes, [Hole(h.name, q.before)] + q.holes;
          assert a[1..] == p.holes && b[1..] == q.holes;
          assert Template(p.before, p.holes) == p && Template(q.before, q.holes) == q;
        }
      }
    }
  }

  /** A replacement that melts two tokens leaves a token that no loop fills. */
  lemma {:induction false} MeltDiffers(u: Template, tags: Tags, name: string)
    requires WellFormed(u) && NoPrefix(u.holes, tags) && name in tags && name != "" && !FirstAligned(u.holes, name)
    ensures Differ(FillAll(Next(u, name, tags[name]), name, tags[name]), FillAll(u, name, tags[name]), tags)
    decreases |u.holes|
  {
    var v, h, rest := tags[name], u.holes[0], u.holes[1..];
    var next := Template(h.after, rest);
    assert h in u.holes && forall g :: g in rest ==> g in u.holes;
    var q := FillAll(next, name, v);
    FillAllKeeps(next, tags, name);
    if h.after == name && rest != [] {
      var g := rest[0];
      var melted := h.name + v + g.name;
      assert IsName(g.name) && h.name < melted;
      var p := FillAll(Template(g.after, rest[1..]), name, v);
      assert ([Hole(melted, g.after)] + rest[1..])[1..] == rest[1..];
      assert FillAll(Next(u, name, v), name, v) == Template(u.before, [Hole(melted, p.before)] + p.holes);
    } else {
      NextWellFormed(u);
      MeltDiffers(next, tags, name);
      var w := Next(next, name, v);
      assert ([Hole(h.name, w.before)] + w.holes)[1..] == w.holes && Template(w.before, w.holes) == w;
      var p := FillAll(w, name, v);
      var a, b := [Hole(h.name, p.before)] + p.holes, [Hole(h.name, q.before)] + q.holes;
      assert a[1..] == p.holes && b[1..] == q.holes;
      assert Template(p.before, p.holes) == p && Template(q.before, q.holes) == q;
    }
  }

  /** The name of each token after a replacement goes on from that of a token before it. */
  lemma {:induction false} NextNames(u: Template, tags: Tags, name: string, v: string)
    requires NoPrefix(u.holes, tags)
    ensures NoPrefix(Next(u, name, v).holes, tags)
    decreases |u.holes|
  {
    if u.holes != [] {
      var h, rest, w := u.holes[0], u.holes[1..], Next(u, name, v);
      assert h in u.holes && forall g :: g in rest ==> g in u.holes;
      if h.name != name {
        if h.after == name && rest != [] {
          assert h.name <= h.name + v + rest[0].name;
        } else {
          NextNames(Template(h.after, rest), tags, name, v);
        }
      }
    }
  }

  /** One loop, followed to its end: it is the substitution if it finds nothing but tokens, and else
      leaves a token that is never filled. */
  lemma {:induction false} LoopEnds(u: Template, tags: Tags, name: string) returns (w: Template)
    requires GoodTags(tags) && name in tags && WellFormed(u) && NoPrefix(u.holes, tags)
    ensures WellFormed(w) && NoPrefix(w.holes, tags) && ReplaceAll(Text(u), name, tags[name]) == Text(w)
    ensures var e := FillAll(u, name, tags[name]);
      if AllAligned(u, name, tags[name]) then w == e else Differ(w, e, tags)
    decreases |u.holes|
  {
    hide ReplaceAll, Replace, Text, WellFormed, NoPattern, NoPrefix, Differ, FillAll;
    var v := tags[name];
    ReplaceIsNext(u, name, v);
    ReplaceAllStep(Text(u), name, v);
    NextDamages(u, name, v);
    NextNames(u, tags, name, v);
    var next := Next(u, name, v);
    if |next.holes| == |u.holes| {
      FillAbsent(u, name, v);
      FillAllAbsent(u, name, v);
      w := u;
    } else {
      w := LoopEnds(next, tags, name);
      if FirstAligned(u.holes, name) {
        FillAllFirst(u, name, v);
      } else {
        MeltDiffers(u, tags, name);
        if !AllAligned(next, name, v) {
          DifferTrans(w, FillAll(next, name, v), FillAll(u, name, v), tags);
        }
      }
    }
  }

  /** The substitutions one after the other. */
  function Fills(u: Template, order: seq<string>, tags: Tags): Template
    requires forall n :: n in order ==> n in tags
    decreases |order|
  {
    if order == [] then u else
      assert order[0] in order;
      Fills(FillAll(u, order[0], tags[order[0]]), order[1..], tags)
  }

  lemma {:induction false} FillsExpand(u: Template, order: seq<string>, tags: Tags)
    requires GoodTags(tags) && WellFormed(u) && forall n :: n in order ==> n in tags
    ensures Expand(Fills(u, order, tags), tags) == Expand(u, tags) && WellFormed(Fills(u, order, tags))
    ensures forall h :: h in Fills(u, order, tags).holes ==> h.name !in order && Has(u, h.name)
    decreases |order|
  {
    hide Expand, WellFormed, FillAll;
    if order != [] {
      var m := order[0];
      assert m in order && order == [m] + order[1..];
      FillAllKeeps(u, tags, m);
      FillAllWellFormed(u, m, tags[m]);
      FillsExpand(FillAll(u, m, tags[m]), order[1..], tags);
    }
  }

  /** Each loop in turn finds nothing but tokens, in the template that the loops before it have filled. */
  predicate AlignedRun(u: Template, order: seq<string>, tags: Tags)
    requires forall n :: n in order ==> n in tags
    decreases |order|
  {
    order == [] ||
    (assert order[0] in order;
     && AllAligned(u, order[0], tags[order[0]])
     && AlignedRun(FillAll(u, order[0], tags[order[0]]), order[1..], tags))
  }

  /** What has once gone wrong is never mended. */
  lemma {:induction false} LoopsApart(f: Template, e: Template, order: seq<string>, tags: Tags) returns (w: Template)
    requires GoodTags(tags) && (forall n :: n in order ==> n in tags)
    requires WellFormed(f) && NoPrefix(f.holes, tags) && Differ(f, e, tags)
    ensures WellFormed(w) && Loops(Text(f), order, tags) == Text(w) && Differ(w, Fills(e, order, tags), tags)
    decreases |order|
  {
    hide ReplaceAll, Text, WellFormed, NoPrefix, Differ, FillAll, AllAligned;
    if order == [] {
      w := f;
    } else {
      var m := order[0];
      assert m in order && order == [m] + order[1..];
      var x := LoopEnds(f, tags, m);
      FillDiffer(f, e, tags, m);
      if !AllAligned(f, m, tags[m]) {
        DifferTrans(x, FillAll(f, m, tags[m]), FillAll(e, m, tags[m]), tags);
      }
      w := LoopsApart(x, FillAll(e, m, tags[m]), order[1..], tags);
    }
  }

  lemma {:induction false} LoopsEnd(u: Template, order: seq<string>, tags: Tags) returns (w: Template)
    requires GoodTags(tags) && (forall n :: n in order ==> n in tags) && WellFormed(u) && NoPrefix(u.holes, tags)
    ensures WellFormed(w) && Loops(Text(u), order, tags) == Text(w)
    ensures if AlignedRun(u, order, tags) then w == Fills(u, order, tags) else Differ(w, Fills(u, order, tags), tags)
    decreases |order|
  {
    hide ReplaceAll, Text, WellFormed, NoPrefix, Differ, FillAll, AllAligned;
    if order == [] {
      w := u;
    } else {
      var m := order[0];
      assert m in order && order == [m] + order[1..];
      var x := LoopEnds(u, tags, m);
      if AllAligned(u, m, tags[m]) {
        w := LoopsEnd(x, order[1..], tags);
      } else {
        w := LoopsApart(x, FillAll(u, m, tags[m]), order[1..], tags);
      }
    }
  }

  /** Where no known name goes on from the name of a token, the loops are the simultaneous substitution
      if and only if each of them in turn finds nothing but tokens. */
  lemma LoopsSubstituteIff(u: Template, order: seq<string>, tags: Tags)
    requires GoodTags(tags) && (forall n :: n in order <==> n in tags)
    requires WellFormed(u) && NoPrefix(u.holes, tags)
    ensures Loops(Text(u), order, tags) == Expand(u, tags) <==> AlignedRun(u, order, tags)
  {
    hide WellFormed, NoPrefix, Differ, AlignedRun, Loops, Fills;
    var w := LoopsEnd(u, order, tags);
    var e := Fills(u, order, tags);
    FillsExpand(u, order, tags);
    ExpandNone(e.holes, tags);
    if !AlignedRun(u, order, tags) {
      DifferApart(w, e, tags);
      if Text(w) == Text(e) {
        TextInjective(w, e);
      }
    }
  }

  lemma Untouched(w: Template, name: string, v: string)
    requires WellFormed(w) && IsName(name) && Plain(v) && !Has(w, name) && FirstAligned(w.holes, name)
    ensures ReplaceAll(Text(w), name, v) == Text(w)
  {
    ReplaceIff(w, name, v);
    FillAbsent(w, name, v);
    ReplaceAllStep(Text(w), name, v);
  }

  const MISLEADING := Template("", [Hole("A", "N"), Hole("C", "")])
  const MELTED := Template("", [Hole("AnC", "")])

  lemma Melt(a: string, v: string, c: string, x: string)
    ensures "" + MARK + a + v + (c + MARK + x) == "" + MARK + ((a + v + c) + MARK + x)
  {
  }

  /** In `@@A@@N@@C@@` the literal `N` between the tokens `A` and `C` is taken for a token. */
  lemma Misread()
    ensures WellFormed(MISLEADING) && WellFormed(MELTED)
    ensures ReplaceAll(Text(MISLEADING), "N", "n") == Text(MELTED)
  {
    hide Replace, ReplaceAll, Text;
    var u, last := MISLEADING, Template("", []);
    assert u.holes[1..] == [Hole("C", "")] && u.holes[1..][1..] == [] && MELTED.holes[1..] == [];
    ReplaceAtHole(u, "N", "n");
    TextSplit(MELTED);
    Melt("A", "n", "C", Text(last));
    assert "A" + "n" + "C" == "AnC";
    assert Replace(Text(u), Token("N"), "n") == Text(MELTED);
    ReplaceAllStep(Text(u), "N", "n");
    Untouched(MELTED, "N", "n");
  }

  lemma ExpandMisleading(tags: Tags)
    requires "A" in tags && tags["A"] == "a" && "C" in tags && tags["C"] == "c"
    ensures Expand(MISLEADING, tags) == "aNc"
  {
    var u := MISLEADING;
    assert u.holes[1..] == [Hole("C", "")] && u.holes[1..][1..] == [];
    assert ExpandHoles([], tags) == "" && ExpandHoles(u.holes[1..], tags) == "c";
    assert ExpandHoles(u.holes, tags) == "a" + "N" + "c";
  }

  lemma FillMelted(v: string)
    ensures FillFirst(MELTED, "AnC", v) == Template(v, [])
  {
    assert "" + v + "" == v;
  }

  lemma LoopsOne(s: string, m: string, order: seq<string>, tags: Tags)
    requires GoodTags(tags) && m in tags && forall n :: n in order ==> n in tags
    ensures Loops(s, [m] + order, tags) == Loops(ReplaceAll(s, m, tags[m]), order, tags)
    ensures Loops(s, [], tags) == s
  {
    assert ([m] + order)[1..] == order;
  }

  lemma LoopsTwo(s: string, m: string, n: string, order: seq<string>, tags: Tags)
    requires GoodTags(tags) && m in tags && n in tags && forall x :: x in order ==> x in tags
    ensures Loops(s, [m, n] + order, tags) == Loops(ReplaceAll(ReplaceAll(s, m, tags[m]), n, tags[n]), order, tags)
  {
    assert Plain(tags[m]) && Plain(tags[n]);
    hide ReplaceAll, Loops, GoodTags, Plain;
    assert [m, n] + order == [m] + ([n] + order);
    LoopsOne(s, m, [n] + order, tags);
    LoopsOne(ReplaceAll(s, m, tags[m]), n, order, tags);
  }

  lemma MeltedFills()
    ensures ReplaceAll(Text(MELTED), "AnC", "aNc") == "aNc"
    ensures ReplaceAll(ReplaceAll("aNc", "A", "a"), "C", "c") == "aNc"
  {
    hide ReplaceAll, Replace, Text, FillFirst;
    var r := Template("aNc", []);
    TextEnd(r);
    FillMelted("aNc");
    ReplaceIff(MELTED, "AnC", "aNc");
    ReplaceAllStep(Text(MELTED), "AnC", "aNc");
    Untouched(r, "AnC", "aNc");
    Untouched(r, "A", "a");
    Untouched(r, "C", "c");
  }

  function MendTags(): Tags {
    map["A" := "a", "N" := "n", "C" := "c", "AnC" := "aNc"]
  }

  const MEND_ORDER := ["N", "AnC", "A", "C"]

  lemma MendIsGood()
    ensures GoodTags(MendTags()) && forall n :: n in MEND_ORDER ==> n in MendTags()
    ensures !NoPrefix(MISLEADING.holes, MendTags()) && !AllAligned(MISLEADING, "N", "n")
    ensures MendTags()["A"] == "a" && MendTags()["N"] == "n" && MendTags()["C"] == "c" && MendTags()["AnC"] == "aNc"
  {
    var h := MISLEADING.holes[0];
    assert h in MISLEADING.holes && "AnC" in MendTags() && h.name < "AnC";
  }

  /** Where a known name goes on from that of a token, what one loop spoils a later one can mend by
      coincidence, here because the melted token `AnC` has for value the very text that was expected. */
  lemma LoopsMended()
    ensures GoodTags(MendTags()) && forall n :: n in MEND_ORDER ==> n in MendTags()
    ensures WellFormed(MISLEADING) && !NoPrefix(MISLEADING.holes, MendTags())
    ensures !AlignedRun(MISLEADING, MEND_ORDER, MendTags())
    ensures Loops(Text(MISLEADING), MEND_ORDER, MendTags()) == Expand(MISLEADING, MendTags())
  {
    hide ReplaceAll, Loops, Text, Expand, GoodTags, MendTags, AllAligned, NoPrefix;
    var tags := MendTags();
    MendIsGood();
    ExpandMisleading(tags);
    Misread();
    MeltedFills();
    LoopsTwo(Text(MISLEADING), "N", "AnC", ["A", "C"], tags);
    LoopsTwo("aNc", "A", "C", [], tags);
    LoopsOne("aNc", "N", [], tags);
    assert MEND_ORDER == ["N", "AnC"] + ["A", "C"] && ["A", "C"] == ["A", "C"] + [];
  }

  // ---------- the names of the program ----------

  function Dunder(core: string): string {
    "__" + core + "__"
  }

  /** No underscore at either end, and never two in a row. */
  predicate GoodCore(c: string) {
    && c != "" && c[0] != '_' && c[|c| - 1] != '_'
    && forall i :: 0 <= i < |c| - 1 ==> !(c[i] == '_' && c[i + 1] == '_')
  }

  /** No name of this form goes on from another. */
  lemma DundersApart(a: string, b: string)
    requires GoodCore(a) && GoodCore(b)
    ensures !(Dunder(a) < Dunder(b))
  {
    var s, t := Dunder(a), Dunder(b);
    assert s[|a| + 2] == '_' && s[|a| + 3] == '_';
    assert |a| < |b| ==> t[|a| + 2] == b[|a|];
    assert |a| + 1 < |b| ==> t[|a| + 3] == b[|a| + 1];
  }

  predicate DunderNames(names: seq<string>, cores: seq<string>) {
    |names| == |cores| && forall i :: 0 <= i < |names| ==> GoodCore(cores[i]) && names[i] == Dunder(cores[i])
  }

  function NamesOf(hs: seq<Hole>): (ns: seq<string>)
    ensures |ns| == |hs| && forall i :: 0 <= i < |hs| ==> ns[i] == hs[i].name
  {
    seq(|hs|, i requires 0 <= i < |hs| => hs[i].name)
  }

  /** For names of this form the loops are the substitution if and only if each of them in turn finds
      nothing but tokens. */
  lemma DunderLoopsIff(u: Template, order: seq<string>, tags: Tags, holes: seq<string>, cores: seq<string>)
    requires GoodTags(tags) && (forall n :: n in order <==> n in tags) && WellFormed(u)
    requires DunderNames(NamesOf(u.holes), holes) && DunderNames(order, cores)
    ensures Loops(Text(u), order, tags) == Expand(u, tags) <==> AlignedRun(u, order, tags)
  {
    hide Loops, Text, Expand, AlignedRun, WellFormed, GoodTags, GoodCore, Dunder;
    forall h, n | h in u.holes && n in tags
      ensures !(h.name < n)
    {
      var i :| 0 <= i < |u.holes| && u.holes[i] == h;
      var j :| 0 <= j < |order| && order[j] == n;
      assert NamesOf(u.holes)[i] == h.name;
      DundersApart(holes[i], cores[j]);
    }
    LoopsSubstituteIff(u, order, tags);
  }

  /** The tokens of a hook, in the order of their loops. */
  const HOOK_CORES := [
    "CLSDEF", "FQCN", "METHDEF", "METHNAME", "METHSIGN", "ARGS", "HOOK_ARGS", "HOOK_ARGS2", "RET", "ARGS_VAL",
    "HOOK_ID", "CTX", "ARGS_DATA", "RET_DATA", "VAR"]

  function Dunders(cores: seq<string>): (ns: seq<string>)
    ensures |ns| == |cores| && forall i :: 0 <= i < |cores| ==> ns[i] == Dunder(cores[i])
  {
    seq(|cores|, i requires 0 <= i < |cores| => Dunder(cores[i]))
  }

  lemma HookNames()
    ensures DunderNames(Dunders(HOOK_CORES), HOOK_CORES)
  {
    assert GoodCore("CLSDEF") && GoodCore("FQCN") && GoodCore("METHDEF") && GoodCore("METHNAME");
    assert GoodCore("METHSIGN");
    assert GoodCore("ARGS") && GoodCore("HOOK_ARGS") && GoodCore("HOOK_ARGS2") && GoodCore("RET");
    assert GoodCore("ARGS_VAL");
    assert GoodCore("HOOK_ID") && GoodCore("CTX") && GoodCore("ARGS_DATA") && GoodCore("RET_DATA") && GoodCore("VAR");
  }

  /** `@@__HOOK_ID__@@__FQCN__@@__CTX__@@`: two tokens, and between them a text that is no token. */
  const MISREAD := Template("", [Hole(Dunder("HOOK_ID"), Dunder("FQCN")), Hole(Dunder("CTX"), "")])

  /** The loops of a hook take that text for a token, whatever the values. */
  lemma LoopsMisread(tags: Tags)
    requires GoodTags(tags) && forall n :: n in Dunders(HOOK_CORES) <==> n in tags
    ensures WellFormed(MISREAD) && Loops(Text(MISREAD), Dunders(HOOK_CORES), tags) != Expand(MISREAD, tags)
  {
    hide Loops, Text, Expand, GoodTags, FillAll, AllAligned;
    var u, order := MISREAD, Dunders(HOOK_CORES);
    HookNames();
    MisreadNames();
    DunderLoopsIff(u, order, tags, ["HOOK_ID", "CTX"], HOOK_CORES);
    var m, n := order[0], order[1];
    assert m in order && n in order && order[1..][0] == n;
    FillAllAbsent(u, m, tags[m]);
    MisreadAligned(tags[n]);
    assert order[1..] != [];
  }

  lemma MisreadNames()
    ensures WellFormed(MISREAD) && DunderNames(NamesOf(MISREAD.holes), ["HOOK_ID", "CTX"])
    ensures !Has(MISREAD, Dunder("CLSDEF"))
  {
    assert GoodCore("HOOK_ID") && GoodCore("CTX");
    assert |Dunder("CLSDEF")| == 10 && |Dunder("HOOK_ID")| == 11 && |Dunder("CTX")| == 7;
  }

  lemma MisreadAligned(v: string)
    ensures !AllAligned(MISREAD, Dunder("FQCN"), v)
  {
    assert |Dunder("FQCN")| == 8 && |Dunder("HOOK_ID")| == 11;
  }

  // ---------- the program ----------

  /** The do/while loops of the hook builders. */
  method ReplaceTokens(script: string, order: seq<string>, tags: Tags) returns (r: string)
    requires GoodTags(tags) && forall n :: n in order ==> n in tags
    ensures r == Loops(script, order, tags)
  {
    r := script;
    for i := 0 to |order|
      invariant Loops(r, order[i..], tags) == Loops(script, order, tags)
    {
      var n := order[i];
      assert n in order && order[i..][0] == n && order[i..][1..] == order[i + 1..];
      ReplaceAllStep(r, n, tags[n]);
      r := Replace(r, Token(n), tags[n]);
      while Occurs(r, Token(n))
        invariant Loops(ReplaceAll(r, n, tags[n]), order[i + 1..], tags) == Loops(script, order, tags)
        decreases Count(r)
      {
        ReplaceFalls(r, n, tags[n]);
        r := Replace(r, Token(n), tags[n]);
      }
    }
  }

  /** The while loops of custom scripts. */
  method ReplaceTokensFound(script: string, order: seq<string>, tags: Tags) returns (r: string)
    requires GoodTags(tags) && forall n :: n in order ==> n in tags
    ensures r == Loops(script, order, tags)
  {
    r := script;
    for i := 0 to |order|
      invariant Loops(r, order[i..], tags) == Loops(script, order, tags)
    {
      var n := order[i];
      assert n in order && order[i..][0] == n && order[i..][1..] == order[i + 1..];
      while Occurs(r, Token(n))
        invariant Loops(ReplaceAll(r, n, tags[n]), order[i + 1..], tags) == Loops(script, order, tags)
        decreases Count(r)
      {
        ReplaceFalls(r, n, tags[n]);
        r := Replace(r, Token(n), tags[n]);
      }
    }
  }

  const CTX := "__CTX__"

  class HookPrologue {
    var script: string
    var builtScript: string

    /** `context` is `ctx_` and the hash of the parent set. */
    method BuildScript(context: string) returns (r: string)
      requires Plain(context)
      modifies this`builtScript
      ensures r == builtScript == Loops(script, [CTX], map[CTX := context])
      ensures !Occurs(r, Token(CTX))
    {
      assert '@' !in CTX;
      r := ReplaceTokens(script, [CTX], map[CTX := context]);
      Exhausted(script, CTX, context);
      builtScript := r;
    }
  }

  lemma {:induction false} Exhausted(s: string, name: string, v: string)
    requires Plain(v)
    ensures !Occurs(ReplaceAll(s, name, v), Token(name))
    decreases Count(s)
  {
    if Occurs(s, Token(name)) {
      ReplaceFalls(s, name, v);
      Exhausted(Replace(s, Token(name), v), name, v);
    }
  }
}
