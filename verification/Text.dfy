/** The string operations the program relies on: searching, splitting and joining. */
module Text {

  /** Index of the first occurrence of a character, or the length of the string. */
  function Find(s: string, c: char): (i: nat)
    ensures i <= |s| && c !in s[..i]
    ensures i < |s| <==> c in s
    ensures i < |s| ==> s[i] == c
  {
    if s == "" then 0
    else if s[0] == c then 0
    else
      var i := 1 + Find(s[1..], c);
      assert s[..i] == [s[0]] + s[1..][..i - 1];
      i
  }

  /** `String.split` on one character: never empty. */
  function Split(s: string, c: char): (parts: seq<string>)
    ensures |parts| > 0 && forall p :: p in parts ==> c !in p
    decreases |s|
  {
    var i := Find(s, c);
    assert s[..i] == s || i < |s|;
    if i == |s| then [s] else [s[..i]] + Split(s[i + 1..], c)
  }

  function Join(parts: seq<string>, c: char): string
    requires |parts| > 0
  {
    if |parts| == 1 then parts[0] else parts[0] + [c] + Join(parts[1..], c)
  }

  lemma SplitStep(s: string, c: char)
    ensures c !in s ==> Split(s, c) == [s]
    ensures c in s ==> Find(s, c) < |s| && s == s[..Find(s, c)] + [c] + s[Find(s, c) + 1..]
                       && Split(s, c) == [s[..Find(s, c)]] + Split(s[Find(s, c) + 1..], c)
  {
  }

  lemma JoinCons(p: string, parts: seq<string>, c: char)
    requires |parts| > 0
    ensures Join([p] + parts, c) == p + [c] + Join(parts, c)
  {
    assert ([p] + parts)[1..] == parts;
  }

  lemma {:induction false} JoinSplit(s: string, c: char)
    ensures Join(Split(s, c), c) == s
    decreases |s|
  {
    hide Split;
    SplitStep(s, c);
    if c in s {
      var i := Find(s, c);
      JoinSplit(s[i + 1..], c);
      JoinCons(s[..i], Split(s[i + 1..], c), c);
    }
  }

  lemma FindAfter(p: string, c: char, rest: string)
    requires c !in p
    ensures Find(p + [c] + rest, c) == |p|
  {
    var s := p + [c] + rest;
    assert s[|p|] == c;
    var i := Find(s, c);
    assert forall k :: 0 <= k < |p| ==> s[k] == p[k] && p[k] in p;
    assert forall k :: 0 <= k < i ==> s[k] in s[..i];
  }

  lemma {:induction false} SplitJoin(parts: seq<string>, c: char)
    requires |parts| > 0 && forall p :: p in parts ==> c !in p
    ensures Split(Join(parts, c), c) == parts
  {
    hide Split;
    SplitStep(Join(parts, c), c);
    if |parts| == 1 {
      assert parts == [parts[0]];
    } else {
      var rest := Join(parts[1..], c);
      FindAfter(parts[0], c, rest);
      var s := Join(parts, c);
      assert s[..|parts[0]|] == parts[0] && s[|parts[0]| + 1..] == rest;
      SplitJoin(parts[1..], c);
    }
  }

  lemma {:induction false} JoinAppend(parts: seq<string>, p: string, c: char)
    requires |parts| > 0
    ensures Join(parts + [p], c) == Join(parts, c) + [c] + p
  {
    if |parts| == 1 {
      assert (parts + [p])[1..] == [p];
    } else {
      JoinAppend(parts[1..], p, c);
      assert (parts + [p])[1..] == parts[1..] + [p];
    }
  }
}
