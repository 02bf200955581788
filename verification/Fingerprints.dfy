/** Device fingerprints and the test that compares them. */
module Fingerprints {
  import opened Model

  type Fingerprint = map<string, string>

  // ---------- sorting strings ----------

  /** The order of `sort`, by code units. */
  predicate Le(a: string, b: string) {
    a == "" || (b != "" && (a[0] < b[0] || (a[0] == b[0] && Le(a[1..], b[1..]))))
  }

  lemma {:induction false} LeOrder(a: string, b: string)
    ensures Le(a, a) && (Le(a, b) || Le(b, a))
    ensures Le(a, b) && Le(b, a) ==> a == b
  {
    if a != "" {
      LeOrder(a[1..], if b == "" then "" else b[1..]);
    }
  }

  lemma {:induction false} LeTransitive(a: string, b: string, c: string)
    requires Le(a, b) && Le(b, c)
    ensures Le(a, c)
  {
    if a != "" && a[0] == b[0] == c[0] {
      LeTransitive(a[1..], b[1..], c[1..]);
    }
  }

  predicate IsLeast(m: string, ks: set<string>) {
    m in ks && forall k :: k in ks ==> Le(m, k)
  }

  lemma {:induction false} HasLeast(ks: set<string>)
    requires ks != {}
    ensures exists m :: IsLeast(m, ks)
  {
    var k :| k in ks;
    var rest := ks - {k};
    LeOrder(k, k);
    if rest == {} {
      assert forall x :: x in ks ==> x == k || x in rest;
      assert IsLeast(k, ks);
    } else {
      HasLeast(rest);
      var n :| IsLeast(n, rest);
      LeOrder(k, n);
      var m := if Le(k, n) then k else n;
      forall x | x in ks
        ensures Le(m, x)
      {
        if x != k && m == k {
          LeTransitive(k, n, x);
        }
      }
      assert IsLeast(m, ks);
    }
  }

  ghost function Least(ks: set<string>): (m: string)
    requires ks != {}
    ensures IsLeast(m, ks)
  {
    HasLeast(ks);
    var m :| IsLeast(m, ks);
    m
  }

  lemma LeastUnique(m: string, ks: set<string>)
    requires IsLeast(m, ks)
    ensures m == Least(ks)
  {
    LeOrder(m, Least(ks));
  }

  ghost function Sorted(ks: set<string>): (s: seq<string>)
    ensures forall k :: k in ks <==> k in s
  {
    if ks == {} then [] else [Least(ks)] + Sorted(ks - {Least(ks)})
  }

  /** `join('')`. */
  function Concat(s: seq<string>): string {
    if s == [] then "" else s[0] + Concat(s[1..])
  }

  // ---------- the comparison ----------

  /** Compares the values of the listed keys of `a`; none where `b` has no such key, which the hash
      function rejects. */
  function CompareFrom(s: seq<string>, a: Fingerprint, b: Fingerprint): Option<bool>
    requires forall k :: k in s ==> k in a
  {
    if s == [] then Some(true)
    else
      assert s[0] in s;
      if s[0] !in b then None
      else if a[s[0]] != b[s[0]] then Some(false)
      else CompareFrom(s[1..], a, b)
  }

  ghost function Compare(a: Fingerprint, b: Fingerprint): Option<bool> {
    if Concat(Sorted(a.Keys)) != Concat(Sorted(b.Keys)) then Some(false)
    else CompareFrom(Sorted(a.Keys), a, b)
  }

  /** The sorted keys run together read the same for the same keys only. */
  ghost predicate Comparable(a: Fingerprint, b: Fingerprint) {
    Concat(Sorted(a.Keys)) == Concat(Sorted(b.Keys)) ==> a.Keys == b.Keys
  }

  lemma {:induction false} CompareAgrees(s: seq<string>, a: Fingerprint, b: Fingerprint)
    requires forall k :: k in s ==> k in a
    ensures CompareFrom(s, a, b) == Some(true) <==> forall k :: k in s ==> k in b && b[k] == a[k]
    ensures (forall k :: k in s ==> k in b) ==>
      CompareFrom(s, a, b) == Some(forall k :: k in s ==> k in b && b[k] == a[k])
  {
    if s != [] {
      assert s == [s[0]] + s[1..];
      CompareAgrees(s[1..], a, b);
    }
  }

  /** On comparable fingerprints the test is equality, hence an equivalence. */
  lemma CompareIsEquality(a: Fingerprint, b: Fingerprint)
    requires Comparable(a, b)
    ensures Compare(a, b) == Some(a == b)
  {
    CompareAgrees(Sorted(a.Keys), a, b);
    var s := Sorted(a.Keys);
    assert forall k :: k in a ==> k in a.Keys && k in s;
    if a.Keys == b.Keys {
      assert forall k :: k in s ==> k in b.Keys && k in b;
      if forall k :: k in s ==> k in b && b[k] == a[k] {
        assert a == b;
      }
    } else {
      assert a != b;
    }
  }

  // ---------- when fingerprints pass for equal ----------

  ghost function Total(ks: set<string>): nat {
    |Concat(Sorted(ks))|
  }

  lemma {:induction false} TotalRemove(ks: set<string>, k: string)
    requires k in ks
    ensures Total(ks) == Total(ks - {k}) + |k|
  {
    var m := Least(ks);
    var s := Sorted(ks);
    assert s[0] == m && s[1..] == Sorted(ks - {m});
    if k != m {
      var rest := ks - {k};
      assert IsLeast(m, rest);
      LeastUnique(m, rest);
      assert Sorted(rest)[0] == m && Sorted(rest)[1..] == Sorted(rest - {m});
      TotalRemove(ks - {m}, k);
      assert ks - {m} - {k} == rest - {m};
    }
  }

  lemma {:induction false} TotalGrows(a: set<string>, b: set<string>)
    requires a <= b
    ensures Total(a) <= Total(b)
    ensures Total(a) == Total(b) ==> b - {""} <= a
  {
    if a != b {
      var k :| k in b && k !in a;
      TotalRemove(b, k);
      TotalGrows(a, b - {k});
    }
  }

  lemma EmptyKeyFirst(ks: set<string>)
    requires "" !in ks
    ensures Concat(Sorted(ks + {""})) == Concat(Sorted(ks))
  {
    var more := ks + {""};
    assert IsLeast("", more);
    LeastUnique("", more);
    assert more - {""} == ks;
    assert Sorted(more)[0] == "" && Sorted(more)[1..] == Sorted(ks);
  }

  /** The test answers yes exactly when the fingerprints are equal, but for an entry under the empty
      key that only the second may have. */
  lemma CompareYes(a: Fingerprint, b: Fingerprint)
    ensures Compare(a, b) == Some(true) <==>
      a.Keys <= b.Keys && b.Keys - {""} <= a.Keys && forall k :: k in a ==> b[k] == a[k]
  {
    CompareAgrees(Sorted(a.Keys), a, b);
    if Compare(a, b) == Some(true) {
      assert a.Keys <= b.Keys;
      TotalGrows(a.Keys, b.Keys);
    }
    if a.Keys <= b.Keys && b.Keys - {""} <= a.Keys && a.Keys != b.Keys {
      assert b.Keys == a.Keys + {""} && "" !in a;
      EmptyKeyFirst(a.Keys);
    }
  }

  // ---------- when the comparison fails ----------

  /** The first listed key that `b` lacks or values differently is one that it lacks. */
  ghost predicate FirstLacks(s: seq<string>, a: Fingerprint, b: Fingerprint, i: nat) {
    && i < |s| && s[i] !in b
    && forall j :: 0 <= j < i ==> s[j] in a && s[j] in b && b[s[j]] == a[s[j]]
  }

  lemma {:induction false} CompareFromFails(s: seq<string>, a: Fingerprint, b: Fingerprint)
    requires forall k :: k in s ==> k in a
    ensures CompareFrom(s, a, b).None? <==> exists i :: FirstLacks(s, a, b, i)
  {
    if s != [] {
      var rest := s[1..];
      assert s == [s[0]] + rest;
      CompareFromFails(rest, a, b);
      if s[0] !in b {
        assert FirstLacks(s, a, b, 0);
      }
      if i: nat :| FirstLacks(rest, a, b, i) && s[0] in b && b[s[0]] == a[s[0]] {
        assert FirstLacks(s, a, b, i + 1);
      }
      if i: nat :| FirstLacks(s, a, b, i) && i > 0 {
        assert FirstLacks(rest, a, b, i - 1);
      }
    }
  }

  /** The comparison fails exactly when the joined keys agree and the first key of the device that the
      other fingerprint lacks or values differently is one that it lacks. */
  lemma CompareFails(a: Fingerprint, b: Fingerprint)
    ensures Compare(a, b).None? <==>
      Concat(Sorted(a.Keys)) == Concat(Sorted(b.Keys)) && exists i :: FirstLacks(Sorted(a.Keys), a, b, i)
  {
    CompareFromFails(Sorted(a.Keys), a, b);
  }

  lemma SortedPair(x: string, y: string)
    requires Le(x, y) && x != y
    ensures Sorted({x, y}) == [x, y] && Concat(Sorted({x, y})) == x + y
  {
    LeOrder(x, x);
    LeOrder(y, y);
    assert IsLeast(x, {x, y}) && IsLeast(y, {y});
    LeastUnique(x, {x, y});
    LeastUnique(y, {y});
    assert {x, y} - {x} == {y} && {y} - {y} == {};
    assert Sorted({y}) == [y] + Sorted({});
    assert Concat([y]) == y + Concat([]);
    assert [x, y][1..] == [y];
  }

  /** The keys `a` and `bc` run together like `ab` and `c`: the comparison of any values fails. */
  lemma KeysCollide(x: string, y: string, u: string, v: string)
    ensures Compare(map["a" := x, "bc" := y], map["ab" := u, "c" := v]) == None
  {
    var a, b := map["a" := x, "bc" := y], map["ab" := u, "c" := v];
    assert Le("a", "bc") && Le("ab", "c");
    SortedPair("a", "bc");
    SortedPair("ab", "c");
    assert a.Keys == {"a", "bc"} && b.Keys == {"ab", "c"};
    assert "a" + "bc" == "ab" + "c";
    assert FirstLacks(["a", "bc"], a, b, 0);
    CompareFails(a, b);
  }

  // ---------- the program ----------

  method SortKeys(keys: set<string>) returns (s: seq<string>)
    ensures s == Sorted(keys)
  {
    s := [];
    var rest := keys;
    while rest != {}
      invariant Sorted(keys) == s + Sorted(rest)
    {
      HasLeast(rest);
      var m :| IsLeast(m, rest);
      LeastUnique(m, rest);
      s, rest := s + [m], rest - {m};
    }
  }

  method EqualsUIDFP(a: Fingerprint, b: Fingerprint) returns (r: Option<bool>)
    ensures r == Compare(a, b)
  {
    var k1 := SortKeys(a.Keys);
    var k2 := SortKeys(b.Keys);
    if Concat(k1) != Concat(k2) {
      return Some(false);
    }
    for i := 0 to |k1|
      invariant CompareFrom(k1, a, b) == CompareFrom(k1[i..], a, b)
    {
      assert k1[i] in k1 && k1[i..][0] == k1[i] && k1[i..][1..] == k1[i + 1..];
      if k1[i] !in b {
        return None;
      }
      if a[k1[i]] != b[k1[i]] {
        return Some(false);
      }
    }
    return Some(true);
  }
}
