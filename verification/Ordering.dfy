/** Python's order on strings, and sorting. */
module Ordering {

  /** Python's order on strings: by code point, a proper prefix first. */
  predicate Less(a: string, b: string) {
    if b == "" then false
    else if a == "" then true
    else if a[0] != b[0] then a[0] < b[0]
    else Less(a[1..], b[1..])
  }

  lemma {:induction false} LessTotal(a: string, b: string)
    ensures (a == b || Less(a, b) || Less(b, a)) && !(Less(a, b) && Less(b, a)) && !Less(a, a)
  {
    if a != "" && b != "" && a[0] == b[0] {
      LessTotal(a[1..], b[1..]);
      assert a == [a[0]] + a[1..] && b == [b[0]] + b[1..];
    }
    if a != "" {
      LessIrreflexive(a);
    }
  }

  lemma {:induction false} LessIrreflexive(a: string)
    ensures !Less(a, a)
  {
    if a != "" {
      LessIrreflexive(a[1..]);
    }
  }

  lemma {:induction false} LessTransitive(a: string, b: string, c: string)
    requires Less(a, b) && Less(b, c)
    ensures Less(a, c)
  {
    if a != "" && a[0] == b[0] == c[0] {
      LessTransitive(a[1..], b[1..], c[1..]);
    }
  }

  /** Sorted without duplicates. */
  ghost predicate Ascending(s: seq<string>) {
    forall i, j | 0 <= i < j < |s| :: Less(s[i], s[j])
  }

  /** Two ascending lists with the same members are the same list. */
  lemma {:induction false} AscendingUnique(s: seq<string>, t: seq<string>)
    requires Ascending(s) && Ascending(t)
    requires forall x :: x in s <==> x in t
    ensures s == t
  {
    var first := if t == [] then "" else t[0];
    assert first in t ==> first in s;
    if s != [] {
      assert s[0] in s;
      var j :| 0 <= j < |t| && t[j] == s[0];
      assert t[0] in t;
      var i :| 0 <= i < |s| && s[i] == t[0];
      LessTotal(s[0], t[0]);
      assert i == 0 && j == 0;
      forall x ensures x in s[1..] <==> x in t[1..] {
        LessIrreflexive(s[0]);
        if x in s[1..] {
          assert x in s && x != s[0];
        }
        if x in t[1..] {
          assert x in t && x != t[0];
        }
      }
      AscendingUnique(s[1..], t[1..]);
    }
  }

  /** `sorted` of a set. */
  method Sorted(s: set<string>) returns (r: seq<string>)
    ensures Ascending(r)
    ensures forall x :: x in r <==> x in s
  {
    r := [];
    var todo := s;
    while todo != {}
      invariant todo <= s && Ascending(r)
      invariant forall x :: x in r <==> x in s - todo
      decreases todo
    {
      var x :| x in todo;
      r := Insert(r, x);
      todo := todo - {x};
    }
  }

  method Insert(s: seq<string>, x: string) returns (r: seq<string>)
    requires Ascending(s) && x !in s
    ensures Ascending(r) && forall y :: y in r <==> y in s || y == x
  {
    var i := 0;
    while i < |s| && Less(s[i], x)
      invariant 0 <= i <= |s|
      invariant forall j | 0 <= j < i :: Less(s[j], x)
    {
      i := i + 1;
    }
    forall j | i <= j < |s| ensures Less(x, s[j]) {
      LessTotal(s[i], x);
      if j > i {
        LessTransitive(x, s[i], s[j]);
      }
    }
    r := s[..i] + [x] + s[i..];
  }
}
