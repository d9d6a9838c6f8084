/** Lexicographic order on strings, the least element of a set of names and
    the sorted listing of a set of names.  The cluster returns the items of a
    list request in name order, and Python sorts machine names the same way;
    both are modelled with `SortedNames`. */
module Ordering {

  /** `a` is at most `b` in character-wise lexicographic order. */
  predicate LexLe(a: string, b: string)
    decreases |a|
  {
    |a| == 0 || (|b| > 0 && (a[0] < b[0] || (a[0] == b[0] && LexLe(a[1..], b[1..]))))
  }

  lemma {:induction false} LexLeReflexive(a: string)
    ensures LexLe(a, a)
    decreases |a|
  {
    if |a| > 0 { LexLeReflexive(a[1..]); }
  }

  lemma {:induction false} LexLeAntisymmetric(a: string, b: string)
    requires LexLe(a, b) && LexLe(b, a)
    ensures a == b
    decreases |a|
  {
    if |a| > 0 {
      LexLeAntisymmetric(a[1..], b[1..]);
      assert a == [a[0]] + a[1..] && b == [b[0]] + b[1..];
    }
  }

  lemma {:induction false} LexLeTransitive(a: string, b: string, c: string)
    requires LexLe(a, b) && LexLe(b, c)
    ensures LexLe(a, c)
    decreases |a|
  {
    if |a| > 0 && a[0] == b[0] && b[0] == c[0] {
      LexLeTransitive(a[1..], b[1..], c[1..]);
    }
  }

  lemma {:induction false} LexLeTotal(a: string, b: string)
    ensures LexLe(a, b) || LexLe(b, a)
    decreases |a|
  {
    if |a| > 0 && |b| > 0 && a[0] == b[0] {
      LexLeTotal(a[1..], b[1..]);
    }
  }

  lemma LexLeAntisymmetry()
    ensures forall a, b :: LexLe(a, b) && LexLe(b, a) ==> a == b
  {
    forall a, b | LexLe(a, b) && LexLe(b, a) ensures a == b {
      LexLeAntisymmetric(a, b);
    }
  }

  /** `m` is a least element of `s`. */
  predicate IsLeast(m: string, s: set<string>)
  {
    m in s && forall x :: x in s ==> LexLe(m, x)
  }

  lemma {:induction false} LeastExists(s: set<string>)
    requires s != {}
    ensures exists m :: IsLeast(m, s)
    decreases |s|
  {
    var x :| x in s;
    var rest := s - {x};
    if rest == {} {
      assert s == {x};
      LexLeReflexive(x);
      assert IsLeast(x, s);
    } else {
      LeastExists(rest);
      var m :| IsLeast(m, rest);
      LexLeTotal(m, x);
      if LexLe(m, x) {
        assert IsLeast(m, s);
      } else {
        LexLeReflexive(x);
        forall y | y in s ensures LexLe(x, y) {
          if y != x { LexLeTransitive(x, m, y); }
        }
        assert IsLeast(x, s);
      }
    }
  }

  /** The least name of a non-empty set (it is unique). */
  function MinName(s: set<string>): (m: string)
    requires s != {}
    ensures IsLeast(m, s)
  {
    LeastExists(s);
    LexLeAntisymmetry();
    var m :| IsLeast(m, s);
    m
  }

  /** The names of `s` in ascending order. */
  function SortedNames(s: set<string>): (r: seq<string>)
    ensures |r| == |s|
    ensures forall x :: x in r <==> x in s
    decreases |s|
  {
    if s == {} then []
    else
      var m := MinName(s);
      [m] + SortedNames(s - {m})
  }

  /** Ascending order: every earlier name is at most every later one. */
  predicate Ascending(r: seq<string>)
  {
    forall i, j :: 0 <= i < j < |r| ==> LexLe(r[i], r[j])
  }

  /** No name appears twice. */
  predicate Distinct(r: seq<string>)
  {
    forall i, j :: 0 <= i < j < |r| ==> r[i] != r[j]
  }

  lemma {:induction false} SortedNamesSorted(s: set<string>)
    ensures Ascending(SortedNames(s)) && Distinct(SortedNames(s))
    decreases |s|
  {
    if s != {} {
      var m := MinName(s);
      SortedNamesSorted(s - {m});
      var r := SortedNames(s);
      assert r == [m] + SortedNames(s - {m});
      forall i, j | 0 <= i < j < |r| ensures LexLe(r[i], r[j]) && r[i] != r[j] {
        if i == 0 {
          assert r[j] in SortedNames(s - {m});
        }
      }
    }
  }

  /** The first name of the sorted listing is the least one. */
  lemma SortedNamesHead(s: set<string>)
    requires s != {}
    ensures SortedNames(s)[0] == MinName(s)
  {
  }
}
