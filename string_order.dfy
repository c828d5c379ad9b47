/**
 * Python's ordering of `str` values and `sorted()` applied to a set of strings.
 * Strings compare lexicographically by code point; a proper prefix is smaller.
 */
module StringOrder {

  /** `a < b` on Python strings. */
  predicate Less(a: string, b: string)
    decreases |a|
  {
    if a == [] then b != []
    else if b == [] then false
    else if a[0] != b[0] then a[0] < b[0]
    else Less(a[1..], b[1..])
  }

  lemma {:induction false} LessIrreflexive(a: string)
    ensures !Less(a, a)
    decreases |a|
  {
    if a != [] {
      LessIrreflexive(a[1..]);
    }
  }

  lemma {:induction false} LessTransitive(a: string, b: string, c: string)
    requires Less(a, b) && Less(b, c)
    ensures Less(a, c)
    decreases |a|
  {
    if a != [] && a[0] == b[0] && b[0] == c[0] {
      LessTransitive(a[1..], b[1..], c[1..]);
    }
  }

  lemma {:induction false} LessTotal(a: string, b: string)
    ensures a == b || Less(a, b) || Less(b, a)
    decreases |a|
  {
    if a != [] && b != [] && a[0] == b[0] {
      LessTotal(a[1..], b[1..]);
      assert a == [a[0]] + a[1..] && b == [b[0]] + b[1..];
    }
  }

  /** `m` is the smallest element of `s`. */
  predicate IsLeast(m: string, s: set<string>)
  {
    m in s && forall x :: x in s && x != m ==> Less(m, x)
  }

  lemma {:induction false} LeastExists(s: set<string>)
    requires s != {}
    ensures exists m :: IsLeast(m, s)
    decreases |s|
  {
    var x :| x in s;
    if s == {x} {
      assert IsLeast(x, s);
    } else {
      LeastExists(s - {x});
      var m :| IsLeast(m, s - {x});
      LessTotal(x, m);
      if Less(x, m) {
        forall y | y in s && y != x
          ensures Less(x, y)
        {
          if y != m {
            LessTransitive(x, m, y);
          }
        }
        assert IsLeast(x, s);
      } else {
        assert IsLeast(m, s);
      }
    }
  }

  lemma LeastUnique(s: set<string>)
    ensures forall m, n :: IsLeast(m, s) && IsLeast(n, s) ==> m == n
  {
    forall m, n | IsLeast(m, s) && IsLeast(n, s)
      ensures m == n
    {
      if m != n {
        LessTransitive(m, n, m);
        LessIrreflexive(m);
      }
    }
  }

  /** Every element is smaller than every later one (so the sequence has no duplicates). */
  predicate StrictlyAscending(r: seq<string>)
  {
    forall i, j :: 0 <= i < j < |r| ==> Less(r[i], r[j])
  }

  /**
   * Appending the last element of an ascending `s` to an ascending selection
   * `r` of the earlier elements keeps `r` ascending.
   */
  lemma AscendingAppend(r: seq<string>, s: seq<string>, x: string)
    requires StrictlyAscending(s + [x])
    requires StrictlyAscending(r)
    requires forall p :: p in r ==> p in s
    ensures StrictlyAscending(r + [x])
  {
    forall i | 0 <= i < |r|
      ensures Less(r[i], x)
    {
      assert r[i] in r && r[i] in s;
      var k :| 0 <= k < |s| && s[k] == r[i];
      assert (s + [x])[k] == s[k] && (s + [x])[|s|] == x;
    }
  }

  /** `sorted(s)` for a set of strings: its elements, each once, in ascending order. */
  function Sorted(s: set<string>): (r: seq<string>)
    ensures |r| == |s|
    ensures forall x :: x in r <==> x in s
    ensures StrictlyAscending(r)
    decreases |s|
  {
    if s == {} then []
    else
      LeastExists(s);
      LeastUnique(s);
      var m :| IsLeast(m, s);
      [m] + Sorted(s - {m})
  }

  /** An ascending listing of a set is unique: any one of them is `Sorted(s)`. */
  lemma {:induction false} SortedUnique(r: seq<string>, s: set<string>)
    requires StrictlyAscending(r)
    requires forall x :: x in r <==> x in s
    ensures r == Sorted(s)
    decreases |s|
  {
    if r == [] {
      assert s == {};
    } else {
      assert r[0] in s;
      assert IsLeast(r[0], s) by {
        forall x | x in s && x != r[0]
          ensures Less(r[0], x)
        {
          var j :| 0 <= j < |r| && r[j] == x;
          assert j != 0;
        }
      }
      LeastUnique(s);
      var rest := Sorted(s - {r[0]});
      assert Sorted(s) == [r[0]] + rest;
      forall x
        ensures x in r[1..] <==> x in s - {r[0]}
      {
        if x in r[1..] {
          var j :| 1 <= j < |r| && r[j] == x;
          assert Less(r[0], r[j]);
          LessIrreflexive(x);
        }
        if x in s - {r[0]} {
          var j :| 0 <= j < |r| && r[j] == x;
          assert j != 0;
          assert r[1..][j - 1] == x;
        }
      }
      SortedUnique(r[1..], s - {r[0]});
    }
  }
}
