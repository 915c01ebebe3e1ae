/**
 * The order `parameters.keys.sorted(by: <)` puts query keys in: lexicographic comparison
 * of strings, character by character, a proper prefix coming first. Its sorted
 * enumeration of a key set exists and is unique, which is what makes the query encoder
 * deterministic.
 */
module KeyOrder {

  /** `a < b` on strings. */
  predicate Less(a: string, b: string)
    decreases |a|
  {
    if |a| == 0 then |b| > 0
    else if |b| == 0 then false
    else if a[0] != b[0] then a[0] < b[0]
    else Less(a[1..], b[1..])
  }

  lemma {:induction false} LessIrreflexive(a: string)
    ensures !Less(a, a)
    decreases |a|
  {
    if |a| > 0 {
      LessIrreflexive(a[1..]);
    }
  }

  lemma {:induction false} LessTransitive(a: string, b: string, c: string)
    requires Less(a, b) && Less(b, c)
    ensures Less(a, c)
    decreases |a|
  {
    if |a| > 0 && a[0] == b[0] && b[0] == c[0] {
      LessTransitive(a[1..], b[1..], c[1..]);
    }
  }

  lemma {:induction false} LessTotal(a: string, b: string)
    requires a != b
    ensures Less(a, b) || Less(b, a)
    decreases |a|
  {
    if |a| > 0 && |b| > 0 && a[0] == b[0] {
      assert a == [a[0]] + a[1..] && b == [b[0]] + b[1..];
      LessTotal(a[1..], b[1..]);
    }
  }

  lemma LessAsymmetric(a: string, b: string)
    requires Less(a, b)
    ensures !Less(b, a)
  {
    if Less(b, a) {
      LessTransitive(a, b, a);
      LessIrreflexive(a);
    }
  }

  /** `ks` lists the elements of `s` in strictly ascending order. */
  ghost predicate SortedEnumeration(ks: seq<string>, s: set<string>)
  {
    && (forall i, j :: 0 <= i < j < |ks| ==> Less(ks[i], ks[j]))
    && (forall k :: k in s <==> k in ks)
  }

  /** The least element of `s`. */
  ghost predicate IsLeast(m: string, s: set<string>)
  {
    m in s && forall x :: x in s && x != m ==> Less(m, x)
  }

  lemma {:induction false} LeastExists(s: set<string>)
    requires s != {}
    ensures exists m :: IsLeast(m, s)
    decreases |s|
  {
    var y :| y in s;
    if s == {y} {
      assert IsLeast(y, s);
    } else {
      LeastExists(s - {y});
      var m :| IsLeast(m, s - {y});
      if Less(m, y) {
        assert IsLeast(m, s);
      } else {
        LessTotal(m, y);
        forall x | x in s && x != y ensures Less(y, x) {
          if x != m {
            LessTransitive(y, m, x);
          }
        }
        assert IsLeast(y, s);
      }
    }
  }

  lemma {:induction false} SortedEnumerationExists(s: set<string>)
    ensures exists ks :: SortedEnumeration(ks, s)
    decreases |s|
  {
    if s == {} {
      assert SortedEnumeration([], s);
    } else {
      LeastExists(s);
      var m :| IsLeast(m, s);
      SortedEnumerationExists(s - {m});
      var rest :| SortedEnumeration(rest, s - {m});
      var ks := [m] + rest;
      forall i, j | 0 <= i < j < |ks| ensures Less(ks[i], ks[j]) {
        if i == 0 {
          assert ks[j] == rest[j - 1] && ks[j] in s - {m};
        } else {
          assert ks[i] == rest[i - 1] && ks[j] == rest[j - 1];
        }
      }
      assert SortedEnumeration(ks, s);
    }
  }

  /** The sorted keys of `s`. */
  ghost function Sorted(s: set<string>): (ks: seq<string>)
    ensures SortedEnumeration(ks, s)
    ensures |ks| == |s|
  {
    SortedEnumerationExists(s);
    var ks :| SortedEnumeration(ks, s);
    EnumerationSize(ks, s);
    ks
  }

  /** A strictly ascending enumeration of a set is unique. */
  lemma {:induction false} SortedEnumerationUnique(a: seq<string>, b: seq<string>, s: set<string>)
    requires SortedEnumeration(a, s) && SortedEnumeration(b, s)
    ensures a == b
    decreases |a|
  {
    EnumerationSize(a, s);
    EnumerationSize(b, s);
    if |a| > 0 {
      if a[0] != b[0] {
        assert a[0] in s && b[0] in s;
        var i :| 0 <= i < |a| && a[i] == b[0];
        var j :| 0 <= j < |b| && b[j] == a[0];
        assert Less(a[0], b[0]) by { assert i != 0; }
        assert Less(b[0], a[0]) by { assert j != 0; }
        LessAsymmetric(a[0], b[0]);
      }
      var m := a[0];
      SuffixEnumeration(a, s);
      SuffixEnumeration(b, s);
      SortedEnumerationUnique(a[1..], b[1..], s - {m});
      assert a == [m] + a[1..] && b == [m] + b[1..];
    }
  }

  /** A strictly ascending enumeration lists each element once. */
  lemma {:induction false} EnumerationSize(a: seq<string>, s: set<string>)
    requires SortedEnumeration(a, s)
    ensures |a| == |s|
    decreases |a|
  {
    if |a| == 0 {
      assert s == {};
    } else {
      SuffixEnumeration(a, s);
      EnumerationSize(a[1..], s - {a[0]});
    }
  }

  lemma SuffixEnumeration(a: seq<string>, s: set<string>)
    requires SortedEnumeration(a, s) && |a| > 0
    ensures SortedEnumeration(a[1..], s - {a[0]})
  {
    forall k | k in a[1..] ensures k != a[0] {
      var i :| 0 <= i < |a[1..]| && a[1..][i] == k;
      assert a[i + 1] == k;
      LessIrreflexive(a[0]);
    }
    forall k | k in s - {a[0]} ensures k in a[1..] {
      var i :| 0 <= i < |a| && a[i] == k;
      assert i != 0;
      assert a[1..][i - 1] == k;
    }
  }

  /**
   * `keys.sorted(by: <)`, computed by repeated selection of the least remaining key.
   */
  method SortKeys(s: set<string>) returns (ks: seq<string>)
    ensures ks == Sorted(s)
  {
    ks := [];
    var rest := s;
    while rest != {}
      invariant rest <= s
      invariant forall k :: k in s <==> k in ks || k in rest
      invariant forall k :: k in ks ==> k !in rest
      invariant forall i, j :: 0 <= i < j < |ks| ==> Less(ks[i], ks[j])
      invariant forall i, x :: 0 <= i < |ks| && x in rest ==> Less(ks[i], x)
      decreases |rest|
    {
      var m := LeastOf(rest);
      forall i, x | 0 <= i < |ks + [m]| && x in rest - {m} ensures Less((ks + [m])[i], x) {
        if i == |ks| {
          assert (ks + [m])[i] == m;
        } else {
          assert (ks + [m])[i] == ks[i];
        }
      }
      ks := ks + [m];
      rest := rest - {m};
    }
    SortedEnumerationUnique(ks, Sorted(s), s);
  }

  /** Selects the least element of a non-empty set by one pass over it. */
  method LeastOf(s: set<string>) returns (m: string)
    requires s != {}
    ensures IsLeast(m, s)
  {
    m :| m in s;
    var seen := {m};
    while seen != s
      invariant seen <= s && m in seen
      invariant forall x :: x in seen && x != m ==> Less(m, x)
      decreases |s - seen|
    {
      var x :| x in s - seen;
      if Less(x, m) {
        forall y | y in seen && y != m ensures Less(x, y) {
          LessTransitive(x, m, y);
        }
        m := x;
      } else {
        LessTotal(x, m);
      }
      seen := seen + {x};
    }
  }

  /** `order` is an iteration order of a dictionary with keys `s`: each key exactly once. */
  ghost predicate IsEnumeration(order: seq<string>, s: set<string>)
  {
    && (forall i, j :: 0 <= i < j < |order| ==> order[i] != order[j])
    && (forall k :: k in s <==> k in order)
  }
}
