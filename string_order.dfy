/**
 * The order Python's `sorted` puts strings in: character by character on
 * code points, a proper prefix before any longer string.
 */
module StringOrder {

  /** `a <= b` on Python strings. */
  predicate LexLe(a: string, b: string)
    decreases |a|
  {
    a == [] || (b != [] && (a[0] < b[0] || (a[0] == b[0] && LexLe(a[1..], b[1..]))))
  }

  /** `a < b` on Python strings. */
  predicate LexLt(a: string, b: string) {
    LexLe(a, b) && a != b
  }

  lemma {:induction false} LexLeReflexive(a: string)
    ensures LexLe(a, a)
    decreases |a|
  {
    if a != [] {
      LexLeReflexive(a[1..]);
    }
  }

  lemma {:induction false} LexLeAntisymmetric(a: string, b: string)
    requires LexLe(a, b) && LexLe(b, a)
    ensures a == b
    decreases |a|
  {
    if a != [] && b != [] {
      LexLeAntisymmetric(a[1..], b[1..]);
      assert a == [a[0]] + a[1..] && b == [b[0]] + b[1..];
    }
  }

  lemma {:induction false} LexLeTransitive(a: string, b: string, c: string)
    requires LexLe(a, b) && LexLe(b, c)
    ensures LexLe(a, c)
    decreases |a|
  {
    if a != [] && a[0] == b[0] && b[0] == c[0] {
      LexLeTransitive(a[1..], b[1..], c[1..]);
    }
  }

  lemma {:induction false} LexLeTotal(a: string, b: string)
    ensures LexLe(a, b) || LexLe(b, a)
    decreases |a|
  {
    if a != [] && b != [] && a[0] == b[0] {
      LexLeTotal(a[1..], b[1..]);
    }
  }

  /** `m` is the first of `s` in sorted order. */
  predicate IsLeast(m: string, s: set<string>) {
    m in s && forall y :: y in s ==> LexLe(m, y)
  }

  /** Every non-empty set of strings has a first element in sorted order. */
  lemma {:induction false} LeastExists(s: set<string>)
    requires s != {}
    ensures exists m :: IsLeast(m, s)
    decreases |s|
  {
    var x :| x in s;
    if s == {x} {
      LexLeReflexive(x);
      assert IsLeast(x, s);
    } else {
      LeastExists(s - {x});
      var m' :| IsLeast(m', s - {x});
      LexLeTotal(x, m');
      if LexLe(x, m') {
        LexLeReflexive(x);
        forall y | y in s ensures LexLe(x, y) {
          if y != x { LexLeTransitive(x, m', y); }
        }
        assert IsLeast(x, s);
      } else {
        assert IsLeast(m', s);
      }
    }
  }

  /** Each element comes strictly before every later one: sorted and without repeats. */
  predicate StrictlySorted(xs: seq<string>) {
    forall i, j :: 0 <= i < j < |xs| ==> LexLt(xs[i], xs[j])
  }

  function Elements(xs: seq<string>): set<string> {
    set x | x in xs
  }

  /**
   * A set has exactly one strictly sorted listing, so `sorted(list(s))` is
   * determined by the set alone.
   */
  lemma {:induction false} SortedUnique(a: seq<string>, b: seq<string>)
    requires StrictlySorted(a) && StrictlySorted(b) && Elements(a) == Elements(b)
    ensures a == b
    decreases |a|
  {
    HeadInElements(a);
    HeadInElements(b);
    if a != [] {
      assert a[0] in Elements(b);
      assert b != [];
      assert b[0] in Elements(a);
      var i :| 0 <= i < |a| && a[i] == b[0];
      var j :| 0 <= j < |b| && b[j] == a[0];
      if i != 0 { assert LexLe(a[0], a[i]); } else { LexLeReflexive(a[0]); }
      if j != 0 { assert LexLe(b[0], b[j]); } else { LexLeReflexive(b[0]); }
      LexLeAntisymmetric(a[0], b[0]);
      RestElements(a);
      RestElements(b);
      SortedUnique(a[1..], b[1..]);
      assert a == [a[0]] + a[1..] && b == [b[0]] + b[1..];
    }
  }

  lemma HeadInElements(xs: seq<string>)
    ensures |xs| > 0 ==> xs[0] in Elements(xs)
  {
  }

  lemma RestElements(a: seq<string>)
    requires StrictlySorted(a) && a != []
    ensures StrictlySorted(a[1..])
    ensures Elements(a[1..]) == Elements(a) - {a[0]}
  {
    forall x | x in Elements(a) - {a[0]} ensures x in Elements(a[1..]) {
      var k :| 0 <= k < |a| && a[k] == x;
      assert a[1..][k - 1] == x;
    }
    forall x | x in Elements(a[1..]) ensures x != a[0] {
      var k :| 0 <= k < |a[1..]| && a[1..][k] == x;
      assert LexLt(a[0], a[k + 1]);
    }
  }
}
