/** Subsequences, and regrouping of concatenations. */
module Sequences {

  lemma Assoc<T>(a: seq<T>, b: seq<T>, c: seq<T>)
    ensures a + b + c == a + (b + c)
  {
  }

  lemma MostConcat<T>(a: seq<T>, b: seq<T>)
    requires b != []
    ensures (a + b)[..|a + b| - 1] == a + b[..|b| - 1] && (a + b)[|a + b| - 1] == b[|b| - 1]
  {
  }

  lemma TailConcat<T>(a: seq<T>, b: seq<T>)
    requires a != []
    ensures (a + b)[1..] == a[1..] + b && (a + b)[0] == a[0]
  {
  }

  /** a arises from b by dropping elements. */
  ghost predicate Subseq<T>(a: seq<T>, b: seq<T>)
    decreases |b|
  {
    a == [] || (b != [] && ((a[0] == b[0] && Subseq(a[1..], b[1..])) || Subseq(a, b[1..])))
  }

  lemma {:induction false} Reflexive<T>(a: seq<T>)
    ensures Subseq(a, a)
  {
    if a != [] {
      Reflexive(a[1..]);
    }
  }

  lemma {:induction false} Transitive<T>(a: seq<T>, b: seq<T>, c: seq<T>)
    requires Subseq(a, b) && Subseq(b, c)
    ensures Subseq(a, c)
    decreases |c|, |b|
  {
    if a != [] {
      if b[0] == c[0] && Subseq(b[1..], c[1..]) {
        if a[0] == b[0] && Subseq(a[1..], b[1..]) {
          Transitive(a[1..], b[1..], c[1..]);
        } else {
          Transitive(a, b[1..], c[1..]);
        }
      } else {
        Transitive(a, b, c[1..]);
      }
    }
  }

  lemma {:induction false} Concat<T>(a: seq<T>, b: seq<T>, c: seq<T>, d: seq<T>)
    requires Subseq(a, b) && Subseq(c, d)
    ensures Subseq(a + c, b + d)
    decreases |b|
  {
    if b == [] {
      assert a + c == c && b + d == d;
    } else {
      assert (b + d)[1..] == b[1..] + d;
      if a != [] && a[0] == b[0] && Subseq(a[1..], b[1..]) {
        Concat(a[1..], b[1..], c, d);
        assert (a + c)[1..] == a[1..] + c;
      } else {
        Concat(a, b[1..], c, d);
      }
    }
  }

  lemma {:induction false} Members<T>(a: seq<T>, b: seq<T>, x: T)
    requires Subseq(a, b) && x in a
    ensures x in b
    decreases |b|
  {
    if a[0] == b[0] && Subseq(a[1..], b[1..]) {
      if x != a[0] {
        assert x in a[1..];
        Members(a[1..], b[1..], x);
      }
    } else {
      Members(a, b[1..], x);
    }
  }

  lemma Prefix<T>(a: seq<T>, b: seq<T>)
    requires a <= b
    ensures Subseq(a, b)
  {
    Reflexive(a);
    Concat(a, a, [], b[|a|..]);
    assert a + [] == a && a + b[|a|..] == b;
  }

  /** What is drawn from a concatenation is drawn from its first part and then from its second. */
  lemma {:induction false} Divide<T>(a: seq<T>, x: seq<T>, y: seq<T>) returns (p: seq<T>, q: seq<T>)
    requires Subseq(a, x + y)
    ensures a == p + q && Subseq(p, x) && Subseq(q, y)
    decreases |x|
  {
    if a == [] {
      p, q := [], [];
    } else if x == [] {
      assert x + y == y;
      p, q := [], a;
    } else {
      var b := x + y;
      assert b[1..] == x[1..] + y;
      if a[0] == b[0] && Subseq(a[1..], b[1..]) {
        p, q := Divide(a[1..], x[1..], y);
        p := [a[0]] + p;
        assert p[1..] + q == a[1..];
      } else {
        p, q := Divide(a, x[1..], y);
      }
    }
  }
}
