/** Ordered iteration, as over std::set and the keys of std::map. */
module OrderedSets {

  lemma Inhabited(s: set<int>)
    ensures s != {} ==> exists y :: y in s
  {
    if !exists y :: y in s {
      assert s == {};
    }
  }

  lemma {:induction false} HasMin(s: set<int>)
    requires s != {}
    ensures exists m :: m in s && forall x | x in s :: m <= x
    decreases s
  {
    Inhabited(s);
    var y :| y in s;
    var rest := s - {y};
    assert forall x | x in s :: x == y || x in rest;
    if rest != {} {
      HasMin(rest);
      var m :| m in rest && forall x | x in rest :: m <= x;
      var least := if y < m then y else m;
      assert least in s && forall x | x in s :: least <= x;
    } else {
      assert forall x | x in s :: y <= x;
    }
  }

  ghost function Min(s: set<int>): (m: int)
    requires s != {}
    ensures m in s && forall x | x in s :: m <= x
  {
    HasMin(s);
    var m :| m in s && forall x | x in s :: m <= x; m
  }

  lemma MinOfSubset(s: set<int>, t: set<int>)
    requires t <= s && s != {} && Min(s) in t
    ensures Min(t) == Min(s)
  {
  }

  ghost function Ascending(s: set<int>): (a: seq<int>)
    ensures forall i :: 0 <= i < |a| ==> a[i] in s
  {
    if s == {} then [] else [Min(s)] + Ascending(s - {Min(s)})
  }

  lemma ConsIncreasing(m: int, rest: seq<int>)
    requires forall i, j :: 0 <= i < j < |rest| ==> rest[i] < rest[j]
    requires forall j :: 0 <= j < |rest| ==> m < rest[j]
    ensures forall i, j :: 0 <= i < j < |[m] + rest| ==> ([m] + rest)[i] < ([m] + rest)[j]
    ensures forall x :: x in [m] + rest <==> x == m || x in rest
  {
  }

  /** Ascending lists exactly the elements of the set, each once, in order. */
  lemma {:induction false} AscendingOrder(s: set<int>)
    ensures forall x :: x in s <==> x in Ascending(s)
    ensures forall i, j :: 0 <= i < j < |Ascending(s)| ==> Ascending(s)[i] < Ascending(s)[j]
    ensures |Ascending(s)| == |s|
  {
    if s != {} {
      var m := Min(s);
      var rest := Ascending(s - {m});
      AscendingOrder(s - {m});
      forall j | 0 <= j < |rest| ensures m < rest[j] {
        assert rest[j] in s - {m};
      }
      ConsIncreasing(m, rest);
      assert forall x :: x in s <==> x == m || x in s - {m};
    }
  }
}
