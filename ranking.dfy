/** Ranking of contributions for the "top 3" explanation: a stable sort by
    non-increasing magnitude (the comparator `b.m - a.m` under the stable
    `Array.prototype.sort`), then the first three. Both scoring variants
    rank this way. */
module Ranking {
  import opened ClassifierTypes

  predicate SortedDesc(s: seq<Ranked>) {
    forall i, j :: 0 <= i < j < |s| ==> s[i].magnitude >= s[j].magnitude
  }

  /** The entries of `s` whose magnitude is exactly `m`, in order. */
  function Ties(s: seq<Ranked>, m: real): seq<Ranked> {
    if s == [] then []
    else (if s[0].magnitude == m then [s[0]] else []) + Ties(s[1..], m)
  }

  /** Puts `x` before the first entry that is not strictly larger. */
  function Insert(x: Ranked, s: seq<Ranked>): seq<Ranked> {
    if s == [] then [x]
    else if x.magnitude >= s[0].magnitude then [x] + s
    else [s[0]] + Insert(x, s[1..])
  }

  function SortDesc(s: seq<Ranked>): seq<Ranked> {
    if s == [] then [] else Insert(s[0], SortDesc(s[1..]))
  }

  lemma {:induction false} InsertPerm(x: Ranked, s: seq<Ranked>)
    ensures multiset(Insert(x, s)) == multiset(s) + multiset{x}
  {
    if s != [] && x.magnitude < s[0].magnitude {
      InsertPerm(x, s[1..]);
      assert s == [s[0]] + s[1..];
    }
  }

  lemma {:induction false} InsertSorted(x: Ranked, s: seq<Ranked>)
    requires SortedDesc(s)
    ensures SortedDesc(Insert(x, s))
  {
    if s != [] && x.magnitude < s[0].magnitude {
      var rest := Insert(x, s[1..]);
      InsertSorted(x, s[1..]);
      InsertPerm(x, s[1..]);
      forall j | 0 <= j < |rest|
        ensures s[0].magnitude >= rest[j].magnitude
      {
        var y := rest[j];
        assert y in multiset(rest);
        if y != x {
          assert y in multiset(s[1..]);
          var i :| 1 <= i < |s| && s[i] == y;
        }
      }
      SortedCons(s[0], rest);
    }
  }

  lemma SortedCons(h: Ranked, t: seq<Ranked>)
    requires SortedDesc(t)
    requires forall j :: 0 <= j < |t| ==> h.magnitude >= t[j].magnitude
    ensures SortedDesc([h] + t)
  {
    var r := [h] + t;
    forall i, j | 0 <= i < j < |r|
      ensures r[i].magnitude >= r[j].magnitude
    {
      assert r[j] == t[j - 1];
      if i > 0 {
        assert r[i] == t[i - 1];
      }
    }
  }

  lemma {:induction false} InsertTies(x: Ranked, s: seq<Ranked>, m: real)
    ensures Ties(Insert(x, s), m) == (if x.magnitude == m then [x] else []) + Ties(s, m)
  {
    if s == [] {
    } else if x.magnitude >= s[0].magnitude {
      assert ([x] + s)[1..] == s;
    } else {
      InsertTies(x, s[1..], m);
      assert ([s[0]] + Insert(x, s[1..]))[1..] == Insert(x, s[1..]);
    }
  }

  /** The sort is a permutation, is ordered by non-increasing magnitude and
      keeps every group of equal magnitudes in its original order. */
  lemma SortDescSpec(s: seq<Ranked>, m: real)
    ensures SortedDesc(SortDesc(s))
    ensures multiset(SortDesc(s)) == multiset(s)
    ensures |SortDesc(s)| == |s|
    ensures Ties(SortDesc(s), m) == Ties(s, m)
  {
    SortDescPerm(s);
    SortDescSorted(s);
    SortDescTies(s, m);
    assert |SortDesc(s)| == |multiset(SortDesc(s))|;
  }

  lemma {:induction false} SortDescPerm(s: seq<Ranked>)
    ensures multiset(SortDesc(s)) == multiset(s)
  {
    if s != [] {
      SortDescPerm(s[1..]);
      InsertPerm(s[0], SortDesc(s[1..]));
      assert s == [s[0]] + s[1..];
    }
  }

  lemma {:induction false} SortDescSorted(s: seq<Ranked>)
    ensures SortedDesc(SortDesc(s))
  {
    if s != [] {
      SortDescSorted(s[1..]);
      InsertSorted(s[0], SortDesc(s[1..]));
    }
  }

  lemma {:induction false} SortDescTies(s: seq<Ranked>, m: real)
    ensures Ties(SortDesc(s), m) == Ties(s, m)
  {
    if s != [] {
      SortDescTies(s[1..], m);
      InsertTies(s[0], SortDesc(s[1..]), m);
    }
  }

  function Min(a: nat, b: nat): nat { if a < b then a else b }

  /** The three largest contributions (fewer when there are fewer). */
  function Top3(s: seq<Ranked>): seq<Ranked> {
    var sorted := SortDesc(s);
    sorted[..Min(3, |sorted|)]
  }

  /** Top-3 has min(3, n) entries, is ordered and is drawn from the input. */
  lemma Top3Spec(s: seq<Ranked>)
    ensures |Top3(s)| == Min(3, |s|)
    ensures SortedDesc(Top3(s))
    ensures multiset(Top3(s)) <= multiset(s)
  {
    var sorted := SortDesc(s);
    SortDescSpec(s, 0.0);
    SplitMultiset(sorted, Min(3, |sorted|));
  }

  lemma SplitMultiset(a: seq<Ranked>, k: nat)
    requires k <= |a|
    ensures multiset(a) == multiset(a[..k]) + multiset(a[k..])
  {
    assert a == a[..k] + a[k..];
  }

  /** Every contribution left out of the top three is no larger than the
      third one kept. */
  lemma Top3Omitted(s: seq<Ranked>)
    ensures forall x | x in multiset(s) - multiset(Top3(s)) ::
      |Top3(s)| == 3 && x.magnitude <= Top3(s)[2].magnitude
  {
    var sorted := SortDesc(s);
    SortDescPerm(s);
    SortDescSorted(s);
    var k := Min(3, |sorted|);
    assert Top3(s) == sorted[..k];
    SplitDifference(sorted, k);
    RestBelowThird(sorted, k);
  }

  /** Removing a prefix from a sequence's multiset leaves the suffix's. */
  lemma SplitDifference(a: seq<Ranked>, k: nat)
    requires k <= |a|
    ensures multiset(a) - multiset(a[..k]) == multiset(a[k..])
  {
    SplitMultiset(a, k);
  }

  /** In a sorted sequence, every entry after the first three is no larger
      than the third. */
  lemma RestBelowThird(sorted: seq<Ranked>, k: nat)
    requires SortedDesc(sorted) && k == Min(3, |sorted|)
    ensures forall x | x in multiset(sorted[k..]) :: k == 3 && x.magnitude <= sorted[2].magnitude
  {
    forall x | x in multiset(sorted[k..])
      ensures k == 3 && x.magnitude <= sorted[2].magnitude
    {
      assert x in sorted[k..];
      var j :| k <= j < |sorted| && sorted[j] == x;
    }
  }

  /** Equal magnitudes keep their enumeration order in the ranking: for each
      magnitude, the entries of that magnitude kept in the top three are the
      first ones of that magnitude in the input. */
  lemma Top3Stable(s: seq<Ranked>, m: real)
    ensures |Ties(Top3(s), m)| <= |Ties(s, m)|
    ensures Ties(s, m)[..|Ties(Top3(s), m)|] == Ties(Top3(s), m)
  {
    var sorted := SortDesc(s);
    var k := Min(3, |sorted|);
    SortDescSpec(s, m);
    assert sorted == sorted[..k] + sorted[k..];
    TiesAppend(sorted[..k], sorted[k..], m);
  }

  lemma {:induction false} TiesAppend(a: seq<Ranked>, b: seq<Ranked>, m: real)
    ensures Ties(a + b, m) == Ties(a, m) + Ties(b, m)
  {
    if a != [] {
      assert (a + b)[1..] == a[1..] + b;
      TiesAppend(a[1..], b, m);
    } else {
      assert a + b == b;
    }
  }
}
