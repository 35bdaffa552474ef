/** Lists without repeats: keeping the first occurrence of every element,
    in order of first occurrence, as a `Set` built by insertion does. */
module UniqueLists {
  predicate NoDuplicates<T(==)>(s: seq<T>) {
    forall i, j :: 0 <= i < j < |s| ==> s[i] != s[j]
  }

  /** The first occurrence of every element, in order of first occurrence. */
  function Dedup<T(==)>(s: seq<T>): seq<T> {
    if s == [] then []
    else
      var d := Dedup(s[..|s| - 1]);
      if s[|s| - 1] in d then d else d + [s[|s| - 1]]
  }

  /** The de-duplicated list repeats nothing and holds exactly the elements of
      the input. */
  lemma {:induction false} DedupSpec<T>(s: seq<T>)
    ensures NoDuplicates(Dedup(s))
    ensures forall o :: o in Dedup(s) <==> o in s
  {
    if s != [] {
      var pre := s[..|s| - 1];
      DedupSpec(pre);
      forall o ensures o in s <==> o in pre || o == s[|s| - 1] {
        assert s == pre + [s[|s| - 1]];
      }
    }
  }

  /** Appending elements only appends to the de-duplicated list: the elements
      already there keep their places. */
  lemma {:induction false} DedupExtends<T>(a: seq<T>, b: seq<T>)
    ensures |Dedup(a)| <= |Dedup(a + b)| && Dedup(a + b)[..|Dedup(a)|] == Dedup(a)
    decreases |b|
  {
    if b == [] {
      assert a + b == a;
    } else {
      var pre := b[..|b| - 1];
      DedupExtends(a, pre);
      assert (a + b)[..|a + b| - 1] == a + pre;
    }
  }

  /** A list without repeats is its own de-duplication. */
  lemma {:induction false} DedupDistinct<T>(s: seq<T>)
    requires NoDuplicates(s)
    ensures Dedup(s) == s
  {
    if s != [] {
      var pre := s[..|s| - 1];
      DedupDistinct(pre);
      DedupSpec(pre);
      assert s[|s| - 1] !in pre;
      assert pre + [s[|s| - 1]] == s;
    }
  }

  /** One step of the `seen`-set loop: push `o` unless already seen. */
  lemma DedupStep<T>(s: seq<T>, i: nat)
    requires i < |s|
    ensures Dedup(s[..i + 1]) == if s[i] in Dedup(s[..i]) then Dedup(s[..i]) else Dedup(s[..i]) + [s[i]]
  {
    assert s[..i + 1][..i] == s[..i];
  }

  /** One `forEach` pass over `all[lo..hi]`: push every element not seen yet. */
  method PushUnseen<T(==)>(all: seq<T>, lo: nat, hi: nat, options0: seq<T>, seen0: set<T>)
    returns (options: seq<T>, seen: set<T>)
    requires lo <= hi <= |all|
    requires options0 == Dedup(all[..lo]) && (forall o :: o in seen0 <==> o in options0)
    ensures options == Dedup(all[..hi]) && (forall o :: o in seen <==> o in options)
  {
    options, seen := options0, seen0;
    for i := lo to hi
      invariant options == Dedup(all[..i])
      invariant forall o :: o in seen <==> o in options
    {
      var option := all[i];
      DedupStep(all, i);
      if option !in seen {
        seen := seen + {option};
        options := options + [option];
      }
    }
  }
}
