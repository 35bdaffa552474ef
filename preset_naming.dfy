/** Preset names: whether a name is taken, compared without regard to case,
    and the search for a free variant `base -1`, `base -2`, ... of a name
    that is. */
module PresetNaming {
  import opened ClassifierTypes
  import opened Presets

  /** Lower-casing of one character: `A`..`Z` map to `a`..`z`. */
  function LowerChar(c: char): char {
    if 'A' <= c <= 'Z' then (c as int + 32) as char else c
  }

  function ToLower(s: string): (t: string)
    ensures |t| == |s|
    ensures forall k :: 0 <= k < |s| ==> t[k] == LowerChar(s[k])
  {
    if s == [] then [] else [LowerChar(s[0])] + ToLower(s[1..])
  }

  /** Lower-casing works character by character, so it distributes over
      concatenation. */
  lemma ToLowerAppend(a: string, b: string)
    ensures ToLower(a + b) == ToLower(a) + ToLower(b)
  {
  }

  /** Decimal digits, as a template literal prints a positive integer. */
  function DigitChar(d: nat): (c: char)
    requires d < 10
    ensures '0' <= c <= '9' && c as int - '0' as int == d
  {
    ('0' as int + d) as char
  }

  function NatToString(n: nat): (s: string)
    ensures |s| >= 1
    ensures forall k :: 0 <= k < |s| ==> '0' <= s[k] <= '9'
    ensures n >= 10 ==> |s| >= 2
  {
    if n < 10 then [DigitChar(n)] else NatToString(n / 10) + [DigitChar(n % 10)]
  }

  /** Different numbers print differently. */
  lemma {:induction false} NatToStringInjective(a: nat, b: nat)
    requires NatToString(a) == NatToString(b)
    ensures a == b
  {
    var sa, sb := NatToString(a), NatToString(b);
    if a < 10 && b < 10 {
      assert DigitChar(a) == sa[0] == DigitChar(b);
    } else if a >= 10 && b >= 10 {
      var qa, ra, qb, rb := a / 10, a % 10, b / 10, b % 10;
      assert DigitChar(ra) == sa[|sa| - 1] == DigitChar(rb);
      assert sa[..|sa| - 1] == NatToString(qa);
      assert sb[..|sb| - 1] == NatToString(qb);
      NatToStringInjective(qa, qb);
      assert a == 10 * qa + ra && b == 10 * qb + rb;
    }
  }

  /** `${base} -${i}`. */
  function Candidate(base: string, i: nat): string {
    base + " -" + NatToString(i)
  }

  /** `nameExists`: some preset, other than the one keyed `excludeId`, has the
      name up to case. */
  predicate NameExists(presets: seq<PresetRecord>, name: string, excludeId: Option<string>) {
    exists p :: 0 <= p < |presets| && ClashesWith(presets[p], name, excludeId)
  }

  predicate ClashesWith(p: PresetRecord, name: string, excludeId: Option<string>) {
    ToLower(p.name) == ToLower(name) && (excludeId.None? || KeyOf(p) != excludeId.value)
  }

  /** Candidates for different numbers differ even after lower-casing. */
  lemma CandidatesDiffer(base: string, i: nat, j: nat)
    requires i != j
    ensures ToLower(Candidate(base, i)) != ToLower(Candidate(base, j))
  {
    var si, sj := NatToString(i), NatToString(j);
    ToLowerAppend(base + " -", si);
    ToLowerAppend(base + " -", sj);
    assert ToLower(si) == si;
    assert ToLower(sj) == sj;
    if ToLower(Candidate(base, i)) == ToLower(Candidate(base, j)) {
      var n := |ToLower(base + " -")|;
      assert si == ToLower(Candidate(base, i))[n..];
      assert sj == ToLower(Candidate(base, j))[n..];
      NatToStringInjective(i, j);
    }
  }

  /** The lower-cased names of the presets. */
  function TakenNames(presets: seq<PresetRecord>): (names: set<string>)
    ensures |names| <= |presets|
    ensures forall p :: 0 <= p < |presets| ==> ToLower(presets[p].name) in names
  {
    if presets == [] then {}
    else TakenNames(presets[..|presets| - 1]) + {ToLower(presets[|presets| - 1].name)}
  }

  /** The lower-cased candidates `1..n`. */
  function CandidateNames(base: string, n: nat): set<string> {
    set j | 1 <= j <= n :: ToLower(Candidate(base, j))
  }

  /** The `n` candidates are `n` different names. */
  lemma {:induction false} CandidateNamesSize(base: string, n: nat)
    ensures |CandidateNames(base, n)| == n
  {
    if n > 0 {
      var earlier, last := CandidateNames(base, n - 1), ToLower(Candidate(base, n));
      CandidateNamesSize(base, n - 1);
      assert CandidateNames(base, n) == earlier + {last};
      if last in earlier {
        var j :| 1 <= j <= n - 1 && last == ToLower(Candidate(base, j));
        CandidatesDiffer(base, j, n);
      }
    }
  }

  lemma SubsetSize<T>(a: set<T>, b: set<T>)
    requires a <= b
    ensures |a| <= |b|
  {
    assert b == a + (b - a);
  }

  /** Only as many candidates can be taken as there are presets: if every
      candidate `1..n` is taken, then `n <= |presets|`. */
  lemma TakenCandidatesBound(presets: seq<PresetRecord>, base: string, excludeId: Option<string>, n: nat)
    requires forall j :: 1 <= j <= n ==> NameExists(presets, Candidate(base, j), excludeId)
    ensures n <= |presets|
  {
    var cands, taken := CandidateNames(base, n), TakenNames(presets);
    CandidateNamesSize(base, n);
    forall t | t in cands ensures t in taken {
      var j :| 1 <= j <= n && t == ToLower(Candidate(base, j));
      assert NameExists(presets, Candidate(base, j), excludeId);
      var p :| 0 <= p < |presets| && ClashesWith(presets[p], Candidate(base, j), excludeId);
      assert ToLower(presets[p].name) in taken;
    }
    SubsetSize(cands, taken);
  }

  /** `uniqueizeName`: the name itself when free, else the first free
      candidate. The search stops by the time it has passed one candidate
      per preset. */
  method UniqueizeName(presets: seq<PresetRecord>, base: string, excludeId: Option<string>) returns (name: string)
    ensures !NameExists(presets, name, excludeId)
    ensures !NameExists(presets, base, excludeId) ==> name == base
    ensures NameExists(presets, base, excludeId) ==>
      exists i :: 1 <= i <= |presets| + 1 && name == Candidate(base, i)
        && forall j :: 1 <= j < i ==> NameExists(presets, Candidate(base, j), excludeId)
  {
    if !NameExists(presets, base, excludeId) {
      return base;
    }
    var i := 1;
    while NameExists(presets, Candidate(base, i), excludeId)
      invariant 1 <= i
      invariant forall j :: 1 <= j < i ==> NameExists(presets, Candidate(base, j), excludeId)
      invariant i <= |presets| + 1
      decreases |presets| + 1 - i
    {
      TakenCandidatesBound(presets, base, excludeId, i);
      i := i + 1;
    }
    name := Candidate(base, i);
  }
}
