/** The browser-local preset store: an ordered list of saved classifier
    configurations, kept newest first. Saving prepends, deleting filters by
    key, updating replaces the first record with a matching key. Also the
    completeness filter applied to rows read from the remote table, and the
    UUID shape test that decides whether a key is an id or a name. */
module Presets {
  import opened ClassifierTypes
  import opened HexDigits

  /** A payload member as the dynamically typed store holds it. */
  datatype JsValue = Undefined | Null | Bool(b: bool) | Number(x: real) | Str(s: string) | Object(json: string)

  /** JavaScript truthiness (NaN is not modelled). */
  predicate Truthy(v: JsValue) {
    match v
    case Undefined => false
    case Null => false
    case Bool(b) => b
    case Number(x) => x != 0.0
    case Str(s) => s != ""
    case Object(_) => true
  }

  datatype PresetPayload = PresetPayload(inputs: JsValue, gw: JsValue, vw: JsValue, th: JsValue, title: Option<string>)

  datatype PresetRecord = PresetRecord(id: Option<string>, name: string, data: PresetPayload, createdAt: Option<string>)

  /** `id ?? name`: the key a record is deleted and updated by. */
  function KeyOf(p: PresetRecord): string {
    match p.id
    case Some(i) => i
    case None => p.name
  }

  // ---------- Filtering ----------

  /** The records satisfying `keep`, in their original order (`filter`). */
  function Filter(s: seq<PresetRecord>, keep: PresetRecord -> bool): seq<PresetRecord> {
    if s == [] then []
    else (if keep(s[0]) then [s[0]] else []) + Filter(s[1..], keep)
  }

  /** How many records satisfy `keep`. */
  function CountWhere(s: seq<PresetRecord>, keep: PresetRecord -> bool): nat {
    if s == [] then 0
    else (if keep(s[0]) then 1 else 0) + CountWhere(s[1..], keep)
  }

  /** A record is kept exactly when it occurs and satisfies `keep`; the
      records dropped are exactly those that fail it. */
  lemma {:induction false} FilterSpec(s: seq<PresetRecord>, keep: PresetRecord -> bool)
    ensures forall r :: r in Filter(s, keep) <==> r in s && keep(r)
    ensures |Filter(s, keep)| == CountWhere(s, keep)
  {
    if s != [] {
      FilterSpec(s[1..], keep);
      assert s == [s[0]] + s[1..];
    }
  }

  /** Filtering a concatenation filters each part and keeps them in order:
      the records kept stay in their original relative order. */
  lemma {:induction false} FilterAppend(a: seq<PresetRecord>, b: seq<PresetRecord>, keep: PresetRecord -> bool)
    ensures Filter(a + b, keep) == Filter(a, keep) + Filter(b, keep)
  {
    if a != [] {
      FilterAppend(a[1..], b, keep);
      assert (a + b)[1..] == a[1..] + b;
    } else {
      assert a + b == b;
    }
  }

  // ---------- Complete-payload filter ----------

  /** A row is usable when its payload has all four parts. */
  predicate Complete(r: PresetRecord) {
    Truthy(r.data.inputs) && Truthy(r.data.gw) && Truthy(r.data.vw) && Truthy(r.data.th)
  }

  function CompleteRows(rows: seq<PresetRecord>): seq<PresetRecord> {
    Filter(rows, Complete)
  }

  /** The load filter keeps exactly the complete rows, in order. */
  lemma CompleteRowsSpec(rows: seq<PresetRecord>, more: seq<PresetRecord>)
    ensures forall r :: r in CompleteRows(rows) <==> r in rows && Complete(r)
    ensures CompleteRows(rows + more) == CompleteRows(rows) + CompleteRows(more)
    ensures |CompleteRows(rows)| <= |rows|
  {
    FilterSpec(rows, Complete);
    FilterAppend(rows, more, Complete);
    CountBound(rows, Complete);
  }

  lemma {:induction false} CountBound(s: seq<PresetRecord>, keep: PresetRecord -> bool)
    ensures CountWhere(s, keep) <= |s|
  {
    if s != [] {
      CountBound(s[1..], keep);
    }
  }

  // ---------- Names ----------

  /** The characters `String.prototype.trim` strips: white space and line
      terminators. */
  predicate IsJsSpace(c: char) {
    || c == ' ' || c == '\t' || c == '\n' || c == '\r' || c == '\U{000B}' || c == '\U{000C}'
    || c == '\U{00A0}' || c == '\U{1680}' || ('\U{2000}' <= c <= '\U{200A}')
    || c == '\U{2028}' || c == '\U{2029}' || c == '\U{202F}' || c == '\U{205F}'
    || c == '\U{3000}' || c == '\U{FEFF}'
  }

  function TrimStart(s: string): string {
    if s != [] && IsJsSpace(s[0]) then TrimStart(s[1..]) else s
  }

  function TrimEnd(s: string): string {
    if s != [] && IsJsSpace(s[|s| - 1]) then TrimEnd(s[..|s| - 1]) else s
  }

  function Trim(s: string): string {
    TrimEnd(TrimStart(s))
  }

  /** The trimmed name is a contiguous slice of the name that neither starts
      nor ends with white space, and only white space was cut around it. */
  lemma TrimSpec(s: string)
    ensures var t := Trim(s);
      && (t != [] ==> !IsJsSpace(t[0]) && !IsJsSpace(t[|t| - 1]))
      && (exists i, j ::
            && 0 <= i <= j <= |s| && t == s[i..j]
            && (forall k :: 0 <= k < i ==> IsJsSpace(s[k]))
            && (forall k :: j <= k < |s| ==> IsJsSpace(s[k])))
  {
    var i := TrimStartSpec(s);
    var u := TrimStart(s);
    var j := TrimEndSpec(u);
    assert u[..j] == s[i..i + j];
    forall k | i + j <= k < |s| ensures IsJsSpace(s[k]) {
      assert s[k] == u[k - i];
    }
  }

  lemma {:induction false} TrimStartSpec(s: string) returns (i: nat)
    ensures i <= |s| && TrimStart(s) == s[i..]
    ensures forall k :: 0 <= k < i ==> IsJsSpace(s[k])
    ensures TrimStart(s) != [] ==> !IsJsSpace(TrimStart(s)[0])
  {
    if s != [] && IsJsSpace(s[0]) {
      var i' := TrimStartSpec(s[1..]);
      i := i' + 1;
      assert s[1..][i'..] == s[i..];
      forall k | 0 <= k < i ensures IsJsSpace(s[k]) {
        if k > 0 {
          assert s[k] == s[1..][k - 1];
        }
      }
    } else {
      i := 0;
    }
  }

  lemma {:induction false} TrimEndSpec(s: string) returns (j: nat)
    ensures j <= |s| && TrimEnd(s) == s[..j]
    ensures forall k :: j <= k < |s| ==> IsJsSpace(s[k])
    ensures TrimEnd(s) != [] ==> !IsJsSpace(TrimEnd(s)[|TrimEnd(s)| - 1])
    ensures |s| > 0 && !IsJsSpace(s[0]) ==> |TrimEnd(s)| > 0 && TrimEnd(s)[0] == s[0]
  {
    if s != [] && IsJsSpace(s[|s| - 1]) {
      var pre := s[..|s| - 1];
      j := TrimEndSpec(pre);
      assert pre[..j] == s[..j];
      forall k | j <= k < |s| ensures IsJsSpace(s[k]) {
        if k < |s| - 1 {
          assert s[k] == pre[k];
        }
      }
    } else {
      j := |s|;
    }
  }

  /** `name.trim() || generated`: the trimmed name, or the generated one when
      nothing but white space was given. */
  function SafeName(name: string, generated: string): string {
    var t := Trim(name);
    if t == "" then generated else t
  }

  /** The generated name is used exactly when the name is all white space;
      otherwise the saved name has no white space at either end. */
  lemma SafeNameSpec(name: string, generated: string)
    ensures SafeName(name, generated) == generated <== forall k :: 0 <= k < |name| ==> IsJsSpace(name[k])
    ensures (exists k :: 0 <= k < |name| && !IsJsSpace(name[k])) ==>
      var r := SafeName(name, generated);
      r == Trim(name) && r != "" && !IsJsSpace(r[0]) && !IsJsSpace(r[|r| - 1])
  {
    TrimSpec(name);
    var i := TrimStartSpec(name);
    var u := TrimStart(name);
    var j := TrimEndSpec(u);
    if exists k :: 0 <= k < |name| && !IsJsSpace(name[k]) {
      var k :| 0 <= k < |name| && !IsJsSpace(name[k]);
      assert i <= k;
      assert u[0] == name[i] && !IsJsSpace(u[0]);
    }
  }

  // ---------- Deleting and finding by key ----------

  /** The records whose key differs from `key`, in order. */
  function WithoutKey(list: seq<PresetRecord>, key: string): seq<PresetRecord> {
    Filter(list, r => KeyOf(r) != key)
  }

  /** How many records have key `key`. */
  function KeyCount(list: seq<PresetRecord>, key: string): nat {
    CountWhere(list, r => KeyOf(r) == key)
  }

  /** Deleting removes exactly the records with the key, keeps the others in
      order, and the length drops by the number of matching records. */
  lemma WithoutKeySpec(list: seq<PresetRecord>, more: seq<PresetRecord>, key: string)
    ensures forall r :: r in WithoutKey(list, key) <==> r in list && KeyOf(r) != key
    ensures WithoutKey(list + more, key) == WithoutKey(list, key) + WithoutKey(more, key)
    ensures |list| - |WithoutKey(list, key)| == KeyCount(list, key)
  {
    FilterSpec(list, r => KeyOf(r) != key);
    FilterAppend(list, more, r => KeyOf(r) != key);
    CountSplit(list, key);
  }

  /** Every record either has the key or not. */
  lemma {:induction false} CountSplit(list: seq<PresetRecord>, key: string)
    ensures CountWhere(list, r => KeyOf(r) != key) + KeyCount(list, key) == |list|
  {
    if list != [] {
      CountSplit(list[1..], key);
    }
  }

  /** Index of the first record with key `key`, or -1 (`findIndex`). */
  method FindIndex(list: seq<PresetRecord>, key: string) returns (idx: int)
    ensures -1 <= idx < |list|
    ensures idx == -1 <==> forall k :: 0 <= k < |list| ==> KeyOf(list[k]) != key
    ensures idx >= 0 ==> KeyOf(list[idx]) == key && forall k :: 0 <= k < idx ==> KeyOf(list[k]) != key
  {
    idx := 0;
    while idx < |list|
      invariant 0 <= idx <= |list|
      invariant forall k :: 0 <= k < idx ==> KeyOf(list[k]) != key
    {
      if KeyOf(list[idx]) == key {
        return;
      }
      idx := idx + 1;
    }
    idx := -1;
  }

  // ---------- The local store ----------

  datatype DeleteResult = DeleteResult(ok: bool, count: int)
  datatype UpdateResult = UpdateResult(ok: bool, count: nat, id: Option<string>)

  /** The list kept in local storage (serialisation is not modelled). */
  class LocalPresetStore {
    var list: seq<PresetRecord>

    constructor(stored: seq<PresetRecord>)
      ensures list == stored
    {
      list := stored;
    }

    /** The stored list as saved: the local branch applies no filter. */
    method Load() returns (presets: seq<PresetRecord>)
      ensures presets == list
    {
      presets := list;
    }

    /** Prepends a new record without id, stamped `now`; `generated` is the
        name used when the given one is blank. */
    method Save(name: string, payload: PresetPayload, generated: string, now: string)
      modifies this
      ensures list == [PresetRecord(None, SafeName(name, generated), payload, Some(now))] + old(list)
    {
      var current := Load();
      var rec := PresetRecord(None, SafeName(name, generated), payload, Some(now));
      list := [rec] + current;
    }

    /** Removes every record whose key is `key`; reports how many went. */
    method Delete(key: string) returns (res: DeleteResult)
      modifies this
      ensures list == WithoutKey(old(list), key)
      ensures res == DeleteResult(true, |old(list)| - |list|)
      ensures res.count == KeyCount(old(list), key)
    {
      var current := Load();
      var next := WithoutKey(current, key);
      WithoutKeySpec(current, [], key);
      list := next;
      res := DeleteResult(true, |current| - |next|);
    }

    /** Replaces name, payload and time stamp of the first record with key
        `key`, leaving every other record and the length as they were; with
        no such record nothing is written. Reports the updated record's key. */
    method Update(key: string, name: string, payload: PresetPayload, now: string) returns (res: UpdateResult)
      modifies this
      ensures (forall k :: 0 <= k < |old(list)| ==> KeyOf(old(list)[k]) != key) ==>
        res == UpdateResult(false, 0, None) && list == old(list)
      ensures (exists k :: 0 <= k < |old(list)| && KeyOf(old(list)[k]) == key) ==>
        exists idx :: 0 <= idx < |old(list)|
          && KeyOf(old(list)[idx]) == key
          && (forall k :: 0 <= k < idx ==> KeyOf(old(list)[k]) != key)
          && list == old(list)[idx := old(list)[idx].(name := name, data := payload, createdAt := Some(now))]
          && res == UpdateResult(true, 1, Some(KeyOf(list[idx])))
    {
      var current := Load();
      var idx := FindIndex(current, key);
      if idx == -1 {
        return UpdateResult(false, 0, None);
      }
      var updated := current[idx].(name := name, data := payload, createdAt := Some(now));
      list := current[idx := updated];
      res := UpdateResult(true, 1, Some(KeyOf(updated)));
    }
  }

  // ---------- UUID shape ----------

  /** `[0-9a-f]{n}` under the case-insensitive flag. */
  predicate HexRun(s: string, n: nat) {
    |s| == n && forall k :: 0 <= k < n ==> IsHexDigit(s[k])
  }

  /** The anchored pattern 8-4-4-4-12 hex digits, matched group by group. */
  predicate IsUUID(s: string) {
    && |s| == 36
    && HexRun(s[0..8], 8) && s[8] == '-'
    && HexRun(s[9..13], 4) && s[13] == '-'
    && HexRun(s[14..18], 4) && s[18] == '-'
    && HexRun(s[19..23], 4) && s[23] == '-'
    && HexRun(s[24..36], 12)
  }

  predicate DashPosition(k: int) {
    k == 8 || k == 13 || k == 18 || k == 23
  }

  /** A key is a UUID exactly when it has 36 characters, dashes at positions
      8, 13, 18 and 23, and hex digits of either case everywhere else. */
  lemma IsUUIDSpec(s: string)
    ensures IsUUID(s) <==>
      && |s| == 36
      && (forall k :: 0 <= k < 36 && DashPosition(k) ==> s[k] == '-')
      && (forall k :: 0 <= k < 36 && !DashPosition(k) ==> IsHexDigit(s[k]))
  {
    if |s| == 36 {
      if IsUUID(s) {
        forall k | 0 <= k < 36 && !DashPosition(k) ensures IsHexDigit(s[k]) {
          if k < 8 { assert s[k] == s[0..8][k]; }
          else if k < 13 { assert s[k] == s[9..13][k - 9]; }
          else if k < 18 { assert s[k] == s[14..18][k - 14]; }
          else if k < 23 { assert s[k] == s[19..23][k - 19]; }
          else { assert s[k] == s[24..36][k - 24]; }
        }
      } else if forall k :: 0 <= k < 36 && !DashPosition(k) ==> IsHexDigit(s[k]) {
        assert HexRun(s[0..8], 8);
        assert HexRun(s[9..13], 4);
        assert HexRun(s[14..18], 4);
        assert HexRun(s[19..23], 4);
        assert HexRun(s[24..36], 12);
      }
    }
  }
}
