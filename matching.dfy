/**
 * Attribute matching of a C-FIND identifier against a worklist item, after
 * section C.2.2.2 of DICOM PS3.4: universal matching by an empty value or a
 * value of only `*` (C.2.2.2.3, C.2.2.2.4), wildcard matching with `*` and `?`
 * (C.2.2.2.4), range matching of dates and times `D1-D2`, `D1-`, `-D2`
 * (C.2.2.2.5), single value matching otherwise (C.2.2.2.1), and sequence
 * matching, where an item of the key sequence must match some item of the
 * candidate's sequence (C.2.2.2.6). This is the reading of the queries the
 * worklist server applies; the source builds queries but never evaluates them.
 */
module Matching {
  import opened Wrappers
  import opened TextUtil
  import opened DataSets

  /** `p` matches `s`, where `*` stands for any run of characters and `?` for any one character. */
  predicate WildcardMatch(p: string, s: string)
    decreases |p| + |s|
  {
    if p == [] then s == []
    else if p[0] == '*' then WildcardMatch(p[1..], s) || (s != [] && WildcardMatch(p, s[1..]))
    else s != [] && (p[0] == '?' || p[0] == s[0]) && WildcardMatch(p[1..], s[1..])
  }

  predicate HasWildcard(p: string) {
    '*' in p || '?' in p
  }

  /** A lone `*` matches every string. */
  lemma {:induction false} StarMatchesAll(s: string)
    ensures WildcardMatch("*", s)
    decreases |s|
  {
    if s != [] {
      StarMatchesAll(s[1..]);
    }
  }

  /** Without wildcard characters, wildcard matching is equality. */
  lemma {:induction false} LiteralMatch(p: string, s: string)
    requires !HasWildcard(p)
    ensures WildcardMatch(p, s) <==> p == s
    decreases |p| + |s|
  {
    if p != [] && s != [] {
      assert !HasWildcard(p[1..]) by {
        assert forall k | 0 <= k < |p[1..]| :: p[1..][k] == p[k + 1];
      }
      LiteralMatch(p[1..], s[1..]);
      if p[0] == s[0] && p[1..] == s[1..] {
        assert p == [p[0]] + p[1..] && s == [s[0]] + s[1..];
      }
    }
  }

  /** Lexicographic order; on dates written YYYYMMDD and times HHMMSS it is chronological order. */
  predicate LexLe(a: string, b: string) {
    a == [] || (b != [] && (a[0] < b[0] || (a[0] == b[0] && LexLe(a[1..], b[1..]))))
  }

  /** The meaning of a date or time key. */
  datatype RangeKey = AnyValue | OnValue(v: string) | Between(lo: string, hi: string) | From(lo: string) | Until(hi: string)

  /** Reading a date or time key: empty for universal, `lo-hi`, `lo-`, `-hi` for ranges, else a single value. */
  function ParseRange(key: string): RangeKey {
    if key == "" then AnyValue
    else
      var i := IndexOf(key, '-');
      if i == |key| then OnValue(key)
      else if i == 0 then Until(key[1..])
      else if i == |key| - 1 then From(key[..i])
      else Between(key[..i], key[i + 1..])
  }

  /** Parsing the key `lo + "-" + hi` gives the range back when both bounds are given and `lo` has no `-`. */
  lemma ParseRangeJoin(lo: string, hi: string)
    requires lo != "" && hi != "" && '-' !in lo
    ensures ParseRange(lo + "-" + hi) == Between(lo, hi)
  {
    var key := lo + "-" + hi;
    IndexOfJoin(lo, '-', hi);
    assert key[..|lo|] == lo;
    assert key[|lo| + 1..] == hi;
  }

  /** Parsing a key without `-` gives a single-value key. */
  lemma ParseRangeSingle(v: string)
    requires v != "" && '-' !in v
    ensures ParseRange(v) == OnValue(v)
  {
  }

  predicate RangeMatches(r: RangeKey, cand: Option<Value>) {
    match r
    case AnyValue => true
    case OnValue(v) => cand == Some(Str(v))
    case Between(lo, hi) => cand.Some? && cand.value.Str? && LexLe(lo, cand.value.s) && LexLe(cand.value.s, hi)
    case From(lo) => cand.Some? && cand.value.Str? && LexLe(lo, cand.value.s)
    case Until(hi) => cand.Some? && cand.value.Str? && LexLe(cand.value.s, hi)
  }

  /** A string key that matches everything: empty or only `*`. */
  predicate Universal(k: string) {
    forall i | 0 <= i < |k| :: k[i] == '*'
  }

  /** The key value `key` for attribute `t` matches the candidate's value `cand` (`None` when absent). */
  predicate KeyMatches(t: Tag, key: Value, cand: Option<Value>)
    decreases key
  {
    match key
    case Str(k) =>
      if Universal(k) then true
      else if t.Vr() == DA || t.Vr() == TM then RangeMatches(ParseRange(k), cand)
      else cand.Some? && cand.value.Str? && WildcardMatch(k, cand.value.s)
    case Items(items) =>
      items == [] ||
      (cand.Some? && cand.value.Items? &&
       exists i | 0 <= i < |cand.value.items| :: QueryMatches(items[0], cand.value.items[i]))
    case NoValue => true
    case _ => cand == Some(key)
  }

  /**
   * Every matching key of `q` matches `d`. The Query/Retrieve Level and the
   * Specific Character Set say how to query rather than what to match.
   */
  predicate QueryMatches(q: DataSet, d: DataSet)
    decreases q
  {
    forall t | t in q.elements :: Control(t) || KeyMatches(t, q.elements[t], Get(d, t))
  }

  /** Keys that say how to query rather than what to match. */
  predicate Control(t: Tag) {
    t == QueryRetrieveLevel || t == SpecificCharacterSet
  }
}
