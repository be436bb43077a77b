/** Small vocabulary shared by the page and component models: an optional
    value, the JavaScript string tests the components use (`startsWith`,
    `endsWith`, `includes`), order-preserving subsequences, and the `HH:00`
    hour labels that every mock series is keyed by. */
module Common {

  datatype Option<+T> = None | Some(value: T)

  predicate StartsWith(s: string, prefix: string) {
    |prefix| <= |s| && s[..|prefix|] == prefix
  }

  predicate EndsWith(s: string, suffix: string) {
    |suffix| <= |s| && s[|s| - |suffix|..] == suffix
  }

  /** `sub` sits in `s` starting at offset `i`. */
  predicate OccursAt(s: string, sub: string, i: int) {
    0 <= i && i + |sub| <= |s| && s[i..i + |sub|] == sub
  }

  /** `s.includes(sub)`, computed by trying every start position in turn. */
  predicate Includes(s: string, sub: string)
    decreases |s|
  {
    StartsWith(s, sub) || (|s| > 0 && Includes(s[1..], sub))
  }

  /** `includes` holds exactly when `sub` occurs at some offset of `s`
      (so the empty string is included in every string). */
  lemma {:induction false} IncludesIffOccurs(s: string, sub: string)
    ensures Includes(s, sub) <==> exists i :: OccursAt(s, sub, i)
    decreases |s|
  {
    assert StartsWith(s, sub) <==> OccursAt(s, sub, 0);
    if |s| > 0 {
      IncludesIffOccurs(s[1..], sub);
      forall i | OccursAt(s[1..], sub, i)
        ensures OccursAt(s, sub, i + 1)
      {
        assert s[i + 1..i + 1 + |sub|] == s[1..][i..i + |sub|];
      }
      forall i | OccursAt(s, sub, i) && i > 0
        ensures OccursAt(s[1..], sub, i - 1)
      {
        assert s[1..][i - 1..i - 1 + |sub|] == s[i..i + |sub|];
      }
    }
  }

  /** `sub` is `xs` with some elements dropped and the rest kept in order. */
  predicate IsSubsequence<T(==)>(sub: seq<T>, xs: seq<T>)
    decreases |xs|
  {
    if sub == [] then true
    else if xs == [] then false
    else if sub[0] == xs[0] then IsSubsequence(sub[1..], xs[1..])
    else IsSubsequence(sub, xs[1..])
  }

  lemma {:induction false} SubsequenceOfItself<T>(xs: seq<T>)
    ensures IsSubsequence(xs, xs)
    decreases |xs|
  {
    if xs != [] {
      SubsequenceOfItself(xs[1..]);
    }
  }

  predicate NoDuplicates<T(==)>(xs: seq<T>) {
    forall i, j :: 0 <= i < j < |xs| ==> xs[i] != xs[j]
  }

  function DigitChar(d: int): (c: char)
    requires 0 <= d < 10
    ensures '0' <= c <= '9'
  {
    ('0' as int + d) as char
  }

  /** The `HH:00` label of hour `h`, two digits zero-padded. */
  function HourLabel(h: int): (text: string)
    requires 0 <= h < 24
    ensures |text| == 5 && EndsWith(text, ":00")
  {
    [DigitChar(h / 10), DigitChar(h % 10)] + ":00"
  }

  /** Distinct hours have distinct labels, and the labels sort as the
      hours do: the first two characters read back the hour. */
  lemma HourLabelReadsBack(h: int)
    requires 0 <= h < 24
    ensures (HourLabel(h)[0] as int - '0' as int) * 10 + (HourLabel(h)[1] as int - '0' as int) == h
  {
  }

  lemma HourLabelInjective(h: int, k: int)
    requires 0 <= h < 24 && 0 <= k < 24
    ensures HourLabel(h) == HourLabel(k) <==> h == k
  {
    if HourLabel(h) == HourLabel(k) {
      HourLabelReadsBack(h);
      HourLabelReadsBack(k);
    }
  }
}
