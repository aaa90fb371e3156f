/** Scanner primitives and key names: ignore_whitespace, match_ignore_text,
    match_ignore_alpha and consume_name. */
module Scanner {
  import opened Chars
  import opened Values

  /** The index of the first non-whitespace character at or after i
      (ignore_whitespace, as a specification). */
  function SkipWs(s: string, i: nat): (j: nat)
    ensures i <= j
    ensures j == i || j <= |s|
    ensures forall p | i <= p < j :: p < |s| && IsSpace(s[p])
    ensures j < |s| ==> !IsSpace(s[j])
    decreases |s| - i
  {
    if i < |s| && IsSpace(s[i]) then SkipWs(s, i + 1) else i
  }

  /** Skipping whitespace twice skips no more than once. */
  lemma SkipWsIdempotent(s: string, i: nat)
    ensures SkipWs(s, SkipWs(s, i)) == SkipWs(s, i)
  {
  }

  /** ignore_whitespace: advance the index while it points at whitespace. */
  method IgnoreWhitespace(s: string, i: nat) returns (j: nat)
    ensures j == SkipWs(s, i)
  {
    j := i;
    while j < |s| && IsSpace(s[j])
      invariant i <= j
      invariant SkipWs(s, j) == SkipWs(s, i)
      decreases |s| - j
    {
      j := j + 1;
    }
  }

  /** match_ignore_text: the index just after t when the text at i starts
      with t, and None otherwise. */
  function MatchText(s: string, i: nat, t: string): (r: Option<nat>)
    ensures r.Some? <==> i <= |s| && t <= s[i..]
    ensures r.Some? ==> r.value == i + |t| <= |s|
  {
    if i + |t| <= |s| && s[i..i + |t|] == t then Some(i + |t|) else None
  }

  /** match_ignore_alpha: one alphabetic character at i. */
  function MatchAlpha(s: string, i: nat): (r: Option<nat>)
    ensures r.Some? <==> i < |s| && IsAlpha(s[i])
    ensures r.Some? ==> r.value == i + 1
  {
    if i < |s| && IsAlpha(s[i]) then Some(i + 1) else None
  }

  /** The end of the longest run of name characters starting at j. */
  function NameEnd(s: string, j: nat): (e: nat)
    requires j <= |s|
    ensures j <= e <= |s|
    ensures forall p | j <= p < e :: IsNameChar(s[p])
    ensures e == |s| || !IsNameChar(s[e])
    decreases |s| - j
  {
    if j < |s| && IsNameChar(s[j]) then NameEnd(s, j + 1) else j
  }

  /** The only words the source refuses as key names. */
  const Keywords: seq<string> := ["false", "true"]

  /** A consumed key name: the index after it, its start and its text. */
  datatype NameToken = NameToken(next: nat, start: nat, name: string)

  /** consume_name: a letter followed by the longest run of letters, digits
      and underscores, unless that word is false or true. */
  function Name(s: string, k: nat): (r: Option<NameToken>)
    ensures r.Some? ==> k < |s| && IsAlpha(s[k])
    ensures r.Some? ==> k < r.value.next <= |s| && r.value.start == k
    ensures r.Some? ==> r.value.name == s[k..r.value.next] && r.value.name !in Keywords
    ensures r.Some? ==> forall p | k < p < r.value.next :: IsNameChar(s[p])
    ensures r.Some? ==> r.value.next == |s| || !IsNameChar(s[r.value.next])
    ensures r.None? && k < |s| && IsAlpha(s[k]) ==> s[k..NameEnd(s, k + 1)] in Keywords
  {
    match MatchAlpha(s, k)
    case None => None
    case Some(i) =>
      var e := NameEnd(s, i);
      var name := s[k..e];
      if name in Keywords then None else Some(NameToken(e, k, name))
  }

  /** consume_name, scanning with an index as the source does. */
  method ConsumeName(s: string, k: nat) returns (r: Option<NameToken>)
    ensures r == Name(s, k)
  {
    var m := MatchAlpha(s, k);
    if m.None? {
      return None;
    }
    var i := m.value;
    while i < |s| && IsNameChar(s[i])
      invariant k < i <= |s|
      invariant NameEnd(s, i) == NameEnd(s, k + 1)
      decreases |s| - i
    {
      i := i + 1;
    }
    var name := s[k..i];
    if name in Keywords {
      return None;
    }
    r := Some(NameToken(i, k, name));
  }
}
