/** Properties of the parser functions of module Grammar. */
module Properties {
  import opened Chars
  import opened Values
  import opened Scanner
  import opened Leaves
  import opened Grammar

  // ---------------------------------------------------------------------
  // Unfolding helpers

  /** A one-character literal matches exactly when that character is there. */
  lemma MatchOneChar(s: string, k: nat, c: char)
    requires k < |s|
    ensures MatchText(s, k, [c]).Some? <==> s[k] == c
  {
    assert s[k..k + 1] == [s[k]];
  }

  /** A literal whose first character differs does not match. */
  lemma MatchFirstDiffers(s: string, k: nat, t: string)
    requires k < |s| && |t| > 0 && s[k] != t[0]
    ensures MatchText(s, k, t).None?
  {
    if k + |t| <= |s| {
      assert s[k..k + |t|][0] == s[k];
    }
  }

  /** One turn of the consume_until_end_seq loop that does not meet the closer. */
  lemma UntilEndUnfold(kind: DelimKind, s: string, start: nat, j: nat, acc: Value)
    requires Fits(kind, acc) && j + |Closer(kind)| <= |s| && MatchText(s, j, Closer(kind)).None?
    ensures UntilEnd(kind, s, start, j, acc) ==
      match SubElement(kind, s, j, acc)
      case NoStep => Err(BrokenToken(start))
      case StepErr(e) => Err(e)
      case Step(n, a) => UntilEnd(kind, s, start, n, a)
  {
  }

  // ---------------------------------------------------------------------
  // The dispatcher

  /** The first candidate that does not answer None decides the outcome,
      whether it parsed or raised: no later candidate is tried. */
  lemma {:induction false} FirstMatchPicksFirst(s: string, k: nat, types: seq<TokenType>, idx: nat)
    requires k < |s| && idx < |types|
    requires forall m | 0 <= m < idx :: Consume(types[m], s, k).NoMatch?
    requires !Consume(types[idx], s, k).NoMatch?
    ensures FirstMatch(s, k, types) == Consume(types[idx], s, k)
  {
    if idx > 0 {
      assert Consume(types[0], s, k).NoMatch?;
      forall m | 0 <= m < idx - 1 ensures Consume(types[1..][m], s, k).NoMatch? {
        assert types[1..][m] == types[m + 1];
      }
      FirstMatchPicksFirst(s, k, types[1..], idx - 1);
    }
  }

  /** When every candidate answers None the token is unknown. */
  lemma {:induction false} FirstMatchNone(s: string, k: nat, types: seq<TokenType>)
    requires k < |s|
    requires forall m | 0 <= m < |types| :: Consume(types[m], s, k).NoMatch?
    ensures FirstMatch(s, k, types) == Err(UnknownToken(k))
  {
    if types != [] {
      assert Consume(types[0], s, k).NoMatch?;
      forall m | 0 <= m < |types| - 1 ensures Consume(types[1..][m], s, k).NoMatch? {
        assert types[1..][m] == types[m + 1];
      }
      FirstMatchNone(s, k, types[1..]);
    }
  }

  /** cson_gen_next_token: after the whitespace, the end of the text is
      premature; otherwise the candidates are tried in the order List,
      Dict, String, MultiLineString, Number, Boolean, and the first one
      that does not answer None gives the outcome. */
  lemma NextTokenChoice(s: string, i: nat, idx: nat)
    requires idx < |SubtokenTypes|
    ensures var k := SkipWs(s, i);
      k >= |s| ==> NextToken(s, i) == Err(TextEndedPrematurely)
    ensures var k := SkipWs(s, i);
      k < |s|
      && (forall m | 0 <= m < idx :: Consume(SubtokenTypes[m], s, k).NoMatch?)
      && !Consume(SubtokenTypes[idx], s, k).NoMatch?
      ==> NextToken(s, i) == Consume(SubtokenTypes[idx], s, k)
  {
    var k := SkipWs(s, i);
    if k < |s|
      && (forall m | 0 <= m < idx :: Consume(SubtokenTypes[m], s, k).NoMatch?)
      && !Consume(SubtokenTypes[idx], s, k).NoMatch?
    {
      FirstMatchPicksFirst(s, k, SubtokenTypes, idx);
    }
  }

  /** With no candidate matching at the first non-whitespace character, the
      dispatcher raises UnknownToken at that index. */
  lemma NextTokenUnknown(s: string, i: nat)
    requires var k := SkipWs(s, i);
      k < |s| && forall m | 0 <= m < |SubtokenTypes| :: Consume(SubtokenTypes[m], s, k).NoMatch?
    ensures NextToken(s, i) == Err(UnknownToken(SkipWs(s, i)))
  {
    FirstMatchNone(s, SkipWs(s, i), SubtokenTypes);
  }

  /** No token starts with a closing bracket, so the candidate loop, and
      with it the dispatcher, raises UnknownToken there. */
  lemma ClosingBracketIsUnknown(s: string, q: nat)
    requires q < |s| && (s[q] == ']' || s[q] == '}')
    ensures FirstMatch(s, q, SubtokenTypes) == Err(UnknownToken(q))
    ensures NextToken(s, q) == Err(UnknownToken(q))
  {
    assert SkipWs(s, q) == q by {
      assert !IsSpace(s[q]);
    }
    forall m | 0 <= m < |SubtokenTypes| ensures Consume(SubtokenTypes[m], s, q).NoMatch? {
      match SubtokenTypes[m]
      case ListType => MatchFirstDiffers(s, q, Opener(ListKind));
      case DictType => MatchFirstDiffers(s, q, Opener(DictKind));
      case StringType => MatchFirstDiffers(s, q, Opener(StringKind));
      case MultiLineStringType => MatchFirstDiffers(s, q, Opener(MultiLineKind));
      case NumberType =>
      case BooleanType =>
        assert !("false" <= s[q..]) && !("true" <= s[q..]) by {
          assert s[q..][0] == s[q];
        }
    }
    FirstMatchNone(s, q, SubtokenTypes);
  }

  /** One step of a delimited scan that found no closer and a sub-element. */
  lemma UntilEndStep(kind: DelimKind, s: string, start: nat, j: nat, acc: Value)
    requires Fits(kind, acc) && j + |Closer(kind)| <= |s| && MatchText(s, j, Closer(kind)).None?
    requires SubElement(kind, s, j, acc).Step?
    ensures var st := SubElement(kind, s, j, acc);
      UntilEnd(kind, s, start, j, acc) == UntilEnd(kind, s, start, st.next, st.acc)
  {
    UntilEndUnfold(kind, s, start, j, acc);
  }

  /** A closer at the scan position ends the delimited token there. */
  lemma UntilEndClosed(kind: DelimKind, s: string, start: nat, j: nat, acc: Value)
    requires Fits(kind, acc) && MatchText(s, j, Closer(kind)).Some?
    ensures UntilEnd(kind, s, start, j, acc) == Ok(j + |Closer(kind)|, Token(start, acc))
  {
  }

  /** A delimited scan that succeeds ends just past a full closer. */
  lemma {:induction false} UntilEndCloser(kind: DelimKind, s: string, start: nat, j: nat, acc: Value)
    requires Fits(kind, acc)
    ensures var r := UntilEnd(kind, s, start, j, acc);
      r.Ok? ==> MatchText(s, r.next - |Closer(kind)|, Closer(kind)).Some?
    decreases |s| - j
  {
    var close := Closer(kind);
    if j + |close| <= |s| {
      if MatchText(s, j, close).Some? {
        UntilEndClosed(kind, s, start, j, acc);
      } else {
        var st := SubElement(kind, s, j, acc);
        if st.Step? {
          UntilEndStep(kind, s, start, j, acc);
          UntilEndCloser(kind, s, start, st.next, st.acc);
        } else {
          UntilEndUnfold(kind, s, start, j, acc);
        }
      }
    }
  }

  // ---------------------------------------------------------------------
  // Strings: the value is the verbatim text up to the first closing
  // delimiter that is not taken as part of a backslash pair

  predicate CloserAt(s: string, p: nat, close: string) {
    p + |close| <= |s| && s[p..p + |close|] == close
  }

  /** The number of backslashes just before index p, counting no further
      back than start. */
  function BackslashRun(s: string, start: nat, p: nat): nat
    requires start <= p <= |s|
    decreases p
  {
    if start < p && s[p - 1] == '\\' then 1 + BackslashRun(s, start, p - 1) else 0
  }

  /** A character not escaped by a backslash pair: an even run of
      backslashes precedes it. */
  predicate Unescaped(s: string, start: nat, p: nat)
    requires start <= p <= |s|
  {
    BackslashRun(s, start, p) % 2 == 0
  }

  /** An occurrence of the closer that ends a string whose body begins at start. */
  predicate EndsStringAt(s: string, close: string, start: nat, p: nat)
    requires start <= p <= |s|
  {
    CloserAt(s, p, close) && Unescaped(s, start, p)
  }

  predicate IsStringKind(kind: DelimKind) {
    kind == StringKind || kind == MultiLineKind
  }

  function Clip(j: nat, n: nat): nat {
    if j <= n then j else n
  }

  /** What a string scan from start ends in: the first unescaped closer,
      with the text before it verbatim as the value, or DelimiterNotFound
      when no unescaped closer exists. */
  predicate StringScanned(kind: DelimKind, s: string, start: nat, r: Outcome)
    requires start <= |s|
  {
    var close := Closer(kind);
    || (&& r.Ok?
        && start + |close| <= r.next <= |s|
        && EndsStringAt(s, close, start, r.next - |close|)
        && (forall p | start <= p < r.next - |close| :: !EndsStringAt(s, close, start, p))
        && r.token == Token(start, Str(s[start..r.next - |close|])))
    || (&& r == Err(DelimiterNotFound(close, start))
        && forall p | start <= p <= |s| :: !EndsStringAt(s, close, start, p))
  }

  /** A backslash at an unescaped index escapes the next character; any
      other character leaves the next index unescaped. */
  lemma EscapeStep(s: string, start: nat, j: nat)
    requires start <= j < |s| && Unescaped(s, start, j)
    ensures s[j] != '\\' ==> Unescaped(s, start, j + 1)
    ensures s[j] == '\\' ==> !Unescaped(s, start, j + 1)
    ensures s[j] == '\\' && j + 2 <= |s| ==> Unescaped(s, start, j + 2)
  {
    if s[j] == '\\' && j + 2 <= |s| && s[j + 1] == '\\' {
      assert BackslashRun(s, start, j + 2) == 2 + BackslashRun(s, start, j);
    }
  }

  /** One step of the string scan: the accumulated text stays the verbatim
      text from start. */
  lemma StringStepVerbatim(kind: DelimKind, s: string, start: nat, j: nat)
    requires IsStringKind(kind) && start <= j < |s|
    ensures var st := SubElement(kind, s, j, Str(s[start..j]));
      st.Step? && st.acc == Str(s[start..Clip(st.next, |s|)])
  {
    var st := StringStep(s, j, s[start..j]);
    assert s[start..j] + s[j..Clip(st.next, |s|)] == s[start..Clip(st.next, |s|)];
  }

  /** The string scan stops at an unescaped closer. */
  lemma ScanStops(kind: DelimKind, s: string, start: nat, j: nat)
    requires IsStringKind(kind) && start <= j && j + |Closer(kind)| <= |s|
    requires MatchText(s, j, Closer(kind)).Some? && Unescaped(s, start, j)
    requires forall p | start <= p < j :: !EndsStringAt(s, Closer(kind), start, p)
    ensures StringScanned(kind, s, start, UntilEnd(kind, s, start, j, Str(s[start..j])))
  {
    assert EndsStringAt(s, Closer(kind), start, j);
  }

  /** The string scan runs out of input before a closer fits. */
  lemma ScanRunsOut(kind: DelimKind, s: string, start: nat, j: nat)
    requires IsStringKind(kind) && start <= |s| && start <= j && |s| < j + |Closer(kind)|
    requires forall p | start <= p < j && p <= |s| :: !EndsStringAt(s, Closer(kind), start, p)
    ensures StringScanned(kind, s, start, UntilEnd(kind, s, start, j, Str(s[start..Clip(j, |s|)])))
  {
    forall p | start <= p <= |s| ensures !EndsStringAt(s, Closer(kind), start, p) {
      if j <= p {
        assert !CloserAt(s, p, Closer(kind));
      }
    }
  }

  /** One step of the string scan past an index that holds no closer: the
      scan goes on from the next unescaped index with the text so far. */
  lemma ScanAdvances(kind: DelimKind, s: string, start: nat, j: nat) returns (n: nat)
    requires IsStringKind(kind) && start <= j && j + |Closer(kind)| <= |s|
    requires MatchText(s, j, Closer(kind)).None? && Unescaped(s, start, j)
    requires forall p | start <= p < j :: !EndsStringAt(s, Closer(kind), start, p)
    ensures j < n <= |s| + 1
    ensures UntilEnd(kind, s, start, j, Str(s[start..j])) == UntilEnd(kind, s, start, n, Str(s[start..Clip(n, |s|)]))
    ensures n <= |s| ==> Unescaped(s, start, n)
    ensures forall p | start <= p < n && p <= |s| :: !EndsStringAt(s, Closer(kind), start, p)
  {
    var acc := Str(s[start..j]);
    var st := SubElement(kind, s, j, acc);
    n := st.next;
    assert UntilEnd(kind, s, start, j, acc) == UntilEnd(kind, s, start, n, Str(s[start..Clip(n, |s|)])) by {
      UntilEndUnfold(kind, s, start, j, acc);
      StringStepVerbatim(kind, s, start, j);
    }
    EscapeStep(s, start, j);
    forall p | start <= p < n && p <= |s| ensures !EndsStringAt(s, Closer(kind), start, p) {
      if p == j {
        assert !CloserAt(s, j, Closer(kind));
      }
    }
  }

  /** The string scan from an unescaped index j, with the text before j
      accumulated verbatim and no unescaped closer before j. It never
      raises a broken token. */
  lemma {:induction false} StringScan(kind: DelimKind, s: string, start: nat, j: nat)
    requires IsStringKind(kind)
    requires start <= |s| && start <= j <= |s| + 1
    requires j <= |s| ==> Unescaped(s, start, j)
    requires forall p | start <= p < j && p <= |s| :: !EndsStringAt(s, Closer(kind), start, p)
    ensures StringScanned(kind, s, start, UntilEnd(kind, s, start, j, Str(s[start..Clip(j, |s|)])))
    decreases |s| + 1 - j
  {
    if j + |Closer(kind)| <= |s| {
      if MatchText(s, j, Closer(kind)).Some? {
        ScanStops(kind, s, start, j);
      } else {
        var n := ScanAdvances(kind, s, start, j);
        StringScan(kind, s, start, n);
      }
    } else {
      ScanRunsOut(kind, s, start, j);
    }
  }

  /** A string or multi-line string token: no match exactly when the opener
      is absent; otherwise the text between the opener and the first
      unescaped closer, verbatim with its backslash pairs, or
      DelimiterNotFound when no unescaped closer follows. */
  lemma StringToken(kind: DelimKind, s: string, k: nat)
    requires IsStringKind(kind)
    ensures Delimited(kind, s, k).NoMatch? <==> !(k <= |s| && Opener(kind) <= s[k..])
    ensures !Delimited(kind, s, k).NoMatch? ==>
      k + |Opener(kind)| <= |s| && StringScanned(kind, s, k + |Opener(kind)|, Delimited(kind, s, k))
  {
    var start := k + |Opener(kind)|;
    if MatchText(s, k, Opener(kind)).Some? {
      assert s[start..Clip(start, |s|)] == "";
      StringScan(kind, s, start, start);
    }
  }

  /** Scanning a string body that holds no backslash and no quote up to the
      quote at q. */
  lemma {:induction false} PlainStringFrom(s: string, start: nat, j: nat, q: nat)
    requires start <= j <= q < |s| && s[q] == '"'
    requires forall p | j <= p < q :: s[p] != '"' && s[p] != '\\'
    ensures UntilEnd(StringKind, s, start, j, Str(s[start..j])) == Ok(q + 1, Token(start, Str(s[start..q])))
    decreases q - j
  {
    MatchOneChar(s, j, '"');
    if j < q {
      UntilEndUnfold(StringKind, s, start, j, Str(s[start..j]));
      assert s[start..j] + [s[j]] == s[start..j + 1];
      PlainStringFrom(s, start, j + 1, q);
    }
  }

  /** A string without backslashes ends at the next quote, its value being
      the text in between. */
  lemma PlainString(s: string, k: nat, q: nat)
    requires k < q < |s| && s[k] == '"' && s[q] == '"'
    requires forall p | k < p < q :: s[p] != '"' && s[p] != '\\'
    ensures Delimited(StringKind, s, k) == Ok(q + 1, Token(k + 1, Str(s[k + 1..q])))
  {
    MatchOneChar(s, k, '"');
    PlainStringFrom(s, k + 1, k + 1, q);
  }

  // ---------------------------------------------------------------------
  // Lists: elements are appended in source order

  /** A list outcome with the items acc in front of its own items. */
  function PrependItems(acc: seq<Value>, r: Outcome): Outcome {
    if r.Ok? && r.token.value.List? then Ok(r.next, Token(r.token.start, List(acc + r.token.value.items)))
    else r
  }

  /** One list sub-element: an element through the dispatcher, appended. */
  lemma ListStepShape(s: string, j: nat, acc: seq<Value>)
    requires j < |s|
    ensures SubElement(ListKind, s, j, List(acc)) ==
      match NextToken(s, j)
      case Ok(n, tok) => Step(SkipWs(s, n), List(acc + [tok.value]))
      case Err(e) => StepErr(e)
      case NoMatch => NoStep
  {
  }

  /** One element of a list body: the scan goes on after the element and
      the whitespace behind it, with the element appended. */
  lemma ListElementStep(s: string, start: nat, j: nat, acc: seq<Value>)
    requires j + 1 <= |s| && MatchText(s, j, "]").None? && NextToken(s, j).Ok?
    ensures UntilEnd(ListKind, s, start, j, List(acc))
      == UntilEnd(ListKind, s, start, SkipWs(s, NextToken(s, j).next), List(acc + [NextToken(s, j).token.value]))
  {
    UntilEndUnfold(ListKind, s, start, j, List(acc));
    ListStepShape(s, j, acc);
  }

  /** A list element the dispatcher rejects ends the list with its error. */
  lemma ListElementFails(s: string, start: nat, j: nat, acc: seq<Value>)
    requires j + 1 <= |s| && MatchText(s, j, "]").None? && NextToken(s, j).Err?
    ensures UntilEnd(ListKind, s, start, j, List(acc)) == Err(NextToken(s, j).error)
  {
    UntilEndUnfold(ListKind, s, start, j, List(acc));
    ListStepShape(s, j, acc);
  }

  /** The items consumed so far stay in front of everything appended later. */
  lemma {:induction false} ListAccumulates(s: string, start: nat, j: nat, acc: seq<Value>)
    ensures UntilEnd(ListKind, s, start, j, List(acc)) == PrependItems(acc, UntilEnd(ListKind, s, start, j, List([])))
    decreases |s| - j
  {
    if j + 1 <= |s| && MatchText(s, j, "]").None? {
      var r := NextToken(s, j);
      if r.Ok? {
        var n' := SkipWs(s, r.next);
        var v := r.token.value;
        ListElementStep(s, start, j, acc);
        ListElementStep(s, start, j, []);
        assert [] + [v] == [v];
        ListAccumulates(s, start, n', acc + [v]);
        ListAccumulates(s, start, n', [v]);
        var rest := UntilEnd(ListKind, s, start, n', List([]));
        if rest.Ok? && rest.token.value.List? {
          assert acc + [v] + rest.token.value.items == acc + ([v] + rest.token.value.items);
        }
      } else {
        ListElementFails(s, start, j, acc);
        ListElementFails(s, start, j, []);
      }
    }
  }

  /** The first element of a list is the first item of its value, and the
      rest of the list is parsed from the index after it. */
  lemma ListFirstElement(s: string, start: nat, j: nat, n: nat, tok: Token)
    requires j < |s| && s[j] != ']'
    requires NextToken(s, j) == Ok(n, tok)
    ensures UntilEnd(ListKind, s, start, j, List([]))
         == PrependItems([tok.value], UntilEnd(ListKind, s, start, SkipWs(s, n), List([])))
  {
    MatchOneChar(s, j, ']');
    UntilEndUnfold(ListKind, s, start, j, List([]));
    ListStepShape(s, j, []);
    assert [] + [tok.value] == [tok.value];
    ListAccumulates(s, start, SkipWs(s, n), [tok.value]);
  }

  /** `[]` is the empty list. */
  lemma EmptyList(s: string, k: nat)
    requires k + 1 < |s| && s[k] == '[' && s[k + 1] == ']'
    ensures Delimited(ListKind, s, k) == Ok(k + 2, Token(k + 1, List([])))
  {
    MatchOneChar(s, k, '[');
    MatchOneChar(s, k + 1, ']');
  }

  /** `[` followed by whitespace and `]`: the dispatcher skips the
      whitespace and no candidate accepts the `]`, so the list raises
      UnknownToken at the `]`. */
  lemma WhitespaceOnlyList(s: string, k: nat, q: nat)
    requires k + 1 < q < |s| && s[k] == '[' && s[q] == ']'
    requires forall p | k < p < q :: IsSpace(s[p])
    ensures Delimited(ListKind, s, k) == Err(UnknownToken(q))
  {
    MatchOneChar(s, k, '[');
    MatchOneChar(s, k + 1, ']');
    assert SkipWs(s, k + 1) == q by {
      assert !IsSpace(s[q]);
    }
    ClosingBracketIsUnknown(s, q);
    UntilEndUnfold(ListKind, s, k + 1, k + 1, List([]));
    ListStepShape(s, k + 1, []);
  }

  // ---------------------------------------------------------------------
  // Dictionaries: a key is bound only before a colon; later bindings of a
  // key overwrite earlier ones in place

  /** A name at some index in [lo, hi) that is followed, after optional
      whitespace, by a colon, and that spells key. */
  predicate KeyAt(s: string, lo: nat, hi: nat, key: string) {
    exists p | lo <= p < hi ::
      && Name(s, p).Some?
      && Name(s, p).value.name == key
      && SkipWs(s, Name(s, p).value.next) < |s|
      && s[SkipWs(s, Name(s, p).value.next)] == ':'
  }

  /** A key-value pair is a name followed, after optional whitespace, by a
      colon. */
  lemma PairHasColon(s: string, k: nat)
    requires KeyValue(s, k).Pair?
    ensures Name(s, k).Some? && Name(s, k).value.name == KeyValue(s, k).key
    ensures SkipWs(s, Name(s, k).value.next) < |s| && s[SkipWs(s, Name(s, k).value.next)] == ':'
  {
  }

  /** Binding the key of the pair at k leaves, beyond the keys already
      present, only names that precede a colon in [lo, hi). */
  lemma BindStep(s: string, lo: nat, k: nat, hi: nat, acc: seq<Entry>, rest: seq<Entry>)
    requires lo <= k < hi && KeyValue(s, k).Pair?
    requires forall key | key in Keys(rest) && key !in Keys(Put(acc, KeyValue(s, k).key, KeyValue(s, k).value)) ::
      KeyAt(s, lo, hi, key)
    ensures forall key | key in Keys(rest) && key !in Keys(acc) :: KeyAt(s, lo, hi, key)
  {
    var kv := KeyValue(s, k);
    PairHasColon(s, k);
    assert KeyAt(s, lo, hi, kv.key);
  }

  /** Keys are bound only where a name is followed by a colon: every key a
      dictionary body adds lies before a colon inside that body. */
  lemma {:induction false} DictBindsAfterColon(s: string, start: nat, j: nat, acc: seq<Entry>)
    ensures var r := UntilEnd(DictKind, s, start, j, Dict(acc));
      r.Ok? ==> forall key | key in Keys(r.token.value.entries) && key !in Keys(acc) :: KeyAt(s, j, r.next, key)
    decreases |s| - j
  {
    var r := UntilEnd(DictKind, s, start, j, Dict(acc));
    if r.Ok? && j + 1 <= |s| && MatchText(s, j, "}").None? {
      UntilEndUnfold(DictKind, s, start, j, Dict(acc));
      assert SubElement(DictKind, s, j, Dict(acc)) == DictStep(s, j, acc);
      DictEntryStep(s, start, j, acc);
      var k := SkipWs(s, j);
      var kv := KeyValue(s, k);
      var n := SkipWs(s, kv.next);
      var acc' := Put(acc, kv.key, kv.value);
      DictBindsAfterColon(s, start, n, acc');
      forall key | key in Keys(r.token.value.entries) && key !in Keys(acc') ensures KeyAt(s, j, r.next, key) {
        var p :| n <= p < r.next && Name(s, p).Some? && Name(s, p).value.name == key
          && SkipWs(s, Name(s, p).value.next) < |s| && s[SkipWs(s, Name(s, p).value.next)] == ':';
      }
      BindStep(s, j, k, r.next, acc, r.token.value.entries);
    }
  }

  /** One entry of a dictionary body: the scan goes on after the pair and
      the whitespace behind it, with the pair bound. */
  lemma DictEntryStep(s: string, start: nat, j: nat, acc: seq<Entry>)
    requires j + 1 <= |s| && MatchText(s, j, "}").None? && DictStep(s, j, acc).Step?
    ensures var kv := KeyValue(s, SkipWs(s, j));
      && kv.Pair?
      && DictStep(s, j, acc) == Step(SkipWs(s, kv.next), Dict(Put(acc, kv.key, kv.value)))
      && UntilEnd(DictKind, s, start, j, Dict(acc))
         == UntilEnd(DictKind, s, start, SkipWs(s, kv.next), Dict(Put(acc, kv.key, kv.value)))
  {
    UntilEndUnfold(DictKind, s, start, j, Dict(acc));
    assert SubElement(DictKind, s, j, Dict(acc)) == DictStep(s, j, acc);
  }

  /** The keys bound so far keep their order and stay unique as the
      dictionary body is consumed. */
  lemma {:induction false} DictKeepsKeys(s: string, start: nat, j: nat, acc: seq<Entry>)
    ensures var r := UntilEnd(DictKind, s, start, j, Dict(acc));
      r.Ok? ==> Keys(acc) <= Keys(r.token.value.entries)
    ensures var r := UntilEnd(DictKind, s, start, j, Dict(acc));
      r.Ok? && UniqueKeys(acc) ==> UniqueKeys(r.token.value.entries)
    decreases |s| - j
  {
    if j + 1 <= |s| && MatchText(s, j, "}").None? && DictStep(s, j, acc).Step? {
      DictEntryStep(s, start, j, acc);
      var kv := KeyValue(s, SkipWs(s, j));
      var acc' := Put(acc, kv.key, kv.value);
      PutKeepsKeysUnique(acc, kv.key, kv.value);
      DictKeepsKeys(s, start, SkipWs(s, kv.next), acc');
      var r := UntilEnd(DictKind, s, start, j, Dict(acc));
      if r.Ok? {
        assert Keys(acc) <= Keys(acc');
        assert Keys(acc') <= Keys(r.token.value.entries);
      }
    } else if j + 1 <= |s| && MatchText(s, j, "}").None? {
      UntilEndUnfold(DictKind, s, start, j, Dict(acc));
      assert SubElement(DictKind, s, j, Dict(acc)) == DictStep(s, j, acc);
    }
  }

  /** Inside a dictionary, an entry that does not start with a name ends the
      scan in a TypeError: _consume_key_value unpacks the None. */
  lemma DictEntryWithoutName(s: string, start: nat, j: nat, acc: seq<Entry>)
    requires j + 1 <= |s| && MatchText(s, j, "}").None? && Name(s, SkipWs(s, j)).None?
    ensures UntilEnd(DictKind, s, start, j, Dict(acc)) == Err(TypeError)
  {
    assert KeyValue(s, SkipWs(s, j)) == PairErr(TypeError);
    assert SubElement(DictKind, s, j, Dict(acc)) == StepErr(TypeError);
    UntilEndUnfold(DictKind, s, start, j, Dict(acc));
  }

  /** Inside a dictionary, a name that no colon follows ends the scan with
      BrokenToken at the index after the `{`: the step returns None. */
  lemma DictNameWithoutColon(s: string, start: nat, j: nat, acc: seq<Entry>)
    requires j + 1 <= |s| && MatchText(s, j, "}").None? && KeyValue(s, SkipWs(s, j)).NoPair?
    ensures UntilEnd(DictKind, s, start, j, Dict(acc)) == Err(BrokenToken(start))
  {
    assert SubElement(DictKind, s, j, Dict(acc)) == NoStep;
    UntilEndUnfold(DictKind, s, start, j, Dict(acc));
  }

  /** A name without a colon inside a dictionary: _consume_key_value
      returns None, so the sub-element step does, and the delimiter loop
      raises BrokenToken at the index after the `{`. */
  lemma DictEntryWithoutColon(s: string, k: nat)
    requires k < |s| && s[k] == '{' && KeyValue(s, SkipWs(s, k + 1)).NoPair?
    ensures Delimited(DictKind, s, k) == Err(BrokenToken(k + 1))
  {
    var q := SkipWs(s, k + 1);
    assert k + 1 < |s| && s[k + 1] != '}' by {
      assert q < |s| && IsAlpha(s[q]);
      if q != k + 1 {
        assert IsSpace(s[k + 1]);
      }
    }
    MatchOneChar(s, k, '{');
    MatchOneChar(s, k + 1, '}');
    UntilEndUnfold(DictKind, s, k + 1, k + 1, Dict([]));
  }

  /** `{}` is the empty dictionary. */
  lemma EmptyDict(s: string, k: nat)
    requires k + 1 < |s| && s[k] == '{' && s[k + 1] == '}'
    ensures Delimited(DictKind, s, k) == Ok(k + 2, Token(k + 1, Dict([])))
  {
    MatchOneChar(s, k, '{');
    MatchOneChar(s, k + 1, '}');
  }

  /** `{` followed by whitespace and `}`: the body is handed to
      _consume_key_value, consume_name finds no name, and unpacking its
      None is a TypeError. */
  lemma WhitespaceOnlyDict(s: string, k: nat, q: nat)
    requires k + 1 < q < |s| && s[k] == '{' && s[q] == '}'
    requires forall p | k < p < q :: IsSpace(s[p])
    ensures Delimited(DictKind, s, k) == Err(TypeError)
  {
    MatchOneChar(s, k, '{');
    MatchOneChar(s, k + 1, '}');
    assert SkipWs(s, k + 1) == q by {
      assert !IsSpace(s[q]);
    }
    assert Name(s, q).None?;
    assert KeyValue(s, q) == PairErr(TypeError);
    assert SubElement(DictKind, s, k + 1, Dict([])) == StepErr(TypeError);
    UntilEndUnfold(DictKind, s, k + 1, k + 1, Dict([]));
  }

  // ---------------------------------------------------------------------
  // The document

  /** Empty or whitespace-only text is the empty dictionary. */
  lemma WhitespaceDocument(s: string)
    requires forall p | 0 <= p < |s| :: IsSpace(s[p])
    ensures Parse(s) == Document([])
  {
    assert SkipWs(s, 0) == |s|;
  }

  /** Keys are bound only where a name is followed by a colon: every key
      the document loop adds lies before a colon in the rest of the text. */
  lemma {:induction false} DocumentBindsAfterColon(s: string, j: nat, acc: seq<Entry>)
    ensures var r := DocumentFrom(s, j, acc);
      r.Document? ==> forall key | key in Keys(r.entries) && key !in Keys(acc) :: KeyAt(s, j, |s|, key)
    decreases |s| - j
  {
    var r := DocumentFrom(s, j, acc);
    if r.Document? && j < |s| {
      var k := SkipWs(s, j);
      var kv := KeyValue(s, k);
      assert kv.Pair?;
      var n := SkipWs(s, kv.next);
      var acc' := Put(acc, kv.key, kv.value);
      assert r == DocumentFrom(s, n, acc');
      DocumentBindsAfterColon(s, n, acc');
      forall key | key in Keys(r.entries) && key !in Keys(acc') ensures KeyAt(s, j, |s|, key) {
        var p :| n <= p < |s| && Name(s, p).Some? && Name(s, p).value.name == key
          && SkipWs(s, Name(s, p).value.next) < |s| && s[SkipWs(s, Name(s, p).value.next)] == ':';
      }
      BindStep(s, j, k, |s|, acc, r.entries);
    }
  }

  /** A document whose first non-whitespace text is not a key/value pair
      crashes: no name is a TypeError while unpacking, and a name without a
      colon makes consume_next_sub_element return None, which the loop test
      then compares with an int. */
  lemma DocumentWithoutPair(s: string)
    requires var j := SkipWs(s, 0); j < |s| && (KeyValue(s, j).NoPair? || Name(s, j).None?)
    ensures Parse(s) == Failure(TypeError)
  {
    var j := SkipWs(s, 0);
    SkipWsIdempotent(s, 0);
    DocumentEntryWithoutPair(s, j, []);
  }

  /** The same at any entry of the document loop: whatever was bound
      before, an entry that is not a pair ends the parse in a TypeError. */
  lemma DocumentEntryWithoutPair(s: string, j: nat, acc: seq<Entry>)
    requires j < |s|
    requires var k := SkipWs(s, j); KeyValue(s, k).NoPair? || Name(s, k).None?
    ensures DocumentFrom(s, j, acc) == Failure(TypeError)
  {
    var k := SkipWs(s, j);
    if Name(s, k).None? {
      assert KeyValue(s, k) == PairErr(TypeError);
    }
  }
}
