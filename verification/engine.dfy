/** The parser as the source runs it: delimited tokens are objects whose
    value is built in place one sub-element at a time, the dispatcher loops
    over its candidates, and consume_until_end_seq and consume_document loop
    over an index. Every method is proved to compute the matching function
    of module Grammar. */
module Engine {
  import opened Chars
  import opened Values
  import opened Scanner
  import opened Leaves
  import opened Grammar

  /** What consume_next_sub_element returns: None, the next index, or a
      raised error. */
  datatype Advance = NotAdvanced | Advanced(next: nat) | Raised(error: Error)

  /** The return value and the new token value that a sub-element step
      leaves behind, given the value before it. */
  function AfterStep(step: Step, before: Value): (Advance, Value) {
    match step
    case Step(n, acc) => (Advanced(n), acc)
    case StepErr(e) => (Raised(e), before)
    case NoStep => (NotAdvanced, before)
  }

  /** A delimited token being consumed (CSON_StringToken,
      CSON_MultiLineStringToken, CSON_ListToken, CSON_DictToken). */
  class DelimitedToken {
    const kind: DelimKind
    const start: nat
    var value: Value

    constructor (kind: DelimKind, start: nat)
      ensures this.kind == kind && this.start == start
      ensures value == Empty(kind)
    {
      this.kind := kind;
      this.start := start;
      value := Empty(kind);
    }

    /** consume_next_sub_element, dispatched on the token type. */
    method ConsumeNextSubElement(s: string, j: nat) returns (r: Advance)
      requires j < |s| && Fits(kind, value)
      modifies this
      ensures (r, value) == AfterStep(SubElement(kind, s, j, old(value)), old(value))
      decreases |s| - j, 5, 0
    {
      match kind
      case StringKind => r := ConsumeCharacter(s, j);
      case MultiLineKind => r := ConsumeCharacter(s, j);
      case ListKind => r := ConsumeListElement(s, j);
      case DictKind => r := ConsumeDictElement(s, j);
    }

    /** CSON_StringBase.consume_next_sub_element. */
    method ConsumeCharacter(s: string, j: nat) returns (r: Advance)
      requires j < |s| && value.Str?
      modifies this
      ensures (r, value) == AfterStep(StringStep(s, j, old(value).text), old(value))
    {
      if s[j] == '\\' {
        value := Str(value.text + s[j..if j + 2 <= |s| then j + 2 else |s|]);
        r := Advanced(j + 2);
      } else {
        value := Str(value.text + [s[j]]);
        r := Advanced(j + 1);
      }
    }

    /** CSON_ListToken.consume_next_sub_element and _add_subtoken. */
    method ConsumeListElement(s: string, j: nat) returns (r: Advance)
      requires j < |s| && value.List?
      modifies this
      ensures (r, value) == AfterStep(ListStep(s, j, old(value).items), old(value))
      decreases |s| - j, 4, 0
    {
      var result := GenNextToken(s, j);
      match result
      case Ok(n, tok) =>
        value := List(value.items + [tok.value]);
        var next := IgnoreWhitespace(s, n);
        r := Advanced(next);
      case Err(e) =>
        r := Raised(e);
      case NoMatch =>
        r := NotAdvanced;
    }

    /** CSON_DictToken.consume_next_sub_element. */
    method ConsumeDictElement(s: string, j: nat) returns (r: Advance)
      requires j < |s| && value.Dict?
      modifies this
      ensures (r, value) == AfterStep(DictStep(s, j, old(value).entries), old(value))
      decreases |s| - j, 4, 0
    {
      var k := IgnoreWhitespace(s, j);
      var result := ConsumeKeyValue(s, k);
      match result
      case Pair(n, key, v) =>
        value := Dict(Put(value.entries, key, v));
        var next := IgnoreWhitespace(s, n);
        r := Advanced(next);
      case PairErr(e) =>
        r := Raised(e);
      case NoPair =>
        r := NotAdvanced;
    }
  }

  /** CSON_DictToken._consume_key_value. */
  method ConsumeKeyValue(s: string, k: nat) returns (r: KeyValueResult)
    ensures r == KeyValue(s, k)
    decreases |s| - k, 3, 0
  {
    var name := ConsumeName(s, k);
    if name.None? {
      return PairErr(TypeError);
    }
    var i := IgnoreWhitespace(s, name.value.next);
    if i == |s| {
      return NoPair;
    }
    if s[i] == ':' {
      var result := GenNextToken(s, i + 1);
      match result {
        case Ok(n, tok) => r := Pair(n, name.value.name, tok.value);
        case Err(e) => r := PairErr(e);
        case NoMatch => r := PairErr(TypeError);
      }
      return;
    }
    r := NoPair;
  }

  /** cson_gen_next_token: skip whitespace, then try each candidate in turn. */
  method GenNextToken(s: string, i: nat) returns (r: Outcome)
    ensures r == NextToken(s, i)
    decreases |s| - i, 3, 0
  {
    var k := IgnoreWhitespace(s, i);
    if k >= |s| {
      return Err(TextEndedPrematurely);
    }
    var idx := 0;
    while idx < |SubtokenTypes|
      invariant idx <= |SubtokenTypes|
      invariant FirstMatch(s, k, SubtokenTypes[idx..]) == FirstMatch(s, k, SubtokenTypes)
    {
      r := ConsumeCandidate(SubtokenTypes[idx], s, k);
      if !r.NoMatch? {
        return;
      }
      idx := idx + 1;
    }
    r := Err(UnknownToken(k));
  }

  /** The consume class method of a candidate token type. */
  method ConsumeCandidate(t: TokenType, s: string, k: nat) returns (r: Outcome)
    requires k < |s|
    ensures r == Consume(t, s, k)
    decreases |s| - k, 1, 0
  {
    match t
    case ListType => r := ConsumeDelimitedGeneric(ListKind, s, k);
    case DictType => r := ConsumeDelimitedGeneric(DictKind, s, k);
    case StringType => r := ConsumeDelimitedGeneric(StringKind, s, k);
    case MultiLineStringType => r := ConsumeDelimitedGeneric(MultiLineKind, s, k);
    case NumberType => r := ConsumeNumber(s, k);
    case BooleanType => r := Boolean(s, k);
  }

  /** consume_delimited_generic. */
  method ConsumeDelimitedGeneric(kind: DelimKind, s: string, k: nat) returns (r: Outcome)
    ensures r == Delimited(kind, s, k)
    decreases |s| - k, 0, 0
  {
    var index := MatchText(s, k, Opener(kind));
    if index.None? {
      return NoMatch;
    }
    r := ConsumeUntilEndSeq(kind, s, index.value);
  }

  /** consume_until_end_seq: a fresh token, filled one sub-element at a time
      until the closing sequence is found at the scan index. */
  method ConsumeUntilEndSeq(kind: DelimKind, s: string, start: nat) returns (r: Outcome)
    requires start <= |s|
    ensures r == UntilEnd(kind, s, start, start, Empty(kind))
    decreases |s| - start, 6, 0
  {
    var token := new DelimitedToken(kind, start);
    var endSeq := Closer(kind);
    var reached := false;
    var j := start;
    while j + |endSeq| <= |s|
      invariant start <= j <= |s| + 1
      invariant Fits(kind, token.value)
      invariant UntilEnd(kind, s, start, j, token.value) == UntilEnd(kind, s, start, start, Empty(kind))
      invariant !reached
      decreases |s| + 1 - j
    {
      if MatchText(s, j, endSeq).Some? {
        reached := true;
        break;
      }
      var step := token.ConsumeNextSubElement(s, j);
      match step
      case NotAdvanced => return Err(BrokenToken(start));
      case Raised(e) => return Err(e);
      case Advanced(n) => j := n;
    }
    if !reached {
      return Err(DelimiterNotFound(endSeq, start));
    }
    r := Ok(j + |endSeq|, Token(token.start, token.value));
  }

  /** CSON_DictToken.consume_document: the document is a dictionary token
      without delimiters, filled until the index reaches the end. */
  method ConsumeDocument(s: string) returns (r: DocResult)
    ensures r == Parse(s)
  {
    var document := new DelimitedToken(DictKind, 0);
    var j := IgnoreWhitespace(s, 0);
    if |s| == 0 {
      return Document(document.value.entries);
    }
    while j < |s|
      invariant document.value.Dict?
      invariant DocumentFrom(s, j, document.value.entries) == Parse(s)
      decreases |s| - j
    {
      var step := document.ConsumeNextSubElement(s, j);
      match step
      case NotAdvanced => return Failure(TypeError);
      case Raised(e) => return Failure(e);
      case Advanced(n) => j := n;
    }
    r := Document(document.value.entries);
  }

  /** parse_cson. */
  method ParseCson(s: string) returns (r: DocResult)
    ensures r == Parse(s)
  {
    r := ConsumeDocument(s);
  }
}
