/** The recursive-descent parser as functions: the dispatcher
    cson_gen_next_token, consume_delimited_generic, consume_until_end_seq,
    the per-token consume_next_sub_element operations, _consume_key_value,
    consume_document and parse_cson. These are the specifications the
    methods of module Engine are proved to compute. */
module Grammar {
  import opened Chars
  import opened Values
  import opened Scanner
  import opened Leaves

  /** The delimited token types. */
  datatype DelimKind = ListKind | DictKind | StringKind | MultiLineKind

  /** The opening and closing sequences of each delimited token type. */
  function Opener(kind: DelimKind): (t: string)
    ensures |t| >= 1
  {
    match kind
    case ListKind => "["
    case DictKind => "{"
    case StringKind => "\""
    case MultiLineKind => "'''"
  }

  function Closer(kind: DelimKind): (t: string)
    ensures |t| >= 1
  {
    match kind
    case ListKind => "]"
    case DictKind => "}"
    case StringKind => "\""
    case MultiLineKind => "'''"
  }

  /** The value a delimited token starts with. */
  function Empty(kind: DelimKind): Value {
    match kind
    case ListKind => List([])
    case DictKind => Dict([])
    case StringKind => Str("")
    case MultiLineKind => Str("")
  }

  /** The shape of value each delimited token type builds. */
  predicate Fits(kind: DelimKind, v: Value) {
    match kind
    case ListKind => v.List?
    case DictKind => v.Dict?
    case StringKind => v.Str?
    case MultiLineKind => v.Str?
  }

  /** The token types a value may be, in the order the dispatcher tries them. */
  datatype TokenType = ListType | DictType | StringType | MultiLineStringType | NumberType | BooleanType

  const SubtokenTypes: seq<TokenType> :=
    [ListType, DictType, StringType, MultiLineStringType, NumberType, BooleanType]

  /** What consume_next_sub_element gives: None, the next index together
      with the value built so far, or a raised error. */
  datatype Step = NoStep | Step(next: nat, acc: Value) | StepErr(error: Error)

  /** What _consume_key_value gives. */
  datatype KeyValueResult = NoPair | Pair(next: nat, key: string, value: Value) | PairErr(error: Error)

  /** cson_gen_next_token with the candidate list of every composite. */
  function NextToken(s: string, i: nat): (r: Outcome)
    ensures !r.NoMatch?
    ensures r.Ok? ==> i < r.next <= |s|
    decreases |s| - i, 3, 0
  {
    var k := SkipWs(s, i);
    if k >= |s| then Err(TextEndedPrematurely) else FirstMatch(s, k, SubtokenTypes)
  }

  /** The first candidate whose consume does not return None. */
  function FirstMatch(s: string, k: nat, types: seq<TokenType>): (r: Outcome)
    requires k < |s|
    ensures !r.NoMatch?
    ensures r.Ok? ==> k < r.next <= |s|
    decreases |s| - k, 2, |types|
  {
    if types == [] then Err(UnknownToken(k))
    else
      var r := Consume(types[0], s, k);
      if r.NoMatch? then FirstMatch(s, k, types[1..]) else r
  }

  /** The consume class method of each token type. */
  function Consume(t: TokenType, s: string, k: nat): (r: Outcome)
    requires k < |s|
    ensures r.Ok? ==> k < r.next <= |s|
    decreases |s| - k, 1, 0
  {
    match t
    case ListType => Delimited(ListKind, s, k)
    case DictType => Delimited(DictKind, s, k)
    case StringType => Delimited(StringKind, s, k)
    case MultiLineStringType => Delimited(MultiLineKind, s, k)
    case NumberType => Number(s, k)
    case BooleanType => Boolean(s, k)
  }

  /** consume_delimited_generic: no match unless the opener is there;
      otherwise scan to the closer from just after the opener. */
  function Delimited(kind: DelimKind, s: string, k: nat): (r: Outcome)
    ensures r.NoMatch? <==> MatchText(s, k, Opener(kind)).None?
    ensures r.Ok? ==> k < r.next <= |s| && r.token.start == k + |Opener(kind)|
    ensures r.Ok? ==> Fits(kind, r.token.value)
    decreases |s| - k, 0, 0
  {
    match MatchText(s, k, Opener(kind))
    case None => NoMatch
    case Some(start) => UntilEnd(kind, s, start, start, Empty(kind))
  }

  /** consume_until_end_seq from index j, with acc the value built so far.
      The closer is looked for only while enough text remains for it. */
  function UntilEnd(kind: DelimKind, s: string, start: nat, j: nat, acc: Value): (r: Outcome)
    requires Fits(kind, acc)
    ensures !r.NoMatch?
    ensures r.Ok? ==> j + |Closer(kind)| <= r.next <= |s| && r.token.start == start
    ensures r.Ok? ==> Fits(kind, r.token.value)
    decreases |s| - j, 6, 0
  {
    var close := Closer(kind);
    if j + |close| <= |s| then
      if MatchText(s, j, close).Some? then Ok(j + |close|, Token(start, acc))
      else
        match SubElement(kind, s, j, acc)
        case NoStep => Err(BrokenToken(start))
        case StepErr(e) => Err(e)
        case Step(n, acc') => UntilEnd(kind, s, start, n, acc')
    else Err(DelimiterNotFound(close, start))
  }

  /** consume_next_sub_element of each delimited token type. */
  function SubElement(kind: DelimKind, s: string, j: nat, acc: Value): (r: Step)
    requires j < |s| && Fits(kind, acc)
    ensures r.Step? ==> j < r.next <= |s| + 1 && Fits(kind, r.acc)
    ensures kind != DictKind ==> !r.NoStep?
    decreases |s| - j, 5, 0
  {
    match kind
    case StringKind => StringStep(s, j, acc.text)
    case MultiLineKind => StringStep(s, j, acc.text)
    case ListKind => ListStep(s, j, acc.items)
    case DictKind => DictStep(s, j, acc.entries)
  }

  /** CSON_StringBase.consume_next_sub_element: one character, or a
      backslash together with the character after it (when there is one). */
  function StringStep(s: string, j: nat, text: string): (r: Step)
    requires j < |s|
    ensures r.Step? && r.acc.Str?
    ensures r.next == j + (if s[j] == '\\' then 2 else 1)
    ensures r.acc.text == text + s[j..if r.next <= |s| then r.next else |s|]
  {
    if s[j] == '\\' then
      Step(j + 2, Str(text + s[j..if j + 2 <= |s| then j + 2 else |s|]))
    else Step(j + 1, Str(text + [s[j]]))
  }

  /** CSON_ListToken.consume_next_sub_element: one element through the
      dispatcher, appended, then the whitespace after it. */
  function ListStep(s: string, j: nat, items: seq<Value>): (r: Step)
    requires j < |s|
    ensures !r.NoStep?
    ensures r.Step? ==> j < r.next <= |s| && r.acc.List?
    decreases |s| - j, 4, 0
  {
    match NextToken(s, j)
    case Ok(n, tok) => Step(SkipWs(s, n), List(items + [tok.value]))
    case Err(e) => StepErr(e)
    case NoMatch => NoStep
  }

  /** CSON_DictToken.consume_next_sub_element: whitespace, one key/value
      pair bound into the entries, then the whitespace after it. */
  function DictStep(s: string, j: nat, entries: seq<Entry>): (r: Step)
    requires j < |s|
    ensures r.Step? ==> j < r.next <= |s| && r.acc.Dict?
    decreases |s| - j, 4, 0
  {
    var k := SkipWs(s, j);
    match KeyValue(s, k)
    case Pair(n, key, v) => Step(SkipWs(s, n), Dict(Put(entries, key, v)))
    case PairErr(e) => StepErr(e)
    case NoPair => NoStep
  }

  /** CSON_DictToken._consume_key_value: a name, whitespace, then the value
      after a colon. Unpacking the None of a missing name is a TypeError. */
  function KeyValue(s: string, k: nat): (r: KeyValueResult)
    ensures r.Pair? ==> k < r.next <= |s|
    decreases |s| - k, 3, 0
  {
    match Name(s, k)
    case None => PairErr(TypeError)
    case Some(nt) =>
      var i := SkipWs(s, nt.next);
      if i == |s| then NoPair
      else if s[i] == ':' then
        match NextToken(s, i + 1)
        case Ok(n, tok) => Pair(n, nt.name, tok.value)
        case Err(e) => PairErr(e)
        case NoMatch => PairErr(TypeError)
      else NoPair
  }

  /** The result of parsing a whole document. */
  datatype DocResult = Document(entries: seq<Entry>) | Failure(error: Error)

  /** The loop of consume_document from index j. A sub-element that returns
      None makes the next loop test compare None with an int: a TypeError.
      The keys bound before j keep their order, and no key is bound twice. */
  function DocumentFrom(s: string, j: nat, entries: seq<Entry>): (r: DocResult)
    ensures r.Document? ==> Keys(entries) <= Keys(r.entries)
    ensures r.Document? && UniqueKeys(entries) ==> UniqueKeys(r.entries)
    decreases |s| - j
  {
    if j < |s| then
      match DictStep(s, j, entries)
      case Step(n, acc) =>
        var kv := KeyValue(s, SkipWs(s, j));
        PutKeepsKeysUnique(entries, kv.key, kv.value);
        DocumentFrom(s, n, acc.entries)
      case StepErr(e) => Failure(e)
      case NoStep => Failure(TypeError)
    else Document(entries)
  }

  /** consume_document and parse_cson: the text as a dictionary without
      delimiters; a parsed document never holds a key twice. */
  function Parse(s: string): (r: DocResult)
    ensures r.Document? ==> UniqueKeys(r.entries)
  {
    var j := SkipWs(s, 0);
    if |s| == 0 then Document([]) else DocumentFrom(s, j, [])
  }
}
