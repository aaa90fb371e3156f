/** Parsed values, tokens, error kinds and parse outcomes. */
module Values {

  datatype Option<+T> = None | Some(value: T)

  /** A parsed value. Numbers keep their lexeme (the source converts it with
      float(), which this model leaves out); a dictionary is its list of
      entries in insertion order, as a Python dict iterates. */
  datatype Value =
    | Str(text: string)
    | Num(lexeme: string)
    | Bool(b: bool)
    | List(items: seq<Value>)
    | Dict(entries: seq<Entry>)

  datatype Entry = Entry(key: string, val: Value)

  /** A finished token: the index recorded as its start, and its value. */
  datatype Token = Token(start: nat, value: Value)

  /** The exceptions the parser raises. TypeError stands for the Python
      runtime error raised when the code unpacks or compares a None. */
  datatype Error =
    | BrokenToken(index: nat)
    | DelimiterNotFound(delimiter: string, index: nat)
    | UnknownToken(index: nat)
    | TextEndedPrematurely
    | TypeError

  /** What one attempt to consume a token gives: no match (the source's None),
      the index after the token and the token, or a raised error. */
  datatype Outcome = NoMatch | Ok(next: nat, token: Token) | Err(error: Error)

  /** The keys of a dictionary, in insertion order. */
  function Keys(d: seq<Entry>): (ks: seq<string>)
    ensures |ks| == |d|
    ensures forall p | 0 <= p < |d| :: ks[p] == d[p].key
  {
    if d == [] then [] else [d[0].key] + Keys(d[1..])
  }

  /** The value bound to key k, if any. */
  function Lookup(d: seq<Entry>, k: string): (r: Option<Value>)
    ensures r.Some? <==> k in Keys(d)
  {
    if d == [] then None
    else if d[0].key == k then Some(d[0].val)
    else Lookup(d[1..], k)
  }

  predicate UniqueKeys(d: seq<Entry>) {
    forall p, q | 0 <= p < q < |d| :: d[p].key != d[q].key
  }

  /** Keys and lookups of a dictionary with one entry in front. */
  lemma Cons(e: Entry, rest: seq<Entry>)
    ensures Keys([e] + rest) == [e.key] + Keys(rest)
    ensures forall k | k != e.key :: Lookup([e] + rest, k) == Lookup(rest, k)
    ensures Lookup([e] + rest, e.key) == Some(e.val)
  {
    assert ([e] + rest)[1..] == rest;
  }

  /** Python's `d[k] = v`: a key already present keeps its place and gets
      the new value; a new key is appended. */
  function Put(d: seq<Entry>, k: string, v: Value): (r: seq<Entry>)
    ensures Lookup(r, k) == Some(v)
    ensures forall k' | k' != k :: Lookup(r, k') == Lookup(d, k')
    ensures Keys(r) == if k in Keys(d) then Keys(d) else Keys(d) + [k]
  {
    if d == [] then [Entry(k, v)]
    else if d[0].key == k then
      PutFront(d, v);
      [Entry(k, v)] + d[1..]
    else
      var rest := Put(d[1..], k, v);
      PutBehind(d, k, v, rest);
      [d[0]] + rest
  }

  /** Put's contract when the first entry holds the key. */
  lemma PutFront(d: seq<Entry>, v: Value)
    requires d != []
    ensures var k, r := d[0].key, [Entry(d[0].key, v)] + d[1..];
      Lookup(r, k) == Some(v) &&
      (forall k' | k' != k :: Lookup(r, k') == Lookup(d, k')) &&
      k in Keys(d) && Keys(r) == Keys(d)
  {
    Cons(d[0], d[1..]);
    assert [d[0]] + d[1..] == d;
    Cons(Entry(d[0].key, v), d[1..]);
  }

  /** Put's contract when the key is bound behind the first entry. */
  lemma PutBehind(d: seq<Entry>, k: string, v: Value, rest: seq<Entry>)
    requires d != [] && d[0].key != k
    requires Lookup(rest, k) == Some(v)
    requires forall k' | k' != k :: Lookup(rest, k') == Lookup(d[1..], k')
    requires Keys(rest) == if k in Keys(d[1..]) then Keys(d[1..]) else Keys(d[1..]) + [k]
    ensures var r := [d[0]] + rest;
      Lookup(r, k) == Some(v) &&
      (forall k' | k' != k :: Lookup(r, k') == Lookup(d, k')) &&
      Keys(r) == if k in Keys(d) then Keys(d) else Keys(d) + [k]
  {
    Cons(d[0], d[1..]);
    assert [d[0]] + d[1..] == d;
    Cons(d[0], rest);
    assert k in Keys(d) <==> k in Keys(d[1..]);
    if k !in Keys(d) {
      assert [d[0].key] + (Keys(d[1..]) + [k]) == ([d[0].key] + Keys(d[1..])) + [k];
    }
  }

  /** Binding a key never creates a duplicate key. */
  lemma PutKeepsKeysUnique(d: seq<Entry>, k: string, v: Value)
    ensures UniqueKeys(d) ==> UniqueKeys(Put(d, k, v))
  {
    if UniqueKeys(d) {
      var r := Put(d, k, v);
      forall p, q | 0 <= p < q < |r| ensures r[p].key != r[q].key {
        assert Keys(r)[p] == r[p].key && Keys(r)[q] == r[q].key;
        if k !in Keys(d) && q == |d| {
          assert Keys(d)[p] == d[p].key;
        } else {
          assert Keys(d)[p] == d[p].key && Keys(d)[q] == d[q].key;
        }
      }
    }
  }
}
