/** Leaf tokens that are not delimited: CSON_NumberToken.consume and
    CSON_BooleanToken.consume. */
module Leaves {
  import opened Chars
  import opened Values
  import opened Scanner

  /** The end of the longest run of digits starting at j. */
  function DigitsEnd(s: string, j: nat): (e: nat)
    requires j <= |s|
    ensures j <= e <= |s|
    ensures forall p | j <= p < e :: IsDigit(s[p])
    ensures e == |s| || !IsDigit(s[e])
    decreases |s| - j
  {
    if j < |s| && IsDigit(s[j]) then DigitsEnd(s, j + 1) else j
  }

  /** The index after an optional leading minus sign. */
  function SignEnd(s: string, k: nat): nat
    requires k < |s|
  {
    if s[k] == '-' then k + 1 else k
  }

  /** Where a number may stop: the end of the text, whitespace, or a
      closing bracket of a list or dictionary. */
  predicate Terminates(s: string, n: nat)
    requires n <= |s|
  {
    n == |s| || IsSpace(s[n]) || s[n] == ']' || s[n] == '}'
  }

  /** The tail check of CSON_NumberToken.consume, once the digits end at n. */
  function AfterNumber(s: string, k: nat, n: nat): Outcome
    requires k < n <= |s|
  {
    if !Terminates(s, n) then Err(BrokenToken(k))
    else Ok(n, Token(n, Num(s[k..n])))
  }

  /** CSON_NumberToken.consume. The token's recorded start is its end index,
      as the source writes it. */
  function Number(s: string, k: nat): (r: Outcome)
    requires k < |s|
    ensures r.Ok? ==> k < r.next <= |s| && r.token == Token(r.next, Num(s[k..r.next]))
    ensures r.Err? ==> r.error == BrokenToken(k)
    ensures r.NoMatch? <==> !(SignEnd(s, k) < |s| && IsDigit(s[SignEnd(s, k)]))
  {
    var a := SignEnd(s, k);
    if !(a < |s| && IsDigit(s[a])) then NoMatch
    else
      var b := DigitsEnd(s, a + 1);
      if b < |s| && s[b] == '.' then
        var c := DigitsEnd(s, b + 1);
        if c == b + 1 then Err(BrokenToken(k)) else AfterNumber(s, k, c)
      else AfterNumber(s, k, b)
  }

  /** The digit loops of CSON_NumberToken.consume: advance over digits. */
  method SkipDigits(s: string, j: nat) returns (e: nat)
    requires j <= |s|
    ensures e == DigitsEnd(s, j)
  {
    e := j;
    while e < |s| && IsDigit(s[e])
      invariant j <= e <= |s|
      invariant DigitsEnd(s, e) == DigitsEnd(s, j)
      decreases |s| - e
    {
      e := e + 1;
    }
  }

  /** CSON_NumberToken.consume, scanning with an index as the source does. */
  method ConsumeNumber(s: string, k: nat) returns (r: Outcome)
    requires k < |s|
    ensures r == Number(s, k)
  {
    var index := k;
    if s[index] == '-' {
      index := index + 1;
    }
    if index < |s| && IsDigit(s[index]) {
      index := index + 1;
    } else {
      return NoMatch;
    }
    index := SkipDigits(s, index);
    if index < |s| && s[index] == '.' {
      index := index + 1;
      var afterDot := index;
      index := SkipDigits(s, index);
      if index == afterDot {
        return Err(BrokenToken(k));
      }
    }
    assert Number(s, k) == AfterNumber(s, k, index);
    if index < |s| && !(IsSpace(s[index]) || s[index] == ']' || s[index] == '}') {
      return Err(BrokenToken(k));
    }
    r := Ok(index, Token(index, Num(s[k..index])));
  }

  /** A non-empty run of digits. */
  predicate IsDigits(t: string) {
    |t| > 0 && forall p | 0 <= p < |t| :: IsDigit(t[p])
  }

  /** Digits, optionally followed by a dot and more digits. */
  predicate IsUnsignedLexeme(u: string) {
    IsDigits(u) || exists d | 0 < d < |u| - 1 :: u[d] == '.' && IsDigits(u[..d]) && IsDigits(u[d + 1..])
  }

  /** The number grammar -?[0-9]+(\.[0-9]+)? the consumer implements. */
  predicate IsNumberLexeme(t: string) {
    IsUnsignedLexeme(t) || (|t| > 0 && t[0] == '-' && IsUnsignedLexeme(t[1..]))
  }

  lemma {:induction false} DigitsEndAt(s: string, j: nat, n: nat)
    requires j <= n <= |s|
    requires forall p | j <= p < n :: IsDigit(s[p])
    requires n == |s| || !IsDigit(s[n])
    ensures DigitsEnd(s, j) == n
    decreases n - j
  {
    if j < n {
      DigitsEndAt(s, j + 1, n);
    }
  }

  lemma UnsignedFromRun(s: string, a: nat, b: nat, c: nat)
    requires a < b <= c <= |s|
    requires forall p | a <= p < b :: IsDigit(s[p])
    requires c == b || (s[b] == '.' && b + 1 < c && forall p | b + 1 <= p < c :: IsDigit(s[p]))
    ensures IsUnsignedLexeme(s[a..c])
  {
    var u := s[a..c];
    if c == b {
      assert IsDigits(u);
    } else {
      var d := b - a;
      assert u[..d] == s[a..b];
      assert u[d + 1..] == s[b + 1..c];
      assert u[d] == '.' && IsDigits(u[..d]) && IsDigits(u[d + 1..]);
    }
  }

  /** Every number the consumer accepts is a lexeme of the number grammar
      followed by whitespace, a closing bracket or the end of the text. */
  lemma NumberSound(s: string, k: nat)
    requires k < |s|
    ensures var r := Number(s, k);
      r.Ok? ==> IsNumberLexeme(s[k..r.next]) && Terminates(s, r.next)
  {
    var r := Number(s, k);
    if r.Ok? {
      var a := SignEnd(s, k);
      var b := DigitsEnd(s, a + 1);
      var n := r.next;
      if b < |s| && s[b] == '.' {
        UnsignedFromRun(s, a, b, n);
      } else {
        UnsignedFromRun(s, a, b, b);
      }
      if s[k] == '-' {
        assert s[k..n][1..] == s[a..n];
      }
    }
  }

  lemma UnsignedStartsWithDigit(u: string)
    requires IsUnsignedLexeme(u)
    ensures |u| > 0 && IsDigit(u[0])
  {
    if !IsDigits(u) {
      var d :| 0 < d < |u| - 1 && u[d] == '.' && IsDigits(u[..d]) && IsDigits(u[d + 1..]);
      assert u[..d][0] == u[0];
    }
  }

  /** A run of digits inside the input, read off a slice of it. */
  lemma DigitsInSlice(s: string, a: nat, n: nat, i: nat, j: nat)
    requires a <= n <= |s| && i <= j <= n - a
    requires forall p | i <= p < j :: IsDigit(s[a..n][p])
    ensures forall p | a + i <= p < a + j :: IsDigit(s[p])
  {
    forall p | a + i <= p < a + j ensures IsDigit(s[p]) {
      assert s[p] == s[a..n][p - a];
    }
  }

  /** The digit scan over an unsigned lexeme without a dot. */
  lemma IntegerScan(s: string, a: nat, n: nat)
    requires a < n <= |s| && IsDigits(s[a..n]) && Terminates(s, n)
    ensures IsDigit(s[a]) && DigitsEnd(s, a + 1) == n
  {
    assert s[a] == s[a..n][0];
    DigitsInSlice(s, a, n, 1, n - a);
    DigitsEndAt(s, a + 1, n);
  }

  /** The digit scans over an unsigned lexeme whose dot is at a + d. */
  lemma DecimalScan(s: string, a: nat, n: nat, d: nat)
    requires a < n <= |s| && Terminates(s, n)
    requires 0 < d < n - a - 1 && s[a + d] == '.'
    requires IsDigits(s[a..n][..d]) && IsDigits(s[a..n][d + 1..])
    ensures IsDigit(s[a])
    ensures DigitsEnd(s, a + 1) == a + d && DigitsEnd(s, a + d + 1) == n
  {
    var u := s[a..n];
    assert s[a] == u[..d][0];
    assert forall p | 0 <= p < d :: IsDigit(u[p]) by {
      forall p | 0 <= p < d ensures IsDigit(u[p]) { assert u[p] == u[..d][p]; }
    }
    DigitsInSlice(s, a, n, 1, d);
    DigitsEndAt(s, a + 1, a + d);
    assert forall p | d + 1 <= p < n - a :: IsDigit(u[p]) by {
      forall p | d + 1 <= p < n - a ensures IsDigit(u[p]) { assert u[p] == u[d + 1..][p - d - 1]; }
    }
    DigitsInSlice(s, a, n, d + 1, n - a);
    DigitsEndAt(s, a + d + 1, n);
  }

  /** How the digit scans of the consumer meet an unsigned lexeme s[a..n]. */
  lemma UnsignedScan(s: string, a: nat, n: nat)
    requires a < n <= |s|
    requires IsUnsignedLexeme(s[a..n]) && Terminates(s, n)
    ensures IsDigit(s[a])
    ensures var b := DigitsEnd(s, a + 1);
      if b < |s| && s[b] == '.' then b + 1 < n && DigitsEnd(s, b + 1) == n else b == n
  {
    var u := s[a..n];
    if IsDigits(u) {
      IntegerScan(s, a, n);
      assert n < |s| ==> s[n] != '.';
    } else {
      var d :| 0 < d < |u| - 1 && u[d] == '.' && IsDigits(u[..d]) && IsDigits(u[d + 1..]);
      assert s[a + d] == u[d];
      DecimalScan(s, a, n, d);
    }
  }

  /** Every lexeme of the number grammar that is followed by whitespace, a
      closing bracket or the end of the text is consumed whole. */
  lemma NumberComplete(s: string, k: nat, n: nat)
    requires k < n <= |s|
    requires IsNumberLexeme(s[k..n]) && Terminates(s, n)
    ensures Number(s, k) == Ok(n, Token(n, Num(s[k..n])))
  {
    SignedLexeme(s, k, n);
    UnsignedScan(s, SignEnd(s, k), n);
  }

  /** Past its optional minus sign, a number lexeme is an unsigned one. */
  lemma SignedLexeme(s: string, k: nat, n: nat)
    requires k < n <= |s| && IsNumberLexeme(s[k..n])
    ensures SignEnd(s, k) < n && IsUnsignedLexeme(s[SignEnd(s, k)..n])
  {
    var a := SignEnd(s, k);
    var t := s[k..n];
    assert t[0] == s[k];
    if IsUnsignedLexeme(t) {
      UnsignedStartsWithDigit(t);
      assert s[a..n] == t;
    } else {
      assert s[a..n] == t[1..];
      UnsignedStartsWithDigit(t[1..]);
    }
  }

  /** Once a digit follows the optional minus sign, anything other than a
      complete number followed by a terminator is a broken token. */
  lemma NumberBroken(s: string, k: nat)
    requires k < |s|
    requires SignEnd(s, k) < |s| && IsDigit(s[SignEnd(s, k)])
    requires forall n | k < n <= |s| :: !(IsNumberLexeme(s[k..n]) && Terminates(s, n))
    ensures Number(s, k) == Err(BrokenToken(k))
  {
    NumberSound(s, k);
  }

  /** A dot with no digit after it is a broken token, whatever follows. */
  lemma NumberDotWithoutDigit(s: string, k: nat)
    requires k < |s|
    requires SignEnd(s, k) < |s| && IsDigit(s[SignEnd(s, k)])
    requires var b := DigitsEnd(s, SignEnd(s, k) + 1);
      b < |s| && s[b] == '.' && (b + 1 == |s| || !IsDigit(s[b + 1]))
    ensures Number(s, k) == Err(BrokenToken(k))
  {
  }

  /** CSON_BooleanToken.consume: false is tried before true; the character
      after the literal is not examined. */
  function Boolean(s: string, k: nat): (r: Outcome)
    requires k < |s|
    ensures !r.Err?
    ensures r.NoMatch? <==> !("false" <= s[k..]) && !("true" <= s[k..])
    ensures r.Ok? ==> r.token.start == k && k < r.next <= |s|
    ensures r.Ok? ==> s[k..r.next] in Keywords && r.token.value == Bool(s[k..r.next] == "true")
  {
    if s[k] == 'f' && MatchText(s, k, "false").Some? then Ok(k + 5, Token(k, Bool(false)))
    else if s[k] == 't' && MatchText(s, k, "true").Some? then Ok(k + 4, Token(k, Bool(true)))
    else NoMatch
  }
}
