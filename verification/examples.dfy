/** Inputs from the project's tests, and inputs that show behaviour of the
    code, with the outcomes the parser gives them. */
module Examples {
  import opened Values
  import opened Leaves
  import opened Scanner
  import opened Grammar
  import opened Properties

  lemma NumbersWithoutDigit()
    ensures Number(".", 0) == NoMatch
    ensures Number(".-", 0) == NoMatch
    ensures Number(".1", 0) == NoMatch
    ensures Number("-", 0) == NoMatch
    ensures Number("-.", 0) == NoMatch
    ensures Number("-.0", 0) == NoMatch
  {
  }

  lemma BrokenNumbers()
    ensures Number("1.23f", 0) == Err(BrokenToken(0))
    ensures Number("-0.", 0) == Err(BrokenToken(0))
    ensures Number("0.", 0) == Err(BrokenToken(0))
  {
  }

  lemma NegativeDecimal()
    ensures Number("-1.23 \n", 0) == Ok(5, Token(5, Num("-1.23")))
  {
    var s := "-1.23 \n";
    DigitsEndAt(s, 2, 2);
    DigitsEndAt(s, 3, 5);
    assert s[0..5] == "-1.23";
  }

  lemma Integer()
    ensures Number("123", 0) == Ok(3, Token(3, Num("123")))
  {
    var s := "123";
    DigitsEndAt(s, 1, 3);
    assert s[0..3] == s;
  }

  lemma TrueIgnoresFollower()
    ensures Boolean("truex", 0) == Ok(4, Token(0, Bool(true)))
  {
  }

  lemma StringsWithoutOpener()
    ensures Delimited(StringKind, "", 0) == NoMatch
    ensures Delimited(StringKind, "a\"", 0) == NoMatch
  {
    MatchOneChar("a\"", 0, '"');
  }

  lemma UnterminatedStrings()
    ensures Delimited(StringKind, "\"", 0) == Err(DelimiterNotFound("\"", 1))
    ensures Delimited(StringKind, "\"a", 0) == Err(DelimiterNotFound("\"", 1))
  {
    var s := "\"a";
    MatchOneChar(s, 0, '"');
    MatchOneChar(s, 1, '"');
    UntilEndUnfold(StringKind, s, 1, 1, Str(""));
  }

  lemma EmptyString()
    ensures Delimited(StringKind, "\"\"", 0) == Ok(2, Token(1, Str("")))
  {
  }

  lemma StringHoldingNumberText()
    ensures Delimited(StringKind, "\"0.\"", 0) == Ok(4, Token(1, Str("0.")))
  {
    var s := "\"0.\"";
    PlainString(s, 0, 3);
    assert s[1..3] == "0.";
  }

  lemma StringKeepsSpaces()
    ensures Delimited(StringKind, "\" abc \"", 0) == Ok(7, Token(1, Str(" abc ")))
  {
    var s := "\" abc \"";
    PlainString(s, 0, 6);
    assert s[1..6] == " abc ";
  }

  lemma EscapedQuoteStaysVerbatim()
    ensures Delimited(StringKind, "\"a\\\"b\"", 0) == Ok(6, Token(1, Str("a\\\"b")))
  {
    var s := "\"a\\\"b\"";
    MatchOneChar(s, 0, '"');
    MatchOneChar(s, 1, '"');
    MatchOneChar(s, 2, '"');
    MatchOneChar(s, 4, '"');
    MatchOneChar(s, 5, '"');
    UntilEndUnfold(StringKind, s, 1, 1, Str(""));
    UntilEndUnfold(StringKind, s, 1, 2, Str("a"));
    assert s[2..4] == "\\\"";
    UntilEndUnfold(StringKind, s, 1, 4, Str("a\\\""));
  }

  lemma BareNameIsNotADocument()
    ensures Parse("a") == Failure(TypeError)
    ensures Parse("a b") == Failure(TypeError)
  {
    DocumentWithoutPair("a");
    DocumentWithoutPair("a b");
  }

  /** The candidate loop reads `true` wherever the text continues with it. */
  lemma TrueAt(s: string, q: nat)
    requires q + 4 <= |s| && s[q..q + 4] == "true"
    ensures FirstMatch(s, q, SubtokenTypes) == Ok(q + 4, Token(q, Bool(true)))
  {
    assert s[q] == 't' by { assert s[q..q + 4][0] == s[q]; }
    assert Consume(ListType, s, q) == NoMatch by { MatchOneChar(s, q, '['); }
    assert Consume(DictType, s, q) == NoMatch by { MatchOneChar(s, q, '{'); }
    assert Consume(StringType, s, q) == NoMatch by { MatchOneChar(s, q, '"'); }
    assert Consume(MultiLineStringType, s, q) == NoMatch by {
      MatchFirstDiffers(s, q, Opener(MultiLineKind));
    }
    assert Consume(NumberType, s, q) == NoMatch;
    assert Consume(BooleanType, s, q) == Ok(q + 4, Token(q, Bool(true))) by {
      assert !("false" <= s[q..]) by { assert s[q..][0] == s[q]; }
    }
    FirstMatchPicksFirst(s, q, SubtokenTypes, 5);
  }

  /** `true` after a colon and a space, whatever follows it. */
  lemma TrueAfterColon(s: string)
    requires 7 <= |s| && s[..7] == "a: true"
    ensures NextToken(s, 2) == Ok(7, Token(3, Bool(true)))
  {
    assert s[2] == ' ' && s[3] == 't' && s[3..7] == "true" by {
      assert s[..7][2] == s[2] && s[..7][3] == s[3];
      assert s[3..7] == s[..7][3..7];
    }
    assert SkipWs(s, 2) == 3;
    TrueAt(s, 3);
  }

  /** `a: true` at the start of a text is the pair binding `a` to true. */
  lemma PairWithTrue(s: string)
    requires 7 <= |s| && s[..7] == "a: true"
    ensures KeyValue(s, 0) == Pair(7, "a", Bool(true))
  {
    TrueAfterColon(s);
    assert s[0] == 'a' && s[1] == ':' by { assert s[..7][0] == s[0] && s[..7][1] == s[1]; }
    assert Name(s, 0) == Some(NameToken(1, 0, "a")) by {
      assert NameEnd(s, 1) == 1;
      assert s[0..1] == "a";
      assert "a" != Keywords[0] && "a" != Keywords[1];
    }
    assert SkipWs(s, 1) == 1;
  }

  lemma OnePair()
    ensures Parse("a: true") == Document([Entry("a", Bool(true))])
  {
    var s := "a: true";
    PairWithTrue(s);
    assert DictStep(s, 0, []) == Step(7, Dict([Entry("a", Bool(true))])) by {
      assert SkipWs(s, 0) == 0;
      assert SkipWs(s, 7) == 7;
      assert Put([], "a", Bool(true)) == [Entry("a", Bool(true))];
    }
    assert DocumentFrom(s, 7, [Entry("a", Bool(true))]) == Document([Entry("a", Bool(true))]);
  }

  /** A bare name after a first pair still ends the document in a TypeError. */
  lemma BareNameAfterPair()
    ensures Parse("a: true b") == Failure(TypeError)
  {
    var s := "a: true b";
    PairWithTrue(s);
    assert SkipWs(s, 7) == 8;
    assert DictStep(s, 0, []) == Step(8, Dict([Entry("a", Bool(true))])) by {
      assert SkipWs(s, 0) == 0;
      assert Put([], "a", Bool(true)) == [Entry("a", Bool(true))];
    }
    TrailingName(s);
    assert SkipWs(s, 8) == 8;
    DocumentEntryWithoutPair(s, 8, [Entry("a", Bool(true))]);
  }

  /** The `b` that ends `a: true b` is a name with no colon after it. */
  lemma TrailingName(s: string)
    requires s == "a: true b"
    ensures KeyValue(s, 8).NoPair?
  {
    assert Name(s, 8) == Some(NameToken(9, 8, "b")) by {
      assert NameEnd(s, 9) == 9;
      assert s[8..9] == "b";
      assert "b" != Keywords[0] && "b" != Keywords[1];
    }
    assert SkipWs(s, 9) == 9;
  }

  lemma CommaBreaksNumber()
    ensures NextToken("[1, 2]", 1) == Err(BrokenToken(1))
  {
    var s := "[1, 2]";
    assert SkipWs(s, 1) == 1;
    assert Consume(ListType, s, 1) == NoMatch by { MatchOneChar(s, 1, '['); }
    assert Consume(DictType, s, 1) == NoMatch by { MatchOneChar(s, 1, '{'); }
    assert Consume(StringType, s, 1) == NoMatch by { MatchOneChar(s, 1, '"'); }
    assert Consume(MultiLineStringType, s, 1) == NoMatch by {
      MatchFirstDiffers(s, 1, Opener(MultiLineKind));
    }
    assert Consume(NumberType, s, 1) == Err(BrokenToken(1)) by {
      DigitsEndAt(s, 2, 2);
    }
    FirstMatchPicksFirst(s, 1, SubtokenTypes, 4);
  }

  /** Commas are not separators: the list fails at its first element. */
  lemma CommaSeparatedList()
    ensures Delimited(ListKind, "[1, 2]", 0) == Err(BrokenToken(1))
  {
    var s := "[1, 2]";
    CommaBreaksNumber();
    MatchOneChar(s, 0, '[');
    MatchOneChar(s, 1, ']');
    UntilEndUnfold(ListKind, s, 1, 1, List([]));
  }

  /** A name without a colon inside braces is a broken dictionary. */
  lemma NameWithoutColonInDict()
    ensures Delimited(DictKind, "{a b}", 0) == Err(BrokenToken(1))
  {
    var s := "{a b}";
    assert Name(s, 1) == Some(NameToken(2, 1, "a")) by {
      assert NameEnd(s, 2) == 2;
      assert s[1..2] == "a";
      assert "a" != Keywords[0] && "a" != Keywords[1];
    }
    assert SkipWs(s, 2) == 3;
    DictEntryWithoutColon(s, 0);
  }
}
