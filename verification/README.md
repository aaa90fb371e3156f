# CSON parser model

This project models the recursive-descent CSON parser of `cson_parser.py`. The
converter from legacy Boostnote notes to Obsidian uses it to read note files.
The supported dialect is small:
- a document is a dictionary without braces, made of `name: value` pairs;
- values are `[...]` lists and `{...}` dictionaries whose elements may be separated by whitespace (`["a""b"]` is the list of `a` and `b`);
- `"..."` strings and `'''...'''` multi-line strings are kept verbatim, backslash pairs included;
- numbers look like `-12.5`;
- the literals `true` and `false`.

Each of the parser's exceptions becomes a value of the `Error` datatype:
- `BrokenTokenError`;
- `DelimiterNotFoundError`;
- `UnknownTokenError`;
- `TextEndedPrematurelyError`;
- the Python `TypeError` that two paths of the parser end in.

The model has two layers:

- **Functions that define the parser** (modules `Scanner`, `Leaves`, `Grammar`). They are mutually recursive, with the same branches, the same order of candidates and the same error indices as the Python code. Highlights:
  - `NextToken` is the dispatcher `cson_gen_next_token`.
  - `Delimited` and `UntilEnd` are `consume_delimited_generic` and `consume_until_end_seq`.
  - `StringStep`, `ListStep` and `DictStep` are the three `consume_next_sub_element` methods.
  - `KeyValue` is `_consume_key_value`, and `Parse` is `parse_cson`.
- **Imperative code** (modules `Scanner`, `Leaves`, `Engine`). Each method is proved to compute the function that defines it:
  - the scanning loops `IgnoreWhitespace`, `ConsumeName` and `ConsumeNumber`;
  - the class `DelimitedToken`, whose `value` field the sub-element methods extend in place, as the token objects of the source do;
  - the candidate loop of `GenNextToken`;
  - the delimiter loop of `ConsumeUntilEndSeq`;
  - the document loop of `ConsumeDocument`.

Modules:
- `Chars`: the character classes.
- `Values`: values, tokens, errors and dictionaries. A dictionary is an association list whose `Put` follows Python's assignment: it replaces in place or appends.
- `Scanner`: whitespace, literal matching and names.
- `Leaves`: numbers and booleans.
- `Grammar`: delimited tokens, the dispatcher and documents.
- `Engine`: the imperative parser.
- `Properties`: what the parser guarantees.
- `Examples`: inputs from the project's tests, and inputs that show behaviour of the code.

Behaviour of the code, reproduced as written:
- A number token records its end index as its start index.
- `truex` is read as `true`, with the cursor before the `x`.
- A list holding only whitespace fails with `UnknownToken` at its `]`.
- An entry that does not start with a name fails with a `TypeError`, in a document and inside `{...}` alike, because the missing name is unpacked (cson_parser.py:208).
- A name with no colon after it fails differently depending on where it is:
  - in the document, at any entry, with a `TypeError`, because the `None` the step returns is compared with an index (cson_parser.py:201-202);
  - inside `{...}`, with `BrokenToken` at the index after the `{`, because the delimiter loop treats that `None` as a broken token (cson_parser.py:360-361). So `{a b}` fails with `BrokenToken(1)`.
- A comma after a number breaks the number. So `[1, 2]` fails with `BrokenToken(1)`, not `UnknownToken`, since the number check runs before any separator could be looked at.
- A document cannot start with `{`, because a document entry has to start with a name. Written at the top level, `{ price: 5. }` therefore fails with a `TypeError`. As a value it fails with `BrokenToken` at the `5`.

## Model

| member | source | states |
|---|---|---|
| Values.Put | cson_parser.py:183 | binding a key makes it map to the new value, leaves every other key's value alone, and keeps the key order (a new key goes last, as in a Python dict) |
| Values.PutKeepsKeysUnique | cson_parser.py:183 | binding a key never introduces a duplicate key |
| Scanner.SkipWs | cson_parser.py:339-343 | the skip never moves backwards, covers only whitespace, stops at a non-space or at the end, and never leaves the input unless it started past its end |
| Scanner.SkipWsIdempotent | cson_parser.py:339-343 | skipping whitespace twice is the same as skipping it once |
| Scanner.IgnoreWhitespace | cson_parser.py:339-343 | the loop returns the index after the run of whitespace |
| Scanner.MatchAlpha | cson_parser.py:114-118 | one character is matched exactly when it is an alphabetic character inside the input, and the match ends right after it |
| Scanner.MatchText | cson_parser.py:313-320 | a literal matches exactly when the input continues with it from the index; on a match the index after it is returned and lies within the input |
| Scanner.NameEnd | cson_parser.py:133-134 | the name scan stops at the end of the maximal run of letters, digits and underscores |
| Scanner.Name | cson_parser.py:114-142 | a name starts with a letter, is the maximal run of name characters after it, and is not `true` or `false`; a letter start yields no name only when the word is one of those keywords |
| Scanner.ConsumeName | cson_parser.py:123-142 | the loop computes the name token |
| Leaves.DigitsEnd | cson_parser.py:264-266 | the digit scan stops at the end of the maximal run of digits |
| Leaves.Number | cson_parser.py:249-291 | a match spans the text from the index to the returned end, and that text is the number's lexeme; the only error is a broken token at the start index; there is no match exactly when no digit follows the optional minus sign |
| Leaves.SkipDigits | cson_parser.py:265-266 | the digit loop stops at the end of the maximal run of digits |
| Leaves.ConsumeNumber | cson_parser.py:250-291 | the scanning loops compute the number outcome |
| Leaves.NumberSound | cson_parser.py:258-291 | every accepted lexeme has the form `-?digits(.digits)?` and is followed by the end of input, whitespace, `]` or `}` |
| Leaves.NumberComplete | cson_parser.py:258-291 | every such lexeme with such a follower is accepted, ending right after the lexeme |
| Leaves.NumberBroken | cson_parser.py:276-282 | a digit start that no well-formed, properly followed lexeme completes raises BrokenToken at the start index |
| Leaves.NumberDotWithoutDigit | cson_parser.py:267-277 | a dot that is not followed by a digit raises BrokenToken |
| Leaves.Boolean | cson_parser.py:299-310 | the check never raises; it fails to match exactly when the input continues with neither `false` nor `true`, and on a match the consumed text is the keyword and the value is whether it is `true` |
| Grammar.NextToken | cson_parser.py:323-336 | the dispatcher never returns "no match", and any token it returns ends after the index it started from |
| Grammar.FirstMatch | cson_parser.py:332-336 | the candidate loop never returns "no match", and any token it returns ends after the index |
| Grammar.Consume | cson_parser.py:332-333 | a candidate's token ends after the index and within the input |
| Grammar.Delimited | cson_parser.py:151-159 | a delimited token fails to match exactly when its opener is absent; a token starts right after the opener and holds a value of its own kind |
| Grammar.UntilEnd | cson_parser.py:346-367 | the delimiter loop never returns "no match"; a token ends after the closer's length within the input, starts where the scan started, and holds a value of its kind |
| Grammar.SubElement | cson_parser.py:360 | one sub-element step advances the index and keeps the value's kind; only a dictionary step can answer None |
| Grammar.StringStep | cson_parser.py:90-97 | a backslash consumes itself and the next character (clipped at the end of input); any other character consumes itself; the text grows by exactly what was consumed |
| Grammar.ListStep | cson_parser.py:236-242 | a list step never answers None: it either raises or advances the index and keeps a list |
| Grammar.DictStep | cson_parser.py:178-188 | a dictionary step advances the index and keeps a dictionary |
| Grammar.DocumentFrom | cson_parser.py:201-204 | the document loop keeps the keys bound so far, in order, and a dictionary with unique keys stays so |
| Grammar.Parse | cson_parser.py:191-204 | every parsed document has unique keys |
| Grammar.KeyValue | cson_parser.py:206-221 | a key-value pair ends after the index and within the input |
| Engine.DelimitedToken.constructor | cson_parser.py:349 | a new token holds its kind, its start index and an empty value of its kind |
| Engine.DelimitedToken.ConsumeNextSubElement | cson_parser.py:360 | the method updates the token's value and reports the next index, or none, or the error, as the sub-element step defines |
| Engine.DelimitedToken.ConsumeCharacter | cson_parser.py:90-97 | the method extends the string value in place as the string step defines |
| Engine.DelimitedToken.ConsumeListElement | cson_parser.py:233-242 | the method appends the next element to the list value in place |
| Engine.DelimitedToken.ConsumeDictElement | cson_parser.py:178-188 | the method binds the next key-value pair in the dictionary value in place |
| Engine.ConsumeKeyValue | cson_parser.py:206-221 | the method computes the key-value outcome |
| Engine.GenNextToken | cson_parser.py:324-336 | the candidate loop computes the dispatcher's outcome |
| Engine.ConsumeCandidate | cson_parser.py:332-333 | each candidate's consume computes its outcome |
| Engine.ConsumeDelimitedGeneric | cson_parser.py:153-159 | the method computes the delimited token outcome |
| Engine.ConsumeUntilEndSeq | cson_parser.py:348-367 | the delimiter loop computes the delimited scan from an empty token |
| Engine.ConsumeDocument | cson_parser.py:191-204 | the document loop computes the parse of the whole input |
| Engine.ParseCson | cson_parser.py:370-371 | the entry point computes the parse of the whole input |
| Properties.FirstMatchPicksFirst | cson_parser.py:332-334 | the first candidate, in list order, that matches decides the dispatcher's outcome |
| Properties.FirstMatchNone | cson_parser.py:336 | when no candidate matches, UnknownToken is raised at the index |
| Properties.NextTokenChoice | cson_parser.py:326-334 | after the whitespace skip, end of input raises TextEndedPrematurely; otherwise the first matching candidate decides |
| Properties.NextTokenUnknown | cson_parser.py:326-336 | with no candidate matching after the whitespace, UnknownToken is raised at the first non-space index |
| Properties.ClosingBracketIsUnknown | cson_parser.py:332-336 | no token starts with `]` or `}`, so the candidate loop, and the dispatcher called at that index, raise UnknownToken there |
| Properties.EscapeStep | cson_parser.py:91-94 | a backslash at an unescaped position escapes exactly the next character |
| Properties.StringStepVerbatim | cson_parser.py:90-97 | each string step keeps the accumulated text equal to the input text since the opener |
| Properties.StringScan | cson_parser.py:355-364 | the string scan either ends at the first unescaped closer, with the verbatim text before it as the value, or raises DelimiterNotFound when no unescaped closer exists; it never raises BrokenToken |
| Properties.StringToken | cson_parser.py:153-159 | a string token fails to match exactly when the opener is absent; otherwise its outcome is the string scan just described |
| Properties.UntilEndCloser | cson_parser.py:355-367 | a delimited scan that succeeds ends right after the closer, which the input holds at that place |
| Properties.PlainString | cson_parser.py:348-367 | a string body with no backslash and no quote ends at the next quote, and its value is the text in between |
| Properties.ListAccumulates | cson_parser.py:233-242 | the items consumed so far stay, in order, in front of the items still to come |
| Properties.ListFirstElement | cson_parser.py:236-242 | the first element of a list comes from the dispatcher at that index, ahead of the rest |
| Properties.EmptyList | cson_parser.py:355-359 | `[]` is an empty list |
| Properties.WhitespaceOnlyList | cson_parser.py:236-237 | a list holding only whitespace raises UnknownToken at its `]` |
| Properties.PairHasColon | cson_parser.py:206-217 | every key-value pair starts with a name that becomes its key, and a colon follows that name after optional whitespace |
| Properties.DictBindsAfterColon | cson_parser.py:178-188 | every key a dictionary scan binds is a name in the scanned text that a colon follows after optional whitespace |
| Properties.DictKeepsKeys | cson_parser.py:178-188 | the keys bound so far keep their order and stay unique while the rest of the dictionary is consumed |
| Properties.EmptyDict | cson_parser.py:355-359 | `{}` is an empty dictionary |
| Properties.DictEntryWithoutName | cson_parser.py:178-188 | inside a dictionary, an entry that does not start with a name raises TypeError |
| Properties.DictNameWithoutColon | cson_parser.py:360-361 | inside a dictionary, a name with no colon after it raises BrokenToken at the index after the `{` |
| Properties.DictEntryWithoutColon | cson_parser.py:153-159 | a dictionary whose first entry is a name with no colon raises BrokenToken at the index after the `{` |
| Properties.WhitespaceOnlyDict | cson_parser.py:178-188 | a dictionary holding only whitespace ends in a TypeError, because the missing name is unpacked |
| Properties.WhitespaceDocument | cson_parser.py:195-204 | an empty or all-whitespace input is the empty document |
| Properties.DocumentBindsAfterColon | cson_parser.py:201-204 | every key a document binds is a name in the input that a colon follows after optional whitespace |
| Properties.DocumentEntryWithoutPair | cson_parser.py:201-202 | at any entry of the document loop, whatever was bound before, an entry that is a name with no colon, or has no name, ends the parse in a TypeError |
| Properties.DocumentWithoutPair | cson_parser.py:201-212 | a document whose first entry is a name with no colon, or no name at all (such as `true: 1` or a top-level `{`), ends in a TypeError |
| Examples.NumbersWithoutDigit | tests/test_cson_parser.py:88-89 | `.`, `.-`, `.1`, `-`, `-.` and `-.0` are not numbers |
| Examples.BrokenNumbers | tests/test_cson_parser.py:89 | `1.23f`, `-0.` and `0.` raise BrokenToken at 0 |
| Examples.NegativeDecimal | tests/test_cson_parser.py:90 | `-1.23` followed by whitespace is read as the lexeme `-1.23` |
| Examples.Integer | tests/test_cson_parser.py:90 | `123` is read as the lexeme `123` |
| Examples.TrueIgnoresFollower | cson_parser.py:307-308 | `truex` is read as `true`, with the cursor before the `x` |
| Examples.StringsWithoutOpener | tests/test_cson_parser.py:95 | the empty input and `a"` are not strings |
| Examples.UnterminatedStrings | tests/test_cson_parser.py:96 | `"` and `"a` raise DelimiterNotFound |
| Examples.EmptyString | tests/test_cson_parser.py:98 | `""` is the empty string |
| Examples.StringHoldingNumberText | tests/test_cson_parser.py:98 | `"0."` is the string `0.` |
| Examples.StringKeepsSpaces | tests/test_cson_parser.py:98 | `" abc "` keeps its spaces |
| Examples.EscapedQuoteStaysVerbatim | cson_parser.py:92-94 | an escaped quote does not end a string, and the backslash stays in the value |
| Examples.BareNameIsNotADocument | cson_parser.py:208-212 | the documents `a` and `a b` end in a TypeError |
| Examples.TrueAt | cson_parser.py:332-334 | the candidate loop reads `true` wherever the text continues with it |
| Examples.TrueAfterColon | cson_parser.py:324-336 | the dispatcher reads `true` after a colon and a space, whatever follows it |
| Examples.PairWithTrue | cson_parser.py:206-219 | a text starting with `a: true` starts with the pair binding `a` to true, ending after `true` |
| Examples.OnePair | cson_parser.py:191-204 | `a: true` is the document with the single entry `a` bound to true |
| Examples.BareNameAfterPair | cson_parser.py:201-202 | `a: true b` ends in a TypeError at its second entry |
| Examples.CommaBreaksNumber | cson_parser.py:281-282 | a number followed by a comma raises BrokenToken at its start |
| Examples.NameWithoutColonInDict | cson_parser.py:360-361 | `{a b}` raises BrokenToken at 1, not TypeError |
| Examples.CommaSeparatedList | cson_parser.py:16 | a comma-separated list fails with BrokenToken at its first element |

## Left out

- Leaves.Number: the value is the lexeme, not the Python float it would be converted to. Floating point is not modelled, and `float` accepts every lexeme the scan lets through.
- Leaves.Number and Leaves.Boolean: both require an index inside the input. The Python code indexes the character there without a guard, so it would raise IndexError. The dispatcher only calls them at such an index.
- Chars.IsSpace, Chars.IsAlpha, Chars.IsDigit and Chars.IsAlnum are ASCII versions of Python's `str.isspace`, `isalpha`, `isnumeric` and `isalnum`. Unicode character classes are not modelled.
- Python's recursion limit is not modelled. Deeply nested lists or dictionaries would make the Python parser raise RecursionError; the model parses them at any depth.
- The message texts of the exceptions are left out. Each error keeps only its index or delimiter.
- The mixin's `delimiters` check for a missing `_DELIMITERS` (cson_parser.py:74-78) is left out, and so is the base `consume_next_sub_element` that raises NotImplementedError. Every token type defines its delimiters and its own step, so neither is reachable.
- Two pieces of wiring are fixed data in the model rather than code:
  - `init` and the assignment of `_SUBTOKEN_TYPES` are the constant `Grammar.SubtokenTypes`;
  - the token classes and `ParserResultWrapper` are the datatypes `Token`, `Outcome` and `NameToken`.
- The `None` value of the leaf value type is never produced by the parser and is not modelled.
- `boostnote_to_obsidian.py` lists a directory, reads the `.cson` files and prints what `parse_cson` returns; `examples/basic_usage.py` prints the parse of two inline texts. Neither is part of this model.
- In the test fixture, `-.0`, `-` and `-.` are listed among the inputs that raise BrokenTokenError. The code returns `None` for them, and the model follows the code (`Examples.NumbersWithoutDigit`). The test's `pytest.raises` block stops at its first input, so the fixture does not exercise them.
