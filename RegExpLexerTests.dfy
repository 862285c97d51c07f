/**
 * The token streams that RegExpLexerTest expects, one lemma per test case,
 * proved against the scanning specification `Tokens`. Each test input is a
 * parameter pinned by `requires`, and a companion lemma evaluates every
 * scanning step of that input on its own.
 */
module RegExpLexerTests {
  import opened RegExpLexer

  /** If the step at `pos` emits `t` and moves to `next`, the stream from `pos` is `t` followed by the stream after it. */
  lemma Emits(caps: set<Capability>, s: string, pos: nat, m: Mode, t: Token, next: Mode)
    requires pos < |s| && pos + |t.text| <= |s|
    requires Step(caps, s, pos, m) == Scan(t.kind, |t.text|, next)
    requires s[pos..pos + |t.text|] == t.text
    ensures TokensFrom(caps, s, pos, m) == [t] + TokensFrom(caps, s, pos + |t.text|, next)
  {
  }

  /** The scanning steps of the input of TestAmpersand over offsets 0 to 5. */
  lemma AmpersandSteps0(caps: set<Capability>, s: string)
    requires caps == {} && s == "[a&&]"
    ensures |s| == 5
    ensures Step(caps, s, 0, Mode(0, InBody, Outside, false)) == Scan(ClassBegin, 1, Mode(1, AtOpen, Outside, false))
    ensures s[0..1] == "["
    ensures Step(caps, s, 1, Mode(1, AtOpen, Outside, false)) == Scan(Character, 1, Mode(1, InBody, Outside, false))
    ensures s[1..2] == "a"
    ensures Step(caps, s, 2, Mode(1, InBody, Outside, false)) == Scan(Character, 1, Mode(1, InBody, Outside, false))
    ensures s[2..3] == "&"
    ensures Step(caps, s, 3, Mode(1, InBody, Outside, false)) == Scan(Character, 1, Mode(1, InBody, Outside, false))
    ensures s[3..4] == "&"
    ensures Step(caps, s, 4, Mode(1, InBody, Outside, false)) == Scan(ClassEnd, 1, Mode(0, InBody, Outside, false))
    ensures s[4..5] == "]"
  {
  }

  /** RegExpLexerTest.java:28-35 */
  lemma TestAmpersand(caps: set<Capability>, s: string)
    requires caps == {} && s == "[a&&]"
    ensures Tokens(caps, s) == [
        Token(ClassBegin, "["),
        Token(Character, "a"),
        Token(Character, "&"),
        Token(Character, "&"),
        Token(ClassEnd, "]")]
  {
    AmpersandSteps0(caps, s);
    Emits(caps, s, 0, Mode(0, InBody, Outside, false), Token(ClassBegin, "["), Mode(1, AtOpen, Outside, false));
    Emits(caps, s, 1, Mode(1, AtOpen, Outside, false), Token(Character, "a"), Mode(1, InBody, Outside, false));
    Emits(caps, s, 2, Mode(1, InBody, Outside, false), Token(Character, "&"), Mode(1, InBody, Outside, false));
    Emits(caps, s, 3, Mode(1, InBody, Outside, false), Token(Character, "&"), Mode(1, InBody, Outside, false));
    Emits(caps, s, 4, Mode(1, InBody, Outside, false), Token(ClassEnd, "]"), Mode(0, InBody, Outside, false));
    assert TokensFrom(caps, s, |s|, Mode(0, InBody, Outside, false)) == [];
  }

  /** The scanning steps of the input of TestQuoteEscapes over offsets 0 to 6. */
  lemma QuoteEscapesSteps0(caps: set<Capability>, s: string)
    requires caps == {} && s == "\\Q\r\n\\E"
    ensures |s| == 6
    ensures Step(caps, s, 0, Mode(0, InBody, Outside, false)) == Scan(QuoteBegin, 2, Mode(0, InBody, Outside, true))
    ensures s[0..2] == "\\Q"
    ensures Step(caps, s, 2, Mode(0, InBody, Outside, true)) == Scan(Character, 1, Mode(0, InBody, Outside, true))
    ensures s[2..3] == "\r"
    ensures Step(caps, s, 3, Mode(0, InBody, Outside, true)) == Scan(Character, 1, Mode(0, InBody, Outside, true))
    ensures s[3..4] == "\n"
    ensures Step(caps, s, 4, Mode(0, InBody, Outside, true)) == Scan(QuoteEnd, 2, Mode(0, InBody, Outside, false))
    ensures s[4..6] == "\\E"
  {
  }

  /** RegExpLexerTest.java:37-44 */
  lemma TestQuoteEscapes(caps: set<Capability>, s: string)
    requires caps == {} && s == "\\Q\r\n\\E"
    ensures Tokens(caps, s) == [
        Token(QuoteBegin, "\\Q"),
        Token(Character, "\r"),
        Token(Character, "\n"),
        Token(QuoteEnd, "\\E")]
  {
    QuoteEscapesSteps0(caps, s);
    Emits(caps, s, 0, Mode(0, InBody, Outside, false), Token(QuoteBegin, "\\Q"), Mode(0, InBody, Outside, true));
    Emits(caps, s, 2, Mode(0, InBody, Outside, true), Token(Character, "\r"), Mode(0, InBody, Outside, true));
    Emits(caps, s, 3, Mode(0, InBody, Outside, true), Token(Character, "\n"), Mode(0, InBody, Outside, true));
    Emits(caps, s, 4, Mode(0, InBody, Outside, true), Token(QuoteEnd, "\\E"), Mode(0, InBody, Outside, false));
    assert TokensFrom(caps, s, |s|, Mode(0, InBody, Outside, false)) == [];
  }

  /** The scanning steps of the input of TestEditorReplacement over offsets 0 to 3. */
  lemma EditorReplacementSteps0(caps: set<Capability>, s: string)
    requires caps == {TransformationEscapes} && s == "\\U$1\\E\\u$3\\l$4\\L$2\\E"
    ensures |s| == 20
    ensures Step(caps, s, 0, Mode(0, InBody, Outside, false)) == Scan(CharClass, 2, Mode(0, InBody, Outside, false))
    ensures s[0..2] == "\\U"
    ensures Step(caps, s, 2, Mode(0, InBody, Outside, false)) == Scan(Dollar, 1, Mode(0, InBody, Outside, false))
    ensures s[2..3] == "$"
  {
  }

  /** The scanning steps of the input of TestEditorReplacement over offsets 3 to 6. */
  lemma EditorReplacementSteps3(caps: set<Capability>, s: string)
    requires caps == {TransformationEscapes} && s == "\\U$1\\E\\u$3\\l$4\\L$2\\E"
    ensures |s| == 20
    ensures Step(caps, s, 3, Mode(0, InBody, Outside, false)) == Scan(Character, 1, Mode(0, InBody, Outside, false))
    ensures s[3..4] == "1"
    ensures Step(caps, s, 4, Mode(0, InBody, Outside, false)) == Scan(CharClass, 2, Mode(0, InBody, Outside, false))
    ensures s[4..6] == "\\E"
  {
  }

  /** The scanning steps of the input of TestEditorReplacement over offsets 6 to 12. */
  lemma EditorReplacementSteps6(caps: set<Capability>, s: string)
    requires caps == {TransformationEscapes} && s == "\\U$1\\E\\u$3\\l$4\\L$2\\E"
    ensures |s| == 20
    ensures Step(caps, s, 6, Mode(0, InBody, Outside, false)) == Scan(CharClass, 2, Mode(0, InBody, Outside, false))
    ensures s[6..8] == "\\u"
    ensures Step(caps, s, 8, Mode(0, InBody, Outside, false)) == Scan(Dollar, 1, Mode(0, InBody, Outside, false))
    ensures s[8..9] == "$"
    ensures Step(caps, s, 9, Mode(0, InBody, Outside, false)) == Scan(Character, 1, Mode(0, InBody, Outside, false))
    ensures s[9..10] == "3"
    ensures Step(caps, s, 10, Mode(0, InBody, Outside, false)) == Scan(CharClass, 2, Mode(0, InBody, Outside, false))
    ensures s[10..12] == "\\l"
  {
  }

  /** The scanning steps of the input of TestEditorReplacement over offsets 12 to 17. */
  lemma EditorReplacementSteps12(caps: set<Capability>, s: string)
    requires caps == {TransformationEscapes} && s == "\\U$1\\E\\u$3\\l$4\\L$2\\E"
    ensures |s| == 20
    ensures Step(caps, s, 12, Mode(0, InBody, Outside, false)) == Scan(Dollar, 1, Mode(0, InBody, Outside, false))
    ensures s[12..13] == "$"
    ensures Step(caps, s, 13, Mode(0, InBody, Outside, false)) == Scan(Character, 1, Mode(0, InBody, Outside, false))
    ensures s[13..14] == "4"
    ensures Step(caps, s, 14, Mode(0, InBody, Outside, false)) == Scan(CharClass, 2, Mode(0, InBody, Outside, false))
    ensures s[14..16] == "\\L"
    ensures Step(caps, s, 16, Mode(0, InBody, Outside, false)) == Scan(Dollar, 1, Mode(0, InBody, Outside, false))
    ensures s[16..17] == "$"
  {
  }

  /** The scanning steps of the input of TestEditorReplacement over offsets 17 to 20. */
  lemma EditorReplacementSteps17(caps: set<Capability>, s: string)
    requires caps == {TransformationEscapes} && s == "\\U$1\\E\\u$3\\l$4\\L$2\\E"
    ensures |s| == 20
    ensures Step(caps, s, 17, Mode(0, InBody, Outside, false)) == Scan(Character, 1, Mode(0, InBody, Outside, false))
    ensures s[17..18] == "2"
    ensures Step(caps, s, 18, Mode(0, InBody, Outside, false)) == Scan(CharClass, 2, Mode(0, InBody, Outside, false))
    ensures s[18..20] == "\\E"
  {
  }

  /** RegExpLexerTest.java:46-65 */
  lemma TestEditorReplacement(caps: set<Capability>, s: string)
    requires caps == {TransformationEscapes} && s == "\\U$1\\E\\u$3\\l$4\\L$2\\E"
    ensures Tokens(caps, s) == [
        Token(CharClass, "\\U"),
        Token(Dollar, "$"),
        Token(Character, "1"),
        Token(CharClass, "\\E"),
        Token(CharClass, "\\u"),
        Token(Dollar, "$"),
        Token(Character, "3"),
        Token(CharClass, "\\l"),
        Token(Dollar, "$"),
        Token(Character, "4"),
        Token(CharClass, "\\L"),
        Token(Dollar, "$"),
        Token(Character, "2"),
        Token(CharClass, "\\E")]
  {
    EditorReplacementSteps0(caps, s);
    EditorReplacementSteps3(caps, s);
    EditorReplacementSteps6(caps, s);
    EditorReplacementSteps12(caps, s);
    EditorReplacementSteps17(caps, s);
    Emits(caps, s, 0, Mode(0, InBody, Outside, false), Token(CharClass, "\\U"), Mode(0, InBody, Outside, false));
    Emits(caps, s, 2, Mode(0, InBody, Outside, false), Token(Dollar, "$"), Mode(0, InBody, Outside, false));
    Emits(caps, s, 3, Mode(0, InBody, Outside, false), Token(Character, "1"), Mode(0, InBody, Outside, false));
    Emits(caps, s, 4, Mode(0, InBody, Outside, false), Token(CharClass, "\\E"), Mode(0, InBody, Outside, false));
    Emits(caps, s, 6, Mode(0, InBody, Outside, false), Token(CharClass, "\\u"), Mode(0, InBody, Outside, false));
    Emits(caps, s, 8, Mode(0, InBody, Outside, false), Token(Dollar, "$"), Mode(0, InBody, Outside, false));
    Emits(caps, s, 9, Mode(0, InBody, Outside, false), Token(Character, "3"), Mode(0, InBody, Outside, false));
    Emits(caps, s, 10, Mode(0, InBody, Outside, false), Token(CharClass, "\\l"), Mode(0, InBody, Outside, false));
    Emits(caps, s, 12, Mode(0, InBody, Outside, false), Token(Dollar, "$"), Mode(0, InBody, Outside, false));
    Emits(caps, s, 13, Mode(0, InBody, Outside, false), Token(Character, "4"), Mode(0, InBody, Outside, false));
    Emits(caps, s, 14, Mode(0, InBody, Outside, false), Token(CharClass, "\\L"), Mode(0, InBody, Outside, false));
    Emits(caps, s, 16, Mode(0, InBody, Outside, false), Token(Dollar, "$"), Mode(0, InBody, Outside, false));
    Emits(caps, s, 17, Mode(0, InBody, Outside, false), Token(Character, "2"), Mode(0, InBody, Outside, false));
    Emits(caps, s, 18, Mode(0, InBody, Outside, false), Token(CharClass, "\\E"), Mode(0, InBody, Outside, false));
    assert TokensFrom(caps, s, |s|, Mode(0, InBody, Outside, false)) == [];
  }

  /** The scanning steps of the input of TestEditorReplacementPlain over offsets 0 to 3. */
  lemma EditorReplacementPlainSteps0(caps: set<Capability>, s: string)
    requires caps == {} && s == "\\U$1\\E\\u$3\\l$4\\L$2\\E"
    ensures |s| == 20
    ensures Step(caps, s, 0, Mode(0, InBody, Outside, false)) == Scan(InvalidCharacterEscape, 2, Mode(0, InBody, Outside, false))
    ensures s[0..2] == "\\U"
    ensures Step(caps, s, 2, Mode(0, InBody, Outside, false)) == Scan(Dollar, 1, Mode(0, InBody, Outside, false))
    ensures s[2..3] == "$"
  {
  }

  /** The scanning steps of the input of TestEditorReplacementPlain over offsets 3 to 6. */
  lemma EditorReplacementPlainSteps3(caps: set<Capability>, s: string)
    requires caps == {} && s == "\\U$1\\E\\u$3\\l$4\\L$2\\E"
    ensures |s| == 20
    ensures Step(caps, s, 3, Mode(0, InBody, Outside, false)) == Scan(Character, 1, Mode(0, InBody, Outside, false))
    ensures s[3..4] == "1"
    ensures Step(caps, s, 4, Mode(0, InBody, Outside, false)) == Scan(InvalidCharacterEscape, 2, Mode(0, InBody, Outside, false))
    ensures s[4..6] == "\\E"
  {
  }

  /** The scanning steps of the input of TestEditorReplacementPlain over offsets 6 to 9. */
  lemma EditorReplacementPlainSteps6(caps: set<Capability>, s: string)
    requires caps == {} && s == "\\U$1\\E\\u$3\\l$4\\L$2\\E"
    ensures |s| == 20
    ensures Step(caps, s, 6, Mode(0, InBody, Outside, false)) == Scan(InvalidUnicodeEscape, 2, Mode(0, InBody, Outside, false))
    ensures s[6..8] == "\\u"
    ensures Step(caps, s, 8, Mode(0, InBody, Outside, false)) == Scan(Dollar, 1, Mode(0, InBody, Outside, false))
    ensures s[8..9] == "$"
  {
  }

  /** The scanning steps of the input of TestEditorReplacementPlain over offsets 9 to 12. */
  lemma EditorReplacementPlainSteps9(caps: set<Capability>, s: string)
    requires caps == {} && s == "\\U$1\\E\\u$3\\l$4\\L$2\\E"
    ensures |s| == 20
    ensures Step(caps, s, 9, Mode(0, InBody, Outside, false)) == Scan(Character, 1, Mode(0, InBody, Outside, false))
    ensures s[9..10] == "3"
    ensures Step(caps, s, 10, Mode(0, InBody, Outside, false)) == Scan(InvalidCharacterEscape, 2, Mode(0, InBody, Outside, false))
    ensures s[10..12] == "\\l"
  {
  }

  /** The scanning steps of the input of TestEditorReplacementPlain over offsets 12 to 17. */
  lemma EditorReplacementPlainSteps12(caps: set<Capability>, s: string)
    requires caps == {} && s == "\\U$1\\E\\u$3\\l$4\\L$2\\E"
    ensures |s| == 20
    ensures Step(caps, s, 12, Mode(0, InBody, Outside, false)) == Scan(Dollar, 1, Mode(0, InBody, Outside, false))
    ensures s[12..13] == "$"
    ensures Step(caps, s, 13, Mode(0, InBody, Outside, false)) == Scan(Character, 1, Mode(0, InBody, Outside, false))
    ensures s[13..14] == "4"
    ensures Step(caps, s, 14, Mode(0, InBody, Outside, false)) == Scan(InvalidCharacterEscape, 2, Mode(0, InBody, Outside, false))
    ensures s[14..16] == "\\L"
    ensures Step(caps, s, 16, Mode(0, InBody, Outside, false)) == Scan(Dollar, 1, Mode(0, InBody, Outside, false))
    ensures s[16..17] == "$"
  {
  }

  /** The scanning steps of the input of TestEditorReplacementPlain over offsets 17 to 20. */
  lemma EditorReplacementPlainSteps17(caps: set<Capability>, s: string)
    requires caps == {} && s == "\\U$1\\E\\u$3\\l$4\\L$2\\E"
    ensures |s| == 20
    ensures Step(caps, s, 17, Mode(0, InBody, Outside, false)) == Scan(Character, 1, Mode(0, InBody, Outside, false))
    ensures s[17..18] == "2"
    ensures Step(caps, s, 18, Mode(0, InBody, Outside, false)) == Scan(InvalidCharacterEscape, 2, Mode(0, InBody, Outside, false))
    ensures s[18..20] == "\\E"
  {
  }

  /** RegExpLexerTest.java:67-79 */
  lemma TestEditorReplacementPlain(caps: set<Capability>, s: string)
    requires caps == {} && s == "\\U$1\\E\\u$3\\l$4\\L$2\\E"
    ensures Tokens(caps, s) == [
        Token(InvalidCharacterEscape, "\\U"),
        Token(Dollar, "$"),
        Token(Character, "1"),
        Token(InvalidCharacterEscape, "\\E"),
        Token(InvalidUnicodeEscape, "\\u"),
        Token(Dollar, "$"),
        Token(Character, "3"),
        Token(InvalidCharacterEscape, "\\l"),
        Token(Dollar, "$"),
        Token(Character, "4"),
        Token(InvalidCharacterEscape, "\\L"),
        Token(Dollar, "$"),
        Token(Character, "2"),
        Token(InvalidCharacterEscape, "\\E")]
  {
    EditorReplacementPlainSteps0(caps, s);
    EditorReplacementPlainSteps3(caps, s);
    EditorReplacementPlainSteps6(caps, s);
    EditorReplacementPlainSteps9(caps, s);
    EditorReplacementPlainSteps12(caps, s);
    EditorReplacementPlainSteps17(caps, s);
    Emits(caps, s, 0, Mode(0, InBody, Outside, false), Token(InvalidCharacterEscape, "\\U"), Mode(0, InBody, Outside, false));
    Emits(caps, s, 2, Mode(0, InBody, Outside, false), Token(Dollar, "$"), Mode(0, InBody, Outside, false));
    Emits(caps, s, 3, Mode(0, InBody, Outside, false), Token(Character, "1"), Mode(0, InBody, Outside, false));
    Emits(caps, s, 4, Mode(0, InBody, Outside, false), Token(InvalidCharacterEscape, "\\E"), Mode(0, InBody, Outside, false));
    Emits(caps, s, 6, Mode(0, InBody, Outside, false), Token(InvalidUnicodeEscape, "\\u"), Mode(0, InBody, Outside, false));
    Emits(caps, s, 8, Mode(0, InBody, Outside, false), Token(Dollar, "$"), Mode(0, InBody, Outside, false));
    Emits(caps, s, 9, Mode(0, InBody, Outside, false), Token(Character, "3"), Mode(0, InBody, Outside, false));
    Emits(caps, s, 10, Mode(0, InBody, Outside, false), Token(InvalidCharacterEscape, "\\l"), Mode(0, InBody, Outside, false));
    Emits(caps, s, 12, Mode(0, InBody, Outside, false), Token(Dollar, "$"), Mode(0, InBody, Outside, false));
    Emits(caps, s, 13, Mode(0, InBody, Outside, false), Token(Character, "4"), Mode(0, InBody, Outside, false));
    Emits(caps, s, 14, Mode(0, InBody, Outside, false), Token(InvalidCharacterEscape, "\\L"), Mode(0, InBody, Outside, false));
    Emits(caps, s, 16, Mode(0, InBody, Outside, false), Token(Dollar, "$"), Mode(0, InBody, Outside, false));
    Emits(caps, s, 17, Mode(0, InBody, Outside, false), Token(Character, "2"), Mode(0, InBody, Outside, false));
    Emits(caps, s, 18, Mode(0, InBody, Outside, false), Token(InvalidCharacterEscape, "\\E"), Mode(0, InBody, Outside, false));
    assert TokensFrom(caps, s, |s|, Mode(0, InBody, Outside, false)) == [];
  }

  /** The scanning steps of the input of TestIntersection over offsets 0 to 5. */
  lemma IntersectionSteps0(caps: set<Capability>, s: string)
    requires caps == {NestedCharacterClasses} && s == "[a&&]"
    ensures |s| == 5
    ensures Step(caps, s, 0, Mode(0, InBody, Outside, false)) == Scan(ClassBegin, 1, Mode(1, AtOpen, Outside, false))
    ensures s[0..1] == "["
    ensures Step(caps, s, 1, Mode(1, AtOpen, Outside, false)) == Scan(Character, 1, Mode(1, InBody, Outside, false))
    ensures s[1..2] == "a"
    ensures Step(caps, s, 2, Mode(1, InBody, Outside, false)) == Scan(AndAnd, 2, Mode(1, InBody, Outside, false))
    ensures s[2..4] == "&&"
    ensures Step(caps, s, 4, Mode(1, InBody, Outside, false)) == Scan(ClassEnd, 1, Mode(0, InBody, Outside, false))
    ensures s[4..5] == "]"
  {
  }

  /** RegExpLexerTest.java:82-88 */
  lemma TestIntersection(caps: set<Capability>, s: string)
    requires caps == {NestedCharacterClasses} && s == "[a&&]"
    ensures Tokens(caps, s) == [
        Token(ClassBegin, "["),
        Token(Character, "a"),
        Token(AndAnd, "&&"),
        Token(ClassEnd, "]")]
  {
    IntersectionSteps0(caps, s);
    Emits(caps, s, 0, Mode(0, InBody, Outside, false), Token(ClassBegin, "["), Mode(1, AtOpen, Outside, false));
    Emits(caps, s, 1, Mode(1, AtOpen, Outside, false), Token(Character, "a"), Mode(1, InBody, Outside, false));
    Emits(caps, s, 2, Mode(1, InBody, Outside, false), Token(AndAnd, "&&"), Mode(1, InBody, Outside, false));
    Emits(caps, s, 4, Mode(1, InBody, Outside, false), Token(ClassEnd, "]"), Mode(0, InBody, Outside, false));
    assert TokensFrom(caps, s, |s|, Mode(0, InBody, Outside, false)) == [];
  }

  /** The scanning steps of the input of TestCarets over offsets 0 to 5. */
  lemma CaretsSteps0(caps: set<Capability>, s: string)
    requires caps == {} && s == "^\\^[^^]"
    ensures |s| == 7
    ensures Step(caps, s, 0, Mode(0, InBody, Outside, false)) == Scan(Caret, 1, Mode(0, InBody, Outside, false))
    ensures s[0..1] == "^"
    ensures Step(caps, s, 1, Mode(0, InBody, Outside, false)) == Scan(EscCharacter, 2, Mode(0, InBody, Outside, false))
    ensures s[1..3] == "\\^"
    ensures Step(caps, s, 3, Mode(0, InBody, Outside, false)) == Scan(ClassBegin, 1, Mode(1, AtOpen, Outside, false))
    ensures s[3..4] == "["
    ensures Step(caps, s, 4, Mode(1, AtOpen, Outside, false)) == Scan(Caret, 1, Mode(1, AtNegation, Outside, false))
    ensures s[4..5] == "^"
  {
  }

  /** The scanning steps of the input of TestCarets over offsets 5 to 7. */
  lemma CaretsSteps5(caps: set<Capability>, s: string)
    requires caps == {} && s == "^\\^[^^]"
    ensures |s| == 7
    ensures Step(caps, s, 5, Mode(1, AtNegation, Outside, false)) == Scan(Character, 1, Mode(1, InBody, Outside, false))
    ensures s[5..6] == "^"
    ensures Step(caps, s, 6, Mode(1, InBody, Outside, false)) == Scan(ClassEnd, 1, Mode(0, InBody, Outside, false))
    ensures s[6..7] == "]"
  {
  }

  /** RegExpLexerTest.java:90-98 */
  lemma TestCarets(caps: set<Capability>, s: string)
    requires caps == {} && s == "^\\^[^^]"
    ensures Tokens(caps, s) == [
        Token(Caret, "^"),
        Token(EscCharacter, "\\^"),
        Token(ClassBegin, "["),
        Token(Caret, "^"),
        Token(Character, "^"),
        Token(ClassEnd, "]")]
  {
    CaretsSteps0(caps, s);
    CaretsSteps5(caps, s);
    Emits(caps, s, 0, Mode(0, InBody, Outside, false), Token(Caret, "^"), Mode(0, InBody, Outside, false));
    Emits(caps, s, 1, Mode(0, InBody, Outside, false), Token(EscCharacter, "\\^"), Mode(0, InBody, Outside, false));
    Emits(caps, s, 3, Mode(0, InBody, Outside, false), Token(ClassBegin, "["), Mode(1, AtOpen, Outside, false));
    Emits(caps, s, 4, Mode(1, AtOpen, Outside, false), Token(Caret, "^"), Mode(1, AtNegation, Outside, false));
    Emits(caps, s, 5, Mode(1, AtNegation, Outside, false), Token(Character, "^"), Mode(1, InBody, Outside, false));
    Emits(caps, s, 6, Mode(1, InBody, Outside, false), Token(ClassEnd, "]"), Mode(0, InBody, Outside, false));
    assert TokensFrom(caps, s, |s|, Mode(0, InBody, Outside, false)) == [];
  }

  /** The scanning steps of the input of TestPosixBracketExpression over offsets 0 to 12. */
  lemma PosixBracketExpressionSteps0(caps: set<Capability>, s: string)
    requires caps == {PosixBracketExpressions} && s == "[[:xdigit:]]"
    ensures |s| == 12
    ensures Step(caps, s, 0, Mode(0, InBody, Outside, false)) == Scan(ClassBegin, 1, Mode(1, AtOpen, Outside, false))
    ensures s[0..1] == "["
    ensures Step(caps, s, 1, Mode(1, AtOpen, Outside, false)) == Scan(BracketExpressionBegin, 2, Mode(1, InBody, AtBracketOpen, false))
    ensures s[1..3] == "[:"
    ensures Step(caps, s, 3, Mode(1, InBody, AtBracketOpen, false)) == Scan(Name, 6, Mode(1, InBody, InBracket, false))
    ensures s[3..9] == "xdigit"
    ensures Step(caps, s, 9, Mode(1, InBody, InBracket, false)) == Scan(BracketExpressionEnd, 2, Mode(1, InBody, Outside, false))
    ensures s[9..11] == ":]"
    ensures Step(caps, s, 11, Mode(1, InBody, Outside, false)) == Scan(ClassEnd, 1, Mode(0, InBody, Outside, false))
    ensures s[11..12] == "]"
  {
    assert LetterRun(s, 9) == 0;
    assert LetterRun(s, 8) == 1;
    assert LetterRun(s, 7) == 2;
    assert LetterRun(s, 6) == 3;
    assert LetterRun(s, 5) == 4;
    assert LetterRun(s, 4) == 5;
    assert LetterRun(s, 3) == 6;
  }

  /** RegExpLexerTest.java:100-107 */
  lemma TestPosixBracketExpression(caps: set<Capability>, s: string)
    requires caps == {PosixBracketExpressions} && s == "[[:xdigit:]]"
    ensures Tokens(caps, s) == [
        Token(ClassBegin, "["),
        Token(BracketExpressionBegin, "[:"),
        Token(Name, "xdigit"),
        Token(BracketExpressionEnd, ":]"),
        Token(ClassEnd, "]")]
  {
    PosixBracketExpressionSteps0(caps, s);
    Emits(caps, s, 0, Mode(0, InBody, Outside, false), Token(ClassBegin, "["), Mode(1, AtOpen, Outside, false));
    Emits(caps, s, 1, Mode(1, AtOpen, Outside, false), Token(BracketExpressionBegin, "[:"), Mode(1, InBody, AtBracketOpen, false));
    Emits(caps, s, 3, Mode(1, InBody, AtBracketOpen, false), Token(Name, "xdigit"), Mode(1, InBody, InBracket, false));
    Emits(caps, s, 9, Mode(1, InBody, InBracket, false), Token(BracketExpressionEnd, ":]"), Mode(1, InBody, Outside, false));
    Emits(caps, s, 11, Mode(1, InBody, Outside, false), Token(ClassEnd, "]"), Mode(0, InBody, Outside, false));
    assert TokensFrom(caps, s, |s|, Mode(0, InBody, Outside, false)) == [];
  }

  /** The scanning steps of the input of TestNegatedPosixBracketExpression over offsets 0 to 10. */
  lemma NegatedPosixBracketExpressionSteps0(caps: set<Capability>, s: string)
    requires caps == {PosixBracketExpressions} && s == "[[:^xdigit:]]"
    ensures |s| == 13
    ensures Step(caps, s, 0, Mode(0, InBody, Outside, false)) == Scan(ClassBegin, 1, Mode(1, AtOpen, Outside, false))
    ensures s[0..1] == "["
    ensures Step(caps, s, 1, Mode(1, AtOpen, Outside, false)) == Scan(BracketExpressionBegin, 2, Mode(1, InBody, AtBracketOpen, false))
    ensures s[1..3] == "[:"
    ensures Step(caps, s, 3, Mode(1, InBody, AtBracketOpen, false)) == Scan(Caret, 1, Mode(1, InBody, InBracket, false))
    ensures s[3..4] == "^"
    ensures Step(caps, s, 4, Mode(1, InBody, InBracket, false)) == Scan(Name, 6, Mode(1, InBody, InBracket, false))
    ensures s[4..10] == "xdigit"
  {
    assert LetterRun(s, 10) == 0;
    assert LetterRun(s, 9) == 1;
    assert LetterRun(s, 8) == 2;
    assert LetterRun(s, 7) == 3;
    assert LetterRun(s, 6) == 4;
    assert LetterRun(s, 5) == 5;
    assert LetterRun(s, 4) == 6;
  }

  /** The scanning steps of the input of TestNegatedPosixBracketExpression over offsets 10 to 13. */
  lemma NegatedPosixBracketExpressionSteps10(caps: set<Capability>, s: string)
    requires caps == {PosixBracketExpressions} && s == "[[:^xdigit:]]"
    ensures |s| == 13
    ensures Step(caps, s, 10, Mode(1, InBody, InBracket, false)) == Scan(BracketExpressionEnd, 2, Mode(1, InBody, Outside, false))
    ensures s[10..12] == ":]"
    ensures Step(caps, s, 12, Mode(1, InBody, Outside, false)) == Scan(ClassEnd, 1, Mode(0, InBody, Outside, false))
    ensures s[12..13] == "]"
  {
  }

  /** RegExpLexerTest.java:109-117 */
  lemma TestNegatedPosixBracketExpression(caps: set<Capability>, s: string)
    requires caps == {PosixBracketExpressions} && s == "[[:^xdigit:]]"
    ensures Tokens(caps, s) == [
        Token(ClassBegin, "["),
        Token(BracketExpressionBegin, "[:"),
        Token(Caret, "^"),
        Token(Name, "xdigit"),
        Token(BracketExpressionEnd, ":]"),
        Token(ClassEnd, "]")]
  {
    NegatedPosixBracketExpressionSteps0(caps, s);
    NegatedPosixBracketExpressionSteps10(caps, s);
    Emits(caps, s, 0, Mode(0, InBody, Outside, false), Token(ClassBegin, "["), Mode(1, AtOpen, Outside, false));
    Emits(caps, s, 1, Mode(1, AtOpen, Outside, false), Token(BracketExpressionBegin, "[:"), Mode(1, InBody, AtBracketOpen, false));
    Emits(caps, s, 3, Mode(1, InBody, AtBracketOpen, false), Token(Caret, "^"), Mode(1, InBody, InBracket, false));
    Emits(caps, s, 4, Mode(1, InBody, InBracket, false), Token(Name, "xdigit"), Mode(1, InBody, InBracket, false));
    Emits(caps, s, 10, Mode(1, InBody, InBracket, false), Token(BracketExpressionEnd, ":]"), Mode(1, InBody, Outside, false));
    Emits(caps, s, 12, Mode(1, InBody, Outside, false), Token(ClassEnd, "]"), Mode(0, InBody, Outside, false));
    assert TokensFrom(caps, s, |s|, Mode(0, InBody, Outside, false)) == [];
  }

  /** The scanning steps of the input of TestOctalWithoutLeadingZero over offsets 0 to 7. */
  lemma OctalWithoutLeadingZeroSteps0(caps: set<Capability>, s: string)
    requires caps == {OctalNoLeadingZero} && s == "\\0\\123[\\123]"
    ensures |s| == 12
    ensures Step(caps, s, 0, Mode(0, InBody, Outside, false)) == Scan(OctChar, 2, Mode(0, InBody, Outside, false))
    ensures s[0..2] == "\\0"
    ensures Step(caps, s, 2, Mode(0, InBody, Outside, false)) == Scan(OctChar, 4, Mode(0, InBody, Outside, false))
    ensures s[2..6] == "\\123"
    ensures Step(caps, s, 6, Mode(0, InBody, Outside, false)) == Scan(ClassBegin, 1, Mode(1, AtOpen, Outside, false))
    ensures s[6..7] == "["
  {
  }

  /** The scanning steps of the input of TestOctalWithoutLeadingZero over offsets 7 to 12. */
  lemma OctalWithoutLeadingZeroSteps7(caps: set<Capability>, s: string)
    requires caps == {OctalNoLeadingZero} && s == "\\0\\123[\\123]"
    ensures |s| == 12
    ensures Step(caps, s, 7, Mode(1, AtOpen, Outside, false)) == Scan(OctChar, 4, Mode(1, InBody, Outside, false))
    ensures s[7..11] == "\\123"
    ensures Step(caps, s, 11, Mode(1, InBody, Outside, false)) == Scan(ClassEnd, 1, Mode(0, InBody, Outside, false))
    ensures s[11..12] == "]"
  {
  }

  /** RegExpLexerTest.java:119-126 */
  lemma TestOctalWithoutLeadingZero(caps: set<Capability>, s: string)
    requires caps == {OctalNoLeadingZero} && s == "\\0\\123[\\123]"
    ensures Tokens(caps, s) == [
        Token(OctChar, "\\0"),
        Token(OctChar, "\\123"),
        Token(ClassBegin, "["),
        Token(OctChar, "\\123"),
        Token(ClassEnd, "]")]
  {
    OctalWithoutLeadingZeroSteps0(caps, s);
    OctalWithoutLeadingZeroSteps7(caps, s);
    Emits(caps, s, 0, Mode(0, InBody, Outside, false), Token(OctChar, "\\0"), Mode(0, InBody, Outside, false));
    Emits(caps, s, 2, Mode(0, InBody, Outside, false), Token(OctChar, "\\123"), Mode(0, InBody, Outside, false));
    Emits(caps, s, 6, Mode(0, InBody, Outside, false), Token(ClassBegin, "["), Mode(1, AtOpen, Outside, false));
    Emits(caps, s, 7, Mode(1, AtOpen, Outside, false), Token(OctChar, "\\123"), Mode(1, InBody, Outside, false));
    Emits(caps, s, 11, Mode(1, InBody, Outside, false), Token(ClassEnd, "]"), Mode(0, InBody, Outside, false));
    assert TokensFrom(caps, s, |s|, Mode(0, InBody, Outside, false)) == [];
  }

  /** The scanning steps of the input of TestOctalFollowedByDigit over offsets 0 to 6. */
  lemma OctalFollowedByDigitSteps0(caps: set<Capability>, s: string)
    requires caps == {OctalNoLeadingZero} && s == "\\39[\\39]"
    ensures |s| == 8
    ensures Step(caps, s, 0, Mode(0, InBody, Outside, false)) == Scan(OctChar, 2, Mode(0, InBody, Outside, false))
    ensures s[0..2] == "\\3"
    ensures Step(caps, s, 2, Mode(0, InBody, Outside, false)) == Scan(Character, 1, Mode(0, InBody, Outside, false))
    ensures s[2..3] == "9"
    ensures Step(caps, s, 3, Mode(0, InBody, Outside, false)) == Scan(ClassBegin, 1, Mode(1, AtOpen, Outside, false))
    ensures s[3..4] == "["
    ensures Step(caps, s, 4, Mode(1, AtOpen, Outside, false)) == Scan(OctChar, 2, Mode(1, InBody, Outside, false))
    ensures s[4..6] == "\\3"
  {
  }

  /** The scanning steps of the input of TestOctalFollowedByDigit over offsets 6 to 8. */
  lemma OctalFollowedByDigitSteps6(caps: set<Capability>, s: string)
    requires caps == {OctalNoLeadingZero} && s == "\\39[\\39]"
    ensures |s| == 8
    ensures Step(caps, s, 6, Mode(1, InBody, Outside, false)) == Scan(Character, 1, Mode(1, InBody, Outside, false))
    ensures s[6..7] == "9"
    ensures Step(caps, s, 7, Mode(1, InBody, Outside, false)) == Scan(ClassEnd, 1, Mode(0, InBody, Outside, false))
    ensures s[7..8] == "]"
  {
  }

  /** RegExpLexerTest.java:128-136 */
  lemma TestOctalFollowedByDigit(caps: set<Capability>, s: string)
    requires caps == {OctalNoLeadingZero} && s == "\\39[\\39]"
    ensures Tokens(caps, s) == [
        Token(OctChar, "\\3"),
        Token(Character, "9"),
        Token(ClassBegin, "["),
        Token(OctChar, "\\3"),
        Token(Character, "9"),
        Token(ClassEnd, "]")]
  {
    OctalFollowedByDigitSteps0(caps, s);
    OctalFollowedByDigitSteps6(caps, s);
    Emits(caps, s, 0, Mode(0, InBody, Outside, false), Token(OctChar, "\\3"), Mode(0, InBody, Outside, false));
    Emits(caps, s, 2, Mode(0, InBody, Outside, false), Token(Character, "9"), Mode(0, InBody, Outside, false));
    Emits(caps, s, 3, Mode(0, InBody, Outside, false), Token(ClassBegin, "["), Mode(1, AtOpen, Outside, false));
    Emits(caps, s, 4, Mode(1, AtOpen, Outside, false), Token(OctChar, "\\3"), Mode(1, InBody, Outside, false));
    Emits(caps, s, 6, Mode(1, InBody, Outside, false), Token(Character, "9"), Mode(1, InBody, Outside, false));
    Emits(caps, s, 7, Mode(1, InBody, Outside, false), Token(ClassEnd, "]"), Mode(0, InBody, Outside, false));
    assert TokensFrom(caps, s, |s|, Mode(0, InBody, Outside, false)) == [];
  }

  /** The scanning steps of the input of TestOctalWithLeadingZero over offsets 0 to 6. */
  lemma OctalWithLeadingZeroSteps0(caps: set<Capability>, s: string)
    requires caps == {} && s == "\\0\\123[\\123]"
    ensures |s| == 12
    ensures Step(caps, s, 0, Mode(0, InBody, Outside, false)) == Scan(BadOctValue, 2, Mode(0, InBody, Outside, false))
    ensures s[0..2] == "\\0"
    ensures Step(caps, s, 2, Mode(0, InBody, Outside, false)) == Scan(Backref, 2, Mode(0, InBody, Outside, false))
    ensures s[2..4] == "\\1"
    ensures Step(caps, s, 4, Mode(0, InBody, Outside, false)) == Scan(Character, 1, Mode(0, InBody, Outside, false))
    ensures s[4..5] == "2"
    ensures Step(caps, s, 5, Mode(0, InBody, Outside, false)) == Scan(Character, 1, Mode(0, InBody, Outside, false))
    ensures s[5..6] == "3"
  {
  }

  /** The scanning steps of the input of TestOctalWithLeadingZero over offsets 6 to 12. */
  lemma OctalWithLeadingZeroSteps6(caps: set<Capability>, s: string)
    requires caps == {} && s == "\\0\\123[\\123]"
    ensures |s| == 12
    ensures Step(caps, s, 6, Mode(0, InBody, Outside, false)) == Scan(ClassBegin, 1, Mode(1, AtOpen, Outside, false))
    ensures s[6..7] == "["
    ensures Step(caps, s, 7, Mode(1, AtOpen, Outside, false)) == Scan(RedundantEscape, 2, Mode(1, InBody, Outside, false))
    ensures s[7..9] == "\\1"
    ensures Step(caps, s, 9, Mode(1, InBody, Outside, false)) == Scan(Character, 1, Mode(1, InBody, Outside, false))
    ensures s[9..10] == "2"
    ensures Step(caps, s, 10, Mode(1, InBody, Outside, false)) == Scan(Character, 1, Mode(1, InBody, Outside, false))
    ensures s[10..11] == "3"
    ensures Step(caps, s, 11, Mode(1, InBody, Outside, false)) == Scan(ClassEnd, 1, Mode(0, InBody, Outside, false))
    ensures s[11..12] == "]"
  {
  }

  /** RegExpLexerTest.java:138-149 */
  lemma TestOctalWithLeadingZero(caps: set<Capability>, s: string)
    requires caps == {} && s == "\\0\\123[\\123]"
    ensures Tokens(caps, s) == [
        Token(BadOctValue, "\\0"),
        Token(Backref, "\\1"),
        Token(Character, "2"),
        Token(Character, "3"),
        Token(ClassBegin, "["),
        Token(RedundantEscape, "\\1"),
        Token(Character, "2"),
        Token(Character, "3"),
        Token(ClassEnd, "]")]
  {
    OctalWithLeadingZeroSteps0(caps, s);
    OctalWithLeadingZeroSteps6(caps, s);
    Emits(caps, s, 0, Mode(0, InBody, Outside, false), Token(BadOctValue, "\\0"), Mode(0, InBody, Outside, false));
    Emits(caps, s, 2, Mode(0, InBody, Outside, false), Token(Backref, "\\1"), Mode(0, InBody, Outside, false));
    Emits(caps, s, 4, Mode(0, InBody, Outside, false), Token(Character, "2"), Mode(0, InBody, Outside, false));
    Emits(caps, s, 5, Mode(0, InBody, Outside, false), Token(Character, "3"), Mode(0, InBody, Outside, false));
    Emits(caps, s, 6, Mode(0, InBody, Outside, false), Token(ClassBegin, "["), Mode(1, AtOpen, Outside, false));
    Emits(caps, s, 7, Mode(1, AtOpen, Outside, false), Token(RedundantEscape, "\\1"), Mode(1, InBody, Outside, false));
    Emits(caps, s, 9, Mode(1, InBody, Outside, false), Token(Character, "2"), Mode(1, InBody, Outside, false));
    Emits(caps, s, 10, Mode(1, InBody, Outside, false), Token(Character, "3"), Mode(1, InBody, Outside, false));
    Emits(caps, s, 11, Mode(1, InBody, Outside, false), Token(ClassEnd, "]"), Mode(0, InBody, Outside, false));
    assert TokensFrom(caps, s, |s|, Mode(0, InBody, Outside, false)) == [];
  }

  /** The scanning steps of the input of TestNoNestedCharacterClasses1 over offsets 0 to 5. */
  lemma NoNestedCharacterClasses1Steps0(caps: set<Capability>, s: string)
    requires caps == {} && s == "[[\\]]"
    ensures |s| == 5
    ensures Step(caps, s, 0, Mode(0, InBody, Outside, false)) == Scan(ClassBegin, 1, Mode(1, AtOpen, Outside, false))
    ensures s[0..1] == "["
    ensures Step(caps, s, 1, Mode(1, AtOpen, Outside, false)) == Scan(Character, 1, Mode(1, InBody, Outside, false))
    ensures s[1..2] == "["
    ensures Step(caps, s, 2, Mode(1, InBody, Outside, false)) == Scan(EscCharacter, 2, Mode(1, InBody, Outside, false))
    ensures s[2..4] == "\\]"
    ensures Step(caps, s, 4, Mode(1, InBody, Outside, false)) == Scan(ClassEnd, 1, Mode(0, InBody, Outside, false))
    ensures s[4..5] == "]"
  {
  }

  /** RegExpLexerTest.java:151-157 */
  lemma TestNoNestedCharacterClasses1(caps: set<Capability>, s: string)
    requires caps == {} && s == "[[\\]]"
    ensures Tokens(caps, s) == [
        Token(ClassBegin, "["),
        Token(Character, "["),
        Token(EscCharacter, "\\]"),
        Token(ClassEnd, "]")]
  {
    NoNestedCharacterClasses1Steps0(caps, s);
    Emits(caps, s, 0, Mode(0, InBody, Outside, false), Token(ClassBegin, "["), Mode(1, AtOpen, Outside, false));
    Emits(caps, s, 1, Mode(1, AtOpen, Outside, false), Token(Character, "["), Mode(1, InBody, Outside, false));
    Emits(caps, s, 2, Mode(1, InBody, Outside, false), Token(EscCharacter, "\\]"), Mode(1, InBody, Outside, false));
    Emits(caps, s, 4, Mode(1, InBody, Outside, false), Token(ClassEnd, "]"), Mode(0, InBody, Outside, false));
    assert TokensFrom(caps, s, |s|, Mode(0, InBody, Outside, false)) == [];
  }

  /** The scanning steps of the input of TestNoNestedCharacterClasses2 over offsets 0 to 4. */
  lemma NoNestedCharacterClasses2Steps0(caps: set<Capability>, s: string)
    requires caps == {} && s == "[a-z&&[^aeuoi]]"
    ensures |s| == 15
    ensures Step(caps, s, 0, Mode(0, InBody, Outside, false)) == Scan(ClassBegin, 1, Mode(1, AtOpen, Outside, false))
    ensures s[0..1] == "["
    ensures Step(caps, s, 1, Mode(1, AtOpen, Outside, false)) == Scan(Character, 1, Mode(1, InBody, Outside, false))
    ensures s[1..2] == "a"
    ensures Step(caps, s, 2, Mode(1, InBody, Outside, false)) == Scan(Minus, 1, Mode(1, InBody, Outside, false))
    ensures s[2..3] == "-"
    ensures Step(caps, s, 3, Mode(1, InBody, Outside, false)) == Scan(Character, 1, Mode(1, InBody, Outside, false))
    ensures s[3..4] == "z"
  {
  }

  /** The scanning steps of the input of TestNoNestedCharacterClasses2 over offsets 4 to 8. */
  lemma NoNestedCharacterClasses2Steps4(caps: set<Capability>, s: string)
    requires caps == {} && s == "[a-z&&[^aeuoi]]"
    ensures |s| == 15
    ensures Step(caps, s, 4, Mode(1, InBody, Outside, false)) == Scan(Character, 1, Mode(1, InBody, Outside, false))
    ensures s[4..5] == "&"
    ensures Step(caps, s, 5, Mode(1, InBody, Outside, false)) == Scan(Character, 1, Mode(1, InBody, Outside, false))
    ensures s[5..6] == "&"
    ensures Step(caps, s, 6, Mode(1, InBody, Outside, false)) == Scan(Character, 1, Mode(1, InBody, Outside, false))
    ensures s[6..7] == "["
    ensures Step(caps, s, 7, Mode(1, InBody, Outside, false)) == Scan(Character, 1, Mode(1, InBody, Outside, false))
    ensures s[7..8] == "^"
  {
  }

  /** The scanning steps of the input of TestNoNestedCharacterClasses2 over offsets 8 to 12. */
  lemma NoNestedCharacterClasses2Steps8(caps: set<Capability>, s: string)
    requires caps == {} && s == "[a-z&&[^aeuoi]]"
    ensures |s| == 15
    ensures Step(caps, s, 8, Mode(1, InBody, Outside, false)) == Scan(Character, 1, Mode(1, InBody, Outside, false))
    ensures s[8..9] == "a"
    ensures Step(caps, s, 9, Mode(1, InBody, Outside, false)) == Scan(Character, 1, Mode(1, InBody, Outside, false))
    ensures s[9..10] == "e"
    ensures Step(caps, s, 10, Mode(1, InBody, Outside, false)) == Scan(Character, 1, Mode(1, InBody, Outside, false))
    ensures s[10..11] == "u"
    ensures Step(caps, s, 11, Mode(1, InBody, Outside, false)) == Scan(Character, 1, Mode(1, InBody, Outside, false))
    ensures s[11..12] == "o"
  {
  }

  /** The scanning steps of the input of TestNoNestedCharacterClasses2 over offsets 12 to 15. */
  lemma NoNestedCharacterClasses2Steps12(caps: set<Capability>, s: string)
    requires caps == {} && s == "[a-z&&[^aeuoi]]"
    ensures |s| == 15
    ensures Step(caps, s, 12, Mode(1, InBody, Outside, false)) == Scan(Character, 1, Mode(1, InBody, Outside, false))
    ensures s[12..13] == "i"
    ensures Step(caps, s, 13, Mode(1, InBody, Outside, false)) == Scan(ClassEnd, 1, Mode(0, InBody, Outside, false))
    ensures s[13..14] == "]"
    ensures Step(caps, s, 14, Mode(0, InBody, Outside, false)) == Scan(Character, 1, Mode(0, InBody, Outside, false))
    ensures s[14..15] == "]"
  {
  }

  /** The tokens of the input of TestNoNestedCharacterClasses2 from offset 8, inside the class. */
  lemma NoNestedCharacterClasses2From8(caps: set<Capability>, s: string)
    requires caps == {} && s == "[a-z&&[^aeuoi]]"
    ensures TokensFrom(caps, s, 8, Mode(1, InBody, Outside, false)) == [
        Token(Character, "a"),
        Token(Character, "e"),
        Token(Character, "u"),
        Token(Character, "o"),
        Token(Character, "i"),
        Token(ClassEnd, "]"),
        Token(Character, "]")]
  {
    NoNestedCharacterClasses2Steps8(caps, s);
    NoNestedCharacterClasses2Steps12(caps, s);
    Emits(caps, s, 8, Mode(1, InBody, Outside, false), Token(Character, "a"), Mode(1, InBody, Outside, false));
    Emits(caps, s, 9, Mode(1, InBody, Outside, false), Token(Character, "e"), Mode(1, InBody, Outside, false));
    Emits(caps, s, 10, Mode(1, InBody, Outside, false), Token(Character, "u"), Mode(1, InBody, Outside, false));
    Emits(caps, s, 11, Mode(1, InBody, Outside, false), Token(Character, "o"), Mode(1, InBody, Outside, false));
    Emits(caps, s, 12, Mode(1, InBody, Outside, false), Token(Character, "i"), Mode(1, InBody, Outside, false));
    Emits(caps, s, 13, Mode(1, InBody, Outside, false), Token(ClassEnd, "]"), Mode(0, InBody, Outside, false));
    Emits(caps, s, 14, Mode(0, InBody, Outside, false), Token(Character, "]"), Mode(0, InBody, Outside, false));
    assert TokensFrom(caps, s, |s|, Mode(0, InBody, Outside, false)) == [];
  }

  /** RegExpLexerTest.java:159-176 */
  lemma TestNoNestedCharacterClasses2(caps: set<Capability>, s: string)
    requires caps == {} && s == "[a-z&&[^aeuoi]]"
    ensures Tokens(caps, s) == [
        Token(ClassBegin, "["),
        Token(Character, "a"),
        Token(Minus, "-"),
        Token(Character, "z"),
        Token(Character, "&"),
        Token(Character, "&"),
        Token(Character, "["),
        Token(Character, "^"),
        Token(Character, "a"),
        Token(Character, "e"),
        Token(Character, "u"),
        Token(Character, "o"),
        Token(Character, "i"),
        Token(ClassEnd, "]"),
        Token(Character, "]")]
  {
    NoNestedCharacterClasses2Steps0(caps, s);
    NoNestedCharacterClasses2Steps4(caps, s);
    Emits(caps, s, 0, Mode(0, InBody, Outside, false), Token(ClassBegin, "["), Mode(1, AtOpen, Outside, false));
    Emits(caps, s, 1, Mode(1, AtOpen, Outside, false), Token(Character, "a"), Mode(1, InBody, Outside, false));
    Emits(caps, s, 2, Mode(1, InBody, Outside, false), Token(Minus, "-"), Mode(1, InBody, Outside, false));
    Emits(caps, s, 3, Mode(1, InBody, Outside, false), Token(Character, "z"), Mode(1, InBody, Outside, false));
    Emits(caps, s, 4, Mode(1, InBody, Outside, false), Token(Character, "&"), Mode(1, InBody, Outside, false));
    Emits(caps, s, 5, Mode(1, InBody, Outside, false), Token(Character, "&"), Mode(1, InBody, Outside, false));
    Emits(caps, s, 6, Mode(1, InBody, Outside, false), Token(Character, "["), Mode(1, InBody, Outside, false));
    Emits(caps, s, 7, Mode(1, InBody, Outside, false), Token(Character, "^"), Mode(1, InBody, Outside, false));
    NoNestedCharacterClasses2From8(caps, s);
  }

  /** The scanning steps of the input of TestNestedCharacterClasses1 over offsets 0 to 4. */
  lemma NestedCharacterClasses1Steps0(caps: set<Capability>, s: string)
    requires caps == {NestedCharacterClasses} && s == "[a-z&&[^aeuoi]]"
    ensures |s| == 15
    ensures Step(caps, s, 0, Mode(0, InBody, Outside, false)) == Scan(ClassBegin, 1, Mode(1, AtOpen, Outside, false))
    ensures s[0..1] == "["
    ensures Step(caps, s, 1, Mode(1, AtOpen, Outside, false)) == Scan(Character, 1, Mode(1, InBody, Outside, false))
    ensures s[1..2] == "a"
    ensures Step(caps, s, 2, Mode(1, InBody, Outside, false)) == Scan(Minus, 1, Mode(1, InBody, Outside, false))
    ensures s[2..3] == "-"
    ensures Step(caps, s, 3, Mode(1, InBody, Outside, false)) == Scan(Character, 1, Mode(1, InBody, Outside, false))
    ensures s[3..4] == "z"
  {
  }

  /** The scanning steps of the input of TestNestedCharacterClasses1 over offsets 4 to 9. */
  lemma NestedCharacterClasses1Steps4(caps: set<Capability>, s: string)
    requires caps == {NestedCharacterClasses} && s == "[a-z&&[^aeuoi]]"
    ensures |s| == 15
    ensures Step(caps, s, 4, Mode(1, InBody, Outside, false)) == Scan(AndAnd, 2, Mode(1, InBody, Outside, false))
    ensures s[4..6] == "&&"
    ensures Step(caps, s, 6, Mode(1, InBody, Outside, false)) == Scan(ClassBegin, 1, Mode(2, AtOpen, Outside, false))
    ensures s[6..7] == "["
    ensures Step(caps, s, 7, Mode(2, AtOpen, Outside, false)) == Scan(Caret, 1, Mode(2, AtNegation, Outside, false))
    ensures s[7..8] == "^"
    ensures Step(caps, s, 8, Mode(2, AtNegation, Outside, false)) == Scan(Character, 1, Mode(2, InBody, Outside, false))
    ensures s[8..9] == "a"
  {
  }

  /** The scanning steps of the input of TestNestedCharacterClasses1 over offsets 9 to 13. */
  lemma NestedCharacterClasses1Steps9(caps: set<Capability>, s: string)
    requires caps == {NestedCharacterClasses} && s == "[a-z&&[^aeuoi]]"
    ensures |s| == 15
    ensures Step(caps, s, 9, Mode(2, InBody, Outside, false)) == Scan(Character, 1, Mode(2, InBody, Outside, false))
    ensures s[9..10] == "e"
    ensures Step(caps, s, 10, Mode(2, InBody, Outside, false)) == Scan(Character, 1, Mode(2, InBody, Outside, false))
    ensures s[10..11] == "u"
    ensures Step(caps, s, 11, Mode(2, InBody, Outside, false)) == Scan(Character, 1, Mode(2, InBody, Outside, false))
    ensures s[11..12] == "o"
    ensures Step(caps, s, 12, Mode(2, InBody, Outside, false)) == Scan(Character, 1, Mode(2, InBody, Outside, false))
    ensures s[12..13] == "i"
  {
  }

  /** The scanning steps of the input of TestNestedCharacterClasses1 over offsets 13 to 15. */
  lemma NestedCharacterClasses1Steps13(caps: set<Capability>, s: string)
    requires caps == {NestedCharacterClasses} && s == "[a-z&&[^aeuoi]]"
    ensures |s| == 15
    ensures Step(caps, s, 13, Mode(2, InBody, Outside, false)) == Scan(ClassEnd, 1, Mode(1, InBody, Outside, false))
    ensures s[13..14] == "]"
    ensures Step(caps, s, 14, Mode(1, InBody, Outside, false)) == Scan(ClassEnd, 1, Mode(0, InBody, Outside, false))
    ensures s[14..15] == "]"
  {
  }

  /** RegExpLexerTest.java:178-194 */
  lemma TestNestedCharacterClasses1(caps: set<Capability>, s: string)
    requires caps == {NestedCharacterClasses} && s == "[a-z&&[^aeuoi]]"
    ensures Tokens(caps, s) == [
        Token(ClassBegin, "["),
        Token(Character, "a"),
        Token(Minus, "-"),
        Token(Character, "z"),
        Token(AndAnd, "&&"),
        Token(ClassBegin, "["),
        Token(Caret, "^"),
        Token(Character, "a"),
        Token(Character, "e"),
        Token(Character, "u"),
        Token(Character, "o"),
        Token(Character, "i"),
        Token(ClassEnd, "]"),
        Token(ClassEnd, "]")]
  {
    NestedCharacterClasses1Steps0(caps, s);
    NestedCharacterClasses1Steps4(caps, s);
    NestedCharacterClasses1Steps9(caps, s);
    NestedCharacterClasses1Steps13(caps, s);
    Emits(caps, s, 0, Mode(0, InBody, Outside, false), Token(ClassBegin, "["), Mode(1, AtOpen, Outside, false));
    Emits(caps, s, 1, Mode(1, AtOpen, Outside, false), Token(Character, "a"), Mode(1, InBody, Outside, false));
    Emits(caps, s, 2, Mode(1, InBody, Outside, false), Token(Minus, "-"), Mode(1, InBody, Outside, false));
    Emits(caps, s, 3, Mode(1, InBody, Outside, false), Token(Character, "z"), Mode(1, InBody, Outside, false));
    Emits(caps, s, 4, Mode(1, InBody, Outside, false), Token(AndAnd, "&&"), Mode(1, InBody, Outside, false));
    Emits(caps, s, 6, Mode(1, InBody, Outside, false), Token(ClassBegin, "["), Mode(2, AtOpen, Outside, false));
    Emits(caps, s, 7, Mode(2, AtOpen, Outside, false), Token(Caret, "^"), Mode(2, AtNegation, Outside, false));
    Emits(caps, s, 8, Mode(2, AtNegation, Outside, false), Token(Character, "a"), Mode(2, InBody, Outside, false));
    Emits(caps, s, 9, Mode(2, InBody, Outside, false), Token(Character, "e"), Mode(2, InBody, Outside, false));
    Emits(caps, s, 10, Mode(2, InBody, Outside, false), Token(Character, "u"), Mode(2, InBody, Outside, false));
    Emits(caps, s, 11, Mode(2, InBody, Outside, false), Token(Character, "o"), Mode(2, InBody, Outside, false));
    Emits(caps, s, 12, Mode(2, InBody, Outside, false), Token(Character, "i"), Mode(2, InBody, Outside, false));
    Emits(caps, s, 13, Mode(2, InBody, Outside, false), Token(ClassEnd, "]"), Mode(1, InBody, Outside, false));
    Emits(caps, s, 14, Mode(1, InBody, Outside, false), Token(ClassEnd, "]"), Mode(0, InBody, Outside, false));
    assert TokensFrom(caps, s, |s|, Mode(0, InBody, Outside, false)) == [];
  }

  /** The scanning steps of the input of TestNestedCharacterClasses2 over offsets 0 to 3. */
  lemma NestedCharacterClasses2Steps0(caps: set<Capability>, s: string)
    requires caps == {NestedCharacterClasses} && s == "[]]"
    ensures |s| == 3
    ensures Step(caps, s, 0, Mode(0, InBody, Outside, false)) == Scan(ClassBegin, 1, Mode(1, AtOpen, Outside, false))
    ensures s[0..1] == "["
    ensures Step(caps, s, 1, Mode(1, AtOpen, Outside, false)) == Scan(Character, 1, Mode(1, InBody, Outside, false))
    ensures s[1..2] == "]"
    ensures Step(caps, s, 2, Mode(1, InBody, Outside, false)) == Scan(ClassEnd, 1, Mode(0, InBody, Outside, false))
    ensures s[2..3] == "]"
  {
  }

  /** RegExpLexerTest.java:196-201 */
  lemma TestNestedCharacterClasses2(caps: set<Capability>, s: string)
    requires caps == {NestedCharacterClasses} && s == "[]]"
    ensures Tokens(caps, s) == [
        Token(ClassBegin, "["),
        Token(Character, "]"),
        Token(ClassEnd, "]")]
  {
    NestedCharacterClasses2Steps0(caps, s);
    Emits(caps, s, 0, Mode(0, InBody, Outside, false), Token(ClassBegin, "["), Mode(1, AtOpen, Outside, false));
    Emits(caps, s, 1, Mode(1, AtOpen, Outside, false), Token(Character, "]"), Mode(1, InBody, Outside, false));
    Emits(caps, s, 2, Mode(1, InBody, Outside, false), Token(ClassEnd, "]"), Mode(0, InBody, Outside, false));
    assert TokensFrom(caps, s, |s|, Mode(0, InBody, Outside, false)) == [];
  }
}
