# Verified models of five IntelliJ IDEA helpers

This project models five small pieces of sequential decision logic from the
IntelliJ IDEA code base and proves properties of them in Dafny.

- **Regular-expression lexer** (`RegExpLexer`, `RegExpLexerTests`,
  `RegExpLexerProperties`). The behaviour is the one that `RegExpLexerTest`
  fixes.
  - A `Lexer` object holds a buffer, a cursor and a scanning mode. The mode
    records the class depth, the position inside the innermost class, any POSIX
    bracket expression and any `\Q…\E` quote.
  - The lexer is built with a set of capabilities and advanced one token at a
    time. `Advance` is proved equal to the pure one-step specification `Step`.
  - The `Tokenize` loop is proved to return the token stream `Tokens`.
  - Every test case is a lemma that states the exact token list.
  - General lemmas show that tokenizing loses nothing (the texts concatenate back
    to the input) and how class depth is accounted for. They also show how each
    capability gates the constructs the tests exercise with it:
    - `&&` inside a class;
    - the transformation escapes `\U \E \u \l \L`;
    - the POSIX delimiters `[:` and `:]`;
    - octal escapes.
  - The lexer's own source is not part of this model. For inputs the tests do
    not exercise, the rules are a modelling choice:
    - an escape that is not otherwise recognised is a two-character
      `ESC_CHARACTER`;
    - a lone trailing backslash is an `INVALID_CHARACTER_ESCAPE_TOKEN`;
    - group and quantifier characters are plain `CHARACTER`s;
    - without octal-without-leading-zero, `\0` followed by octal digits is an
      `OCT_CHAR` taking up to three of them, and three only when the first is
      at most `3`;
    - with octal-without-leading-zero, `\1` to `\7` take up to three octal
      digits, with no bound on the value.
- **Numeric cast necessity** (`NumericCast`) models
  `UnnecessaryExplicitNumericCastInspection`:
  - the fourteen binary-promotion operators;
  - the widening table (section 5.1.2 of the Java Language Specification);
  - assignment conversion with constant-range checks (section 5.2);
  - the cast-necessity rule over a chain of parent contexts, as a method with
    the source's parent-walking loop and operand loop, proved equal to the
    predicate `CastNecessary`.
- **Reduction registry** (`ReduceHandling`). `Registry` is a class that holds the
  three nested maps the static initialiser fills:
  - operator → (identity, idempotent);
  - member method → (identity, idempotent);
  - static method → (identity, idempotent).

  Its `addAssociative*` methods are proved against a pure `Put`. The matcher
  `GetReductionAccumulator` is proved equal to the function `Reduction`. Lemmas
  cover the operator tables, the type check, the "no identity ⇒ idempotent"
  rule, which operand holds the accumulator, and the format strings.
- **String-join validators** (`StringConcatHandling`, `StringBufferJoinHandling`).
  These are guard chains over an abstract Java tree (`JavaTree`, `JavaTypes`).
  - The analyses they call are inputs: resolution, initializer status,
    references after the loop, addend extraction and immutability.
  - Java exceptions are an explicit `Thrown` outcome.
  - `getJoinedVariable` is modelled step by step. Its two phases,
    `CheckDelimiter` and `CheckAppend`, are methods that each match a stage
    function.
- **Diff test helpers** (`ComparisonUtilTestBase`):
  - the policy fallback of `PolicyData.get`;
  - the side predicates of `Data`;
  - the `mod`/`del`/`ins` range builders;
  - fragment consistency and line-offset checks over a newline index of the
    document;
  - the BitSet matching checks, as loops proved against unions of ranges;
  - the `parseLineMatching` parser, as a loop proved against a segment
    specification.

`Wrappers` holds `Option`. `JavaTree` holds the shared Java model: types,
canonical text, the operator tokens, expression and statement trees,
parenthesis stripping, variable resolution, and the `Outcome` type with the
exception kinds.

## Model

| member | source | states |
|---|---|---|
| RegExpLexer.Lexer.constructor | RegExpSupport/test/org/intellij/lang/regexp/RegExpLexerTest.java:29 | a new lexer keeps the given capabilities, has an empty buffer and starts in the initial mode |
| RegExpLexer.Lexer.Start | RegExpSupport/test/org/intellij/lang/regexp/RegExpLexerTest.java:30-35 | starting on a text puts the whole text in the buffer, the cursor at 0 and the mode back to initial |
| RegExpLexer.Lexer.Advance | RegExpSupport/test/org/intellij/lang/regexp/RegExpLexerTest.java:30-35 | at the end it yields no token and changes nothing; otherwise it yields exactly the token `Step` specifies (kind and consumed text), moves the cursor past it and takes `Step`'s next mode |
| RegExpLexer.Lexer.AdvanceInClass | RegExpSupport/test/org/intellij/lang/regexp/RegExpLexerTest.java:151-201 | scanning one token inside a class moves the cursor and mode exactly as the class rules `ClassScan` say and returns their token kind |
| RegExpLexer.ScanEscape | RegExpSupport/test/org/intellij/lang/regexp/RegExpLexerTest.java:37-80 | the imperative escape scan returns the kind and length of the escape specification (quote, octal, backreference, transformation escapes) |
| RegExpLexer.ScanOctalDigits | RegExpSupport/test/org/intellij/lang/regexp/RegExpLexerTest.java:119-149 | the counting loop returns the length of the octal-digit run, capped |
| RegExpLexer.ScanLetters | RegExpSupport/test/org/intellij/lang/regexp/RegExpLexerTest.java:100-117 | the counting loop returns the length of the letter run of a bracket-expression name |
| RegExpLexer.OctalRunDigits | RegExpSupport/test/org/intellij/lang/regexp/RegExpLexerTest.java:119-149 | every character of the run is an octal digit, and the run stops before the cap only at a non-octal character |
| RegExpLexer.LetterRunLetters | RegExpSupport/test/org/intellij/lang/regexp/RegExpLexerTest.java:100-117 | every character of a name is a letter and the name ends at the first non-letter |
| RegExpLexer.LeadingZeroOctalDigits | RegExpSupport/test/org/intellij/lang/regexp/RegExpLexerTest.java:138-141 | no digit is taken after `\0` when no octal digit follows, which makes the test's `\0\` a BAD_OCT_VALUE; otherwise, by the model's choice, up to three octal digits are taken, and three only when the first is at most `3` |
| RegExpLexer.EscapeScan | RegExpSupport/test/org/intellij/lang/regexp/RegExpLexerTest.java:37-80 | an escape consumes at least one character within the text, leaves the class-opening position behind and enters quote mode exactly at `\Q` |
| RegExpLexer.Pull | RegExpSupport/test/org/intellij/lang/regexp/RegExpLexerTest.java:30-35 | one pull appends the next token so that the tokens so far plus the rest of the stream are unchanged, and reports the end exactly when the cursor was at the end |
| RegExpLexer.Tokenize | RegExpSupport/test/org/intellij/lang/regexp/RegExpLexerTest.java:28-201 | driving a fresh lexer to the end yields exactly `Tokens(capabilities, text)`, whose texts concatenate back to the input |
| RegExpLexer.ConcatAppend | RegExpSupport/test/org/intellij/lang/regexp/RegExpLexerTest.java:28-201 | concatenating the texts of two token lists one after the other gives the concatenation of their texts |
| RegExpLexer.TokensFromLossless | RegExpSupport/test/org/intellij/lang/regexp/RegExpLexerTest.java:28-201 | the tokens scanned from any offset and mode concatenate to the rest of the input |
| RegExpLexer.TokensLossless | RegExpSupport/test/org/intellij/lang/regexp/RegExpLexerTest.java:28-201 | the token texts concatenate to the input exactly, for every input and capability set |
| RegExpLexer.RelexIdempotent | RegExpSupport/test/org/intellij/lang/regexp/RegExpLexerTest.java:28-201 | lexing the concatenated token texts again gives the same tokens |
| RegExpLexer.TokensNonEmpty | RegExpSupport/test/org/intellij/lang/regexp/RegExpLexerTest.java:28-201 | no token has empty text |
| RegExpLexerTests.TestAmpersand | RegExpSupport/test/org/intellij/lang/regexp/RegExpLexerTest.java:28-35 | without nesting, `[a&&]` is CLASS_BEGIN, CHARACTER a, CHARACTER &, CHARACTER &, CLASS_END |
| RegExpLexerTests.TestQuoteEscapes | RegExpSupport/test/org/intellij/lang/regexp/RegExpLexerTest.java:37-44 | `\Q` CR LF `\E` is QUOTE_BEGIN, one CHARACTER per quoted character, QUOTE_END |
| RegExpLexerTests.TestEditorReplacement | RegExpSupport/test/org/intellij/lang/regexp/RegExpLexerTest.java:46-63 | with transformation escapes, `\U \E \u \l \L` are CHAR_CLASS, `$` is DOLLAR and the following digit CHARACTER |
| RegExpLexerTests.TestEditorReplacementPlain | RegExpSupport/test/org/intellij/lang/regexp/RegExpLexerTest.java:64-80 | without them, `\u` is INVALID_UNICODE_ESCAPE_TOKEN and `\U \E \l \L` are INVALID_CHARACTER_ESCAPE_TOKEN |
| RegExpLexerTests.TestIntersection | RegExpSupport/test/org/intellij/lang/regexp/RegExpLexerTest.java:82-88 | with nesting, `[a&&]` has one ANDAND token |
| RegExpLexerTests.TestCarets | RegExpSupport/test/org/intellij/lang/regexp/RegExpLexerTest.java:90-98 | `^\^[^^]` is CARET, ESC_CHARACTER, CLASS_BEGIN, CARET, CHARACTER, CLASS_END |
| RegExpLexerTests.TestPosixBracketExpression | RegExpSupport/test/org/intellij/lang/regexp/RegExpLexerTest.java:100-107 | `[[:xdigit:]]` is CLASS_BEGIN, BRACKET_EXPRESSION_BEGIN, NAME, BRACKET_EXPRESSION_END, CLASS_END |
| RegExpLexerTests.TestNegatedPosixBracketExpression | RegExpSupport/test/org/intellij/lang/regexp/RegExpLexerTest.java:109-117 | `[[:^xdigit:]]` has a CARET between BRACKET_EXPRESSION_BEGIN and NAME |
| RegExpLexerTests.TestOctalWithoutLeadingZero | RegExpSupport/test/org/intellij/lang/regexp/RegExpLexerTest.java:119-126 | with octal-without-leading-zero, `\0` and `\123` are OCT_CHAR inside and outside a class |
| RegExpLexerTests.TestOctalFollowedByDigit | RegExpSupport/test/org/intellij/lang/regexp/RegExpLexerTest.java:128-136 | `\39` splits into OCT_CHAR `\3` and CHARACTER `9`, inside and outside a class |
| RegExpLexerTests.TestOctalWithLeadingZero | RegExpSupport/test/org/intellij/lang/regexp/RegExpLexerTest.java:138-149 | without that capability `\0` is BAD_OCT_VALUE, `\1` is BACKREF outside a class and REDUNDANT_ESCAPE inside, the later digits CHARACTER |
| RegExpLexerTests.TestNoNestedCharacterClasses1 | RegExpSupport/test/org/intellij/lang/regexp/RegExpLexerTest.java:151-157 | without nesting, `[[\]]` keeps the inner `[` as CHARACTER and the escaped `]` as ESC_CHARACTER |
| RegExpLexerTests.TestNoNestedCharacterClasses2 | RegExpSupport/test/org/intellij/lang/regexp/RegExpLexerTest.java:159-176 | without nesting, the first `]` closes the class and the last `]` is CHARACTER |
| RegExpLexerTests.TestNestedCharacterClasses1 | RegExpSupport/test/org/intellij/lang/regexp/RegExpLexerTest.java:178-194 | with nesting, the inner `[^aeuoi]` is its own CLASS_BEGIN/CLASS_END pair after ANDAND |
| RegExpLexerTests.TestNestedCharacterClasses2 | RegExpSupport/test/org/intellij/lang/regexp/RegExpLexerTest.java:196-201 | a `]` right after `[` is CHARACTER |
| RegExpLexerProperties.IntersectionNeedsNesting | RegExpSupport/test/org/intellij/lang/regexp/RegExpLexerTest.java:28-35 | without nested classes no ANDAND token is ever produced, for any input |
| RegExpLexerProperties.TransformationEscapeStep | RegExpSupport/test/org/intellij/lang/regexp/RegExpLexerTest.java:46-80 | outside a quote, `\U \E \u \l \L` is a two-character token that is CHAR_CLASS iff TRANSFORMATION_ESCAPES is on, and otherwise INVALID_UNICODE_ESCAPE_TOKEN for `\u` and INVALID_CHARACTER_ESCAPE_TOKEN for the rest |
| RegExpLexerProperties.TransformationNeedsCapability | RegExpSupport/test/org/intellij/lang/regexp/RegExpLexerTest.java:46-80 | without TRANSFORMATION_ESCAPES, no token spelled `\U \E \u \l \L` anywhere in the stream is CHAR_CLASS |
| RegExpLexerProperties.PosixBracketOpenStep | RegExpSupport/test/org/intellij/lang/regexp/RegExpLexerTest.java:100-117 | inside a class, `[:` is BRACKET_EXPRESSION_BEGIN iff POSIX_BRACKET_EXPRESSIONS is on, and then it is two characters long and opens a bracket expression |
| RegExpLexerProperties.BracketExpressionsNeedCapability | RegExpSupport/test/org/intellij/lang/regexp/RegExpLexerTest.java:100-117 | without POSIX_BRACKET_EXPRESSIONS, neither BRACKET_EXPRESSION_BEGIN nor BRACKET_EXPRESSION_END appears in the stream |
| RegExpLexerProperties.DepthAccounting | RegExpSupport/test/org/intellij/lang/regexp/RegExpLexerTest.java:151-201 | opened classes plus the starting depth equal closed classes plus the final depth |
| RegExpLexerProperties.FlatDepth | RegExpSupport/test/org/intellij/lang/regexp/RegExpLexerTest.java:151-176 | without nesting the class depth never exceeds one |
| RegExpLexerProperties.ClassesBalance | RegExpSupport/test/org/intellij/lang/regexp/RegExpLexerTest.java:151-201 | a token stream never closes more classes than it opens |
| RegExpLexerProperties.OctalTokensShape | RegExpSupport/test/org/intellij/lang/regexp/RegExpLexerTest.java:119-136 | every OCT_CHAR is a backslash and octal digits. With octal-without-leading-zero it has one to three digits, as the test's `\0`, `\123` and `\3` before `9` are. Without the capability it is a leading `0` and one to three more digits, a shape no test exercises and the model chooses |
| NumericCast.PromotionOperatorsExcludeShifts | plugins/InspectionGadgets/InspectionGadgetsAnalysis/src/com/siyeh/ig/numeric/UnnecessaryExplicitNumericCastInspection.java:37-54 | no promotion operator is a shift, `&&` or `\|\|` |
| NumericCast.WideningIsJls512 | plugins/InspectionGadgets/InspectionGadgetsAnalysis/src/com/siyeh/ig/numeric/UnnecessaryExplicitNumericCastInspection.java:219-256 | the table holds exactly for the widening primitive conversions of section 5.1.2 of the Java Language Specification, minus the targets short, char and byte |
| NumericCast.WideningIrreflexive | plugins/InspectionGadgets/InspectionGadgetsAnalysis/src/com/siyeh/ig/numeric/UnnecessaryExplicitNumericCastInspection.java:219-256 | no type widens to itself |
| NumericCast.WideningTransitive | plugins/InspectionGadgets/InspectionGadgetsAnalysis/src/com/siyeh/ig/numeric/UnnecessaryExplicitNumericCastInspection.java:219-256 | widening composes |
| NumericCast.WideningNotNarrowing | plugins/InspectionGadgets/InspectionGadgetsAnalysis/src/com/siyeh/ig/numeric/UnnecessaryExplicitNumericCastInspection.java:219-256 | a widening is never a narrowing |
| NumericCast.Pow2Values | plugins/InspectionGadgets/InspectionGadgetsAnalysis/src/com/siyeh/ig/numeric/UnnecessaryExplicitNumericCastInspection.java:263-271 | the bounds of byte, short and char are the powers of two of their widths |
| NumericCast.AssignmentConversion | plugins/InspectionGadgets/InspectionGadgetsAnalysis/src/com/siyeh/ig/numeric/UnnecessaryExplicitNumericCastInspection.java:258-286 | assignment conversion holds iff widening, or an int constant the target byte/short/char can represent; never into a class type or boolean |
| NumericCast.ByteRangeExample | plugins/InspectionGadgets/InspectionGadgetsAnalysis/src/com/siyeh/ig/numeric/UnnecessaryExplicitNumericCastInspection.java:275-286 | 128 fits short and char but not byte, -1 does not fit char, a non-constant fits nothing narrower |
| NumericCast.FirstNonParen | plugins/InspectionGadgets/InspectionGadgetsAnalysis/src/com/siyeh/ig/numeric/UnnecessaryExplicitNumericCastInspection.java:152-155 | the walk up the parents stops at the first non-parenthesized parent |
| NumericCast.FirstContaining | plugins/InspectionGadgets/InspectionGadgetsAnalysis/src/com/siyeh/ig/numeric/UnnecessaryExplicitNumericCastInspection.java:172-185 | the index of the first operand containing the cast, with no earlier one containing it |
| NumericCast.IsPrimitiveNumericCastNecessary | plugins/InspectionGadgets/InspectionGadgetsAnalysis/src/com/siyeh/ig/numeric/UnnecessaryExplicitNumericCastInspection.java:139-217 | the method with the parent-walking loop returns exactly `CastNecessary` |
| NumericCast.ScanOperands | plugins/InspectionGadgets/InspectionGadgetsAnalysis/src/com/siyeh/ig/numeric/UnnecessaryExplicitNumericCastInspection.java:169-191 | the operand loop with its early returns computes `WideCastNecessary` |
| NumericCast.FirstContainingAt | plugins/InspectionGadgets/InspectionGadgetsAnalysis/src/com/siyeh/ig/numeric/UnnecessaryExplicitNumericCastInspection.java:172-185 | the first operand containing the cast is the only candidate before it |
| NumericCast.FirstNonParenUnique | plugins/InspectionGadgets/InspectionGadgetsAnalysis/src/com/siyeh/ig/numeric/UnnecessaryExplicitNumericCastInspection.java:152-155 | the first non-parenthesized parent is unique |
| NumericCast.ParenthesesTransparent | plugins/InspectionGadgets/InspectionGadgetsAnalysis/src/com/siyeh/ig/numeric/UnnecessaryExplicitNumericCastInspection.java:152-155 | wrapping the cast in one more pair of parentheses does not change the verdict |
| NumericCast.UnknownCastsAreNecessary | plugins/InspectionGadgets/InspectionGadgetsAnalysis/src/com/siyeh/ig/numeric/UnnecessaryExplicitNumericCastInspection.java:139-151 | a missing cast type, a missing operand or a non-primitive operand makes the cast necessary |
| NumericCast.NarrowingCastsAreNecessary | plugins/InspectionGadgets/InspectionGadgetsAnalysis/src/com/siyeh/ig/numeric/UnnecessaryExplicitNumericCastInspection.java:159-162 | under a promotion operator a narrowing cast is necessary |
| NumericCast.IntCastUnderPromotion | plugins/InspectionGadgets/InspectionGadgetsAnalysis/src/com/siyeh/ig/numeric/UnnecessaryExplicitNumericCastInspection.java:163-168 | an (int) cast under a promotion operator is necessary iff the operand is long/float/double, or char in a String-typed expression |
| NumericCast.WideCastPosition | plugins/InspectionGadgets/InspectionGadgetsAnalysis/src/com/siyeh/ig/numeric/UnnecessaryExplicitNumericCastInspection.java:169-200 | a long/float/double cast at index i > 0 is unnecessary iff an earlier operand has the cast type; at index 0 iff operand 1 has it |
| NumericCast.ShiftCasts | plugins/InspectionGadgets/InspectionGadgetsAnalysis/src/com/siyeh/ig/numeric/UnnecessaryExplicitNumericCastInspection.java:193-199 | under a shift a cast is necessary iff it is in the first operand and is to long or the operand does not widen to int |
| NumericCast.AssignmentCasts | plugins/InspectionGadgets/InspectionGadgetsAnalysis/src/com/siyeh/ig/numeric/UnnecessaryExplicitNumericCastInspection.java:202-211 | under an assignment or a variable a cast is unnecessary iff its type is the target type and the operand is assignment-convertible to it |
| NumericCast.LongInitializerExample | plugins/InspectionGadgets/InspectionGadgetsAnalysis/src/com/siyeh/ig/numeric/UnnecessaryExplicitNumericCastInspection.java:207-211 | `long x = ((long) 1);` has an unnecessary cast |
| ReduceHandling.Lookup | java/java-impl/src/com/intellij/codeInspection/streamMigration/ReduceHandling.java:319-321 | an entry is found exactly when both keys are present |
| ReduceHandling.PutSpec | java/java-impl/src/com/intellij/codeInspection/streamMigration/ReduceHandling.java:32-41 | insert-or-create adds the class key, adds the one inner key, overwrites that entry only and leaves every other lookup unchanged |
| ReduceHandling.PrimitiveRegistrationBothNames | java/java-impl/src/com/intellij/codeInspection/streamMigration/ReduceHandling.java:27-30 | a primitive registration is found under both the boxed and the keyword name |
| ReduceHandling.Registry.AddAssociativeOperator | java/java-impl/src/com/intellij/codeInspection/streamMigration/ReduceHandling.java:32-41 | the operator table becomes `Put` of the old one; the two method tables are unchanged |
| ReduceHandling.Registry.AddPrimitiveOperator | java/java-impl/src/com/intellij/codeInspection/streamMigration/ReduceHandling.java:27-30 | registers under the boxed name, then the keyword; nothing else changes |
| ReduceHandling.Registry.AddAssociativeMember | java/java-impl/src/com/intellij/codeInspection/streamMigration/ReduceHandling.java:43-52 | the member table becomes `Put` of the old one; the other tables are unchanged |
| ReduceHandling.Registry.AddAssociativeStatic | java/java-impl/src/com/intellij/codeInspection/streamMigration/ReduceHandling.java:54-63 | the static table gains the entry under the return type with key `clazz.method`; the other tables are unchanged |
| ReduceHandling.Registry.RegisterOperators | java/java-impl/src/com/intellij/codeInspection/streamMigration/ReduceHandling.java:66-116 | the operator part of the static block applies the boolean, int, long, floating and String registrations in order |
| ReduceHandling.Registry.RegisterMembers | java/java-impl/src/com/intellij/codeInspection/streamMigration/ReduceHandling.java:118-132 | the member part of the static block applies its registrations in order |
| ReduceHandling.Registry.RegisterMathStaticsAsWritten | java/java-impl/src/com/intellij/codeInspection/streamMigration/ReduceHandling.java:151-158 | the `Math` registrations exactly as written, with `long` `min` twice |
| ReduceHandling.Registry.constructor | java/java-impl/src/com/intellij/codeInspection/streamMigration/ReduceHandling.java:65-159 | the registry after the static block, with `Math.min` registered for int as evidently intended |
| ReduceHandling.Registry.AsWritten | java/java-impl/src/com/intellij/codeInspection/streamMigration/ReduceHandling.java:65-159 | the registry after the static block exactly as written |
| ReduceHandling.Registry.GetReductionAccumulator | java/java-impl/src/com/intellij/codeInspection/streamMigration/ReduceHandling.java:306-416 | the step-by-step matcher returns exactly `Reduction` over the registry's tables |
| ReduceHandling.MapAssignOperatorSpec | java/java-impl/src/com/intellij/codeInspection/streamMigration/ReduceHandling.java:162-176 | defined exactly for `&= *= \|= += ^=`, each mapped to the operator spelled without `=` |
| ReduceHandling.OperatorToStringSpec | java/java-impl/src/com/intellij/codeInspection/streamMigration/ReduceHandling.java:179-197 | defined exactly for the seven operators `& && * \| \|\| + ^`, giving their spelling |
| ReduceHandling.OperatorToStringInjective | java/java-impl/src/com/intellij/codeInspection/streamMigration/ReduceHandling.java:179-197 | two operators with the same spelling are the same operator |
| ReduceHandling.CompoundOperatorsSpelled | java/java-impl/src/com/intellij/codeInspection/streamMigration/ReduceHandling.java:328 | every compound assignment maps to a spelled operator, so its format is `"%s op %s"` |
| ReduceHandling.TypeAllowedSpec | java/java-impl/src/com/intellij/codeInspection/streamMigration/ReduceHandling.java:294-303 | allowed iff the types are equal, or the type is primitive and the accumulator is its box |
| ReduceHandling.TypeAllowedExamples | java/java-impl/src/com/intellij/codeInspection/streamMigration/ReduceHandling.java:294-303 | a primitive accumulator accepts only its own type; a boxed one also accepts the primitive; an unknown type is refused |
| ReduceHandling.StaticOperatorsSpelled | java/java-impl/src/com/intellij/codeInspection/streamMigration/ReduceHandling.java:65-116 | every operator in the table has a spelling, so `operatorToString` never yields null on a match |
| ReduceHandling.StaticOperatorsFacts | java/java-impl/src/com/intellij/codeInspection/streamMigration/ReduceHandling.java:93-105 | int and long `^` are registered with empty identity and not idempotent, int `&` with empty identity and idempotent; char, byte and short have no operators |
| ReduceHandling.StaticStaticsAsWrittenLacksIntMin | java/java-impl/src/com/intellij/codeInspection/streamMigration/ReduceHandling.java:151-158 | as written, `java.lang.Math.min` is missing for int, while `Math.max` for int and `Math.min` for long are present |
| ReduceHandling.StaticStaticsHaveMathMin | java/java-impl/src/com/intellij/codeInspection/streamMigration/ReduceHandling.java:151-158 | the corrected table has `Math.min` for int, long, float and double |
| ReduceHandling.AccumulateSpec | java/java-impl/src/com/intellij/codeInspection/streamMigration/ReduceHandling.java:399-415 | data is produced iff (identity non-empty or idempotent) and exactly one operand references the accumulator; `reversed` is set iff it is the second, and the other operand is returned |
| ReduceHandling.ReductionSound | java/java-impl/src/com/intellij/codeInspection/streamMigration/ReduceHandling.java:306-416 | a result's accumulator is the resolved left-hand side, its operation has an identity or is idempotent, and its expression does not reference the accumulator |
| ReduceHandling.CompoundAssignmentReduction | java/java-impl/src/com/intellij/codeInspection/streamMigration/ReduceHandling.java:316-328 | a compound assignment never throws; a result is not reversed, returns the right-hand side, uses the table entry for the mapped operator and the format `"%s op %s"` |
| ReduceHandling.BinaryAssignmentReduction | java/java-impl/src/com/intellij/codeInspection/streamMigration/ReduceHandling.java:329-344 | `a = x op y` never throws; a result uses the table entry for `op` and returns the operand that is not the accumulator |
| ReduceHandling.CallReductionFormat | java/java-impl/src/com/intellij/codeInspection/streamMigration/ReduceHandling.java:345-395 | a call result uses the registered operation; static methods have two parameters and format `"Cls.m(%s, %s)"`, member methods one and `"%s.m(%s)"` |
| ReduceHandling.ReductionThrowsOnlyOnShortArguments | java/java-impl/src/com/intellij/codeInspection/streamMigration/ReduceHandling.java:375-382 | the only exception is an index out of bounds, for a call with fewer arguments than its method has parameters |
| ReduceHandling.AssociativeOperationSpec | java/java-impl/src/com/intellij/codeInspection/streamMigration/ReduceHandling.java:199-242 | a found operation needs a named declaring class and a return type, two parameters for static methods, one of the class's type (returning it) for members; a registered static entry is returned as is |
| ReduceHandling.XorWithoutIdentityRejected | java/java-impl/src/com/intellij/codeInspection/streamMigration/ReduceHandling.java:96-105 | when `^` is registered for the accumulator's type with empty identity and not idempotent (int and long), `acc ^= e` and `acc = x ^ y` are rejected |
| ReduceHandling.IdempotentAndReduces | java/java-impl/src/com/intellij/codeInspection/streamMigration/ReduceHandling.java:96 | `acc &= e` on int is accepted with format `"%s & %s"` although its identity is empty |
| ReduceHandling.IntMathMinNeedsRegistration | java/java-impl/src/com/intellij/codeInspection/streamMigration/ReduceHandling.java:206-214 | `Math.min(int, int)` is recognised exactly when the static table has it under int |
| ReduceHandling.IntMathMinFinding | java/java-impl/src/com/intellij/codeInspection/streamMigration/ReduceHandling.java:155-158 | as written `Math.min(int, int)` is not an associative operation; with the corrected table it is (empty identity, idempotent) |
| JavaTree.ResolveVariable | java/java-impl/src/com/intellij/codeInspection/streamMigration/StringConcatHandling.java:24-29 | a variable results exactly from a reference that resolves to a variable |
| StringConcatHandling.CheckInitArguments | java/java-impl/src/com/intellij/codeInspection/streamMigration/StringConcatHandling.java:38-70 | the nested loops with early returns compute `InitArgumentsMatch`: local, `new C(...)` of the variable's own type, and some non-null signature of the same length matching every known argument type |
| StringConcatHandling.BuilderArguments | java/java-impl/src/com/intellij/codeInspection/streamMigration/StringConcatHandling.java:318-323 | an accepted StringBuilder is built with no argument or one argument that, when typed, is a String |
| StringConcatHandling.NegatedReferenceSpec | java/java-impl/src/com/intellij/codeInspection/streamMigration/StringConcatHandling.java:79-86 | parentheses are transparent; `!r` matches iff `r` resolves to the variable; a negated reference is never a plain reference |
| StringConcatHandling.GetAssignment | java/java-impl/src/com/intellij/codeInspection/streamMigration/StringConcatHandling.java:89-94 | an assignment results iff the statement is an expression statement holding one |
| StringConcatHandling.GetMethodCall | java/java-impl/src/com/intellij/codeInspection/streamMigration/StringConcatHandling.java:97-102 | a call results iff the statement is an expression statement holding one |
| StringConcatHandling.AppendParamSpec | java/java-impl/src/com/intellij/codeInspection/streamMigration/StringConcatHandling.java:105-128 | builder mode yields `e` iff the variable is a StringBuilder and the statement is `v.append(e)` with one argument; string mode iff the variable is a String and the addend of the assignment is `e`; null inputs give null |
| StringConcatHandling.FISetterSpec | java/java-impl/src/com/intellij/codeInspection/streamMigration/StringConcatHandling.java:166-182 | a setter is `v = literal` with the boolean opposite to the initial value, or also `v = !v` when toggling is allowed |
| StringConcatHandling.ConstantValueSpec | java/java-impl/src/com/intellij/codeInspection/streamMigration/StringConcatHandling.java:184-196 | a literal is always constant; a reference is constant iff it resolves to a final variable that is an empty array or of immutable type; an unresolved reference throws a null pointer exception |
| StringConcatHandling.FIVariable | java/java-impl/src/com/intellij/codeInspection/streamMigration/StringConcatHandling.java:138-148 | the first-iteration variable, when found, is local |
| StringConcatHandling.FIVariableSpec | java/java-impl/src/com/intellij/codeInspection/streamMigration/StringConcatHandling.java:138-148 | a prefix operator and parentheses are looked through; a reference gives a variable iff it resolves to a local one |
| StringConcatHandling.CheckDelimiter | java/java-impl/src/com/intellij/codeInspection/streamMigration/StringConcatHandling.java:254-315 | the delimiter phase, with its reassigned flags, computes the stage function `CheckSetup` as written |
| StringConcatHandling.CheckAppend | java/java-impl/src/com/intellij/codeInspection/streamMigration/StringConcatHandling.java:317-347 | the append phase, with its reassigned parameter, computes the stage function `Finish` |
| StringConcatHandling.GetJoinedVariable | java/java-impl/src/com/intellij/codeInspection/streamMigration/StringConcatHandling.java:224-348 | the whole method returns `JoinedVariable`, including its exceptions |
| StringConcatHandling.TargetKinds | java/java-impl/src/com/intellij/codeInspection/streamMigration/StringConcatHandling.java:229-240 | the target is a StringBuilder if any variable is one, else a String with a known initializer; `stringConcat` is set iff it is a String |
| StringConcatHandling.FinishSpec | java/java-impl/src/com/intellij/codeInspection/streamMigration/StringConcatHandling.java:317-347 | the final phase returns only the target, which is unreferenced in the operations and, for a builder, has matching constructor arguments |
| StringConcatHandling.JoinedVariableSpec | java/java-impl/src/com/intellij/codeInspection/streamMigration/StringConcatHandling.java:224-348 | a joined variable comes from a block of 1 to 3 statements, is one of the variables, is a StringBuilder whenever one exists, is unreferenced in the operations, and a boolean check variable exists unless the block has one statement |
| StringConcatHandling.LongBlocksRejected | java/java-impl/src/com/intellij/codeInspection/streamMigration/StringConcatHandling.java:226 | a block of more than 3 statements gives null |
| StringConcatHandling.EmptyBlockThrows | java/java-impl/src/com/intellij/codeInspection/streamMigration/StringConcatHandling.java:226-275 | as written an empty block with a check variable throws index out of bounds; corrected it gives null |
| StringConcatHandling.MissingCheckBranchThrows | java/java-impl/src/com/intellij/codeInspection/streamMigration/StringConcatHandling.java:290-308 | as written `if (!first) { sb.append(","); } sb.append(s);` with `first = true` throws no such element; corrected it gives null |
| StringConcatHandling.UnbracedBranchThrows | java/java-impl/src/com/intellij/codeInspection/streamMigration/StringConcatHandling.java:290-295 | as written an if whose then-branch is not a block throws a class cast exception; corrected it gives null |
| StringConcatHandling.AsWrittenThrows | java/java-impl/src/com/intellij/codeInspection/streamMigration/StringConcatHandling.java:224-348 | each exception of the code as written occurs only for its block shape: empty block, two statements, an if with 2 or 3 statements |
| StringConcatHandling.CorrectedThrowsOnlyNullPointer | java/java-impl/src/com/intellij/codeInspection/streamMigration/StringConcatHandling.java:224-348 | the corrected method can throw only the null pointer exception of `isConstantValue` |
| StringConcatHandling.CorrectedAgrees | java/java-impl/src/com/intellij/codeInspection/streamMigration/StringConcatHandling.java:224-348 | wherever the code as written returns, the corrected method returns the same |
| StringBufferJoinHandling.PreferRight | java/java-impl/src/com/intellij/codeInspection/streamMigration/StringBufferJoinHandling.java:30-38 | the right operand is taken when it qualifies, the left only otherwise, and nothing iff neither qualifies |
| StringBufferJoinHandling.ExclusionVarSpec | java/java-impl/src/com/intellij/codeInspection/streamMigration/StringBufferJoinHandling.java:18-64 | an exclusion variable needs an `if (x != lit)` first statement, a local variable initialised with a literal of the same non-null value, and a braced then-branch of exactly 2 statements |
| StringBufferJoinHandling.DoubleExclusionComparesBits | java/java-impl/src/com/intellij/codeInspection/streamMigration/StringBufferJoinHandling.java:43-45 | a `double` check variable is found iff its initializer and the compared literal have the same `doubleToLongBits` pattern, as `Double.equals` decides |
| StringBufferJoinHandling.ExclusionVarSymmetric | java/java-impl/src/com/intellij/codeInspection/streamMigration/StringBufferJoinHandling.java:30-38 | `x != lit` and `lit != x` give the same result |
| StringBufferJoinHandling.UnbracedExclusionThrows | java/java-impl/src/com/intellij/codeInspection/streamMigration/StringBufferJoinHandling.java:50-57 | as written an unbraced then-branch throws a class cast exception; corrected it gives null |
| StringBufferJoinHandling.ExclusionVarCorrectedAgrees | java/java-impl/src/com/intellij/codeInspection/streamMigration/StringBufferJoinHandling.java:18-64 | the corrected check never throws, and agrees with the code as written wherever that returns |
| StringBufferJoinHandling.AppendCallSpec | java/java-impl/src/com/intellij/codeInspection/streamMigration/StringBufferJoinHandling.java:67-76 | as written it throws iff the call has no arguments; the check holds iff the first argument references the loop variable, the name is `append`, an unqualified or `this` call is outside a method named `append`, and a qualifier is not a call |
| StringBufferJoinHandling.CallSubjectSpec | java/java-impl/src/com/intellij/codeInspection/streamMigration/StringBufferJoinHandling.java:78-83 | holds iff the qualifier resolves to the variable |
| StringBufferJoinHandling.JoinedVariableSpec | java/java-impl/src/com/intellij/codeInspection/streamMigration/StringBufferJoinHandling.java:86-111 | `v` is joined iff the loop variable is a String, `v` is the only variable, a StringBuilder unreferenced in the operations, and the single call is an append call on `v`; any other variable count gives null |
| StringBufferJoinHandling.NoArgumentCallThrows | java/java-impl/src/com/intellij/codeInspection/streamMigration/StringBufferJoinHandling.java:67-69 | as written a single `sb.reverse()` call throws index out of bounds; corrected it gives null |
| StringBufferJoinHandling.JoinedVariableCorrectedAgrees | java/java-impl/src/com/intellij/codeInspection/streamMigration/StringBufferJoinHandling.java:86-111 | the corrected method never throws and agrees with the code as written wherever that returns |
| ComparisonUtilTestBase.FirstPresent | platform/diff-impl/tests/com/intellij/diff/comparison/ComparisonUtilTestBase.kt:493-498 | the result is the first present option, and absent iff all are absent |
| ComparisonUtilTestBase.PolicyGetSpec | platform/diff-impl/tests/com/intellij/diff/comparison/ComparisonUtilTestBase.kt:492-499 | `get` is the first present of IGNORE → ignore, trim, default; TRIM → trim, default; DEFAULT → default; a present default makes every policy present, and TRIM present implies IGNORE present |
| ComparisonUtilTestBase.DataSidesSpec | platform/diff-impl/tests/com/intellij/diff/comparison/ComparisonUtilTestBase.kt:476-490 | two-sided and three-sided exclude each other and together mean both outer sides are present; `asCouple`/`asTrio` and building `Data` back are inverse |
| ComparisonUtilTestBase.ChangeBuildersSpec | platform/diff-impl/tests/com/intellij/diff/comparison/ComparisonUtilTestBase.kt:428-442 | `mod` has two non-empty ranges, `del` an empty after-range at `line2`, `ins` an empty before-range at `line1`; a deletion is never an insertion |
| ComparisonUtilTestBase.NewlinesFrom | platform/diff-impl/tests/com/intellij/diff/comparison/ComparisonUtilTestBase.kt:229-241 | the newline index is exactly the increasing positions of the newlines |
| ComparisonUtilTestBase.LineOffsetsSpec | platform/diff-impl/tests/com/intellij/diff/comparison/ComparisonUtilTestBase.kt:229-241 | a line starts at a line boundary and ends at the next newline or the end of text, with no newline inside |
| ComparisonUtilTestBase.LineOffsetsMatchSpec | platform/diff-impl/tests/com/intellij/diff/comparison/ComparisonUtilTestBase.kt:229-241 | offsets that pass `checkLineOffsets` are ordered line boundaries, and an empty line range has an empty offset range |
| ComparisonUtilTestBase.LineFragmentCoversLines | platform/diff-impl/tests/com/intellij/diff/comparison/ComparisonUtilTestBase.kt:119-131 | a consistent line fragment has ordered, not both empty, line ranges and covers whole lines of both documents |
| ComparisonUtilTestBase.ConsistentLineFragmentsMatchable | platform/diff-impl/tests/com/intellij/diff/comparison/ComparisonUtilTestBase.kt:114-131 | consistent line fragments have non-negative, ordered line and offset ranges, which is what both BitSet matching checks require |
| ComparisonUtilTestBase.ConsistentAppend | platform/diff-impl/tests/com/intellij/diff/comparison/ComparisonUtilTestBase.kt:114-139 | consistency holds for a concatenation exactly when it holds for both parts |
| ComparisonUtilTestBase.RangeSet | platform/diff-impl/tests/com/intellij/diff/comparison/ComparisonUtilTestBase.kt:183-186 | `BitSet.set(start, end)` marks exactly the integers in `[start, end)` |
| ComparisonUtilTestBase.CoveredSpec | platform/diff-impl/tests/com/intellij/diff/comparison/ComparisonUtilTestBase.kt:180-190 | a position is covered iff some range contains it |
| ComparisonUtilTestBase.DiffMatchingSpec | platform/diff-impl/tests/com/intellij/diff/comparison/ComparisonUtilTestBase.kt:207-209 | the converted diff fragments cover a position iff some fragment's offset range contains it, on each side |
| ComparisonUtilTestBase.LineMatchingSpec | platform/diff-impl/tests/com/intellij/diff/comparison/ComparisonUtilTestBase.kt:211-213 | the converted line fragments cover a line iff some fragment's line range contains it, on each side |
| ComparisonUtilTestBase.CheckDiffMatching | platform/diff-impl/tests/com/intellij/diff/comparison/ComparisonUtilTestBase.kt:180-190 | the BitSet-filling loops accept iff each side's matching equals the union of the fragments' offset ranges |
| ComparisonUtilTestBase.CheckLineMatching | platform/diff-impl/tests/com/intellij/diff/comparison/ComparisonUtilTestBase.kt:168-178 | the BitSet-filling loops accept iff each side's matching equals the union of the fragments' line ranges |
| ComparisonUtilTestBase.FirstIndexOfSpec | platform/diff-impl/tests/com/intellij/diff/comparison/ComparisonUtilTestBase.kt:262-263 | the index found is a delimiter with none before it, and none is found iff there is no delimiter |
| ComparisonUtilTestBase.IndexOfAny | platform/diff-impl/tests/com/intellij/diff/comparison/ComparisonUtilTestBase.kt:262-263 | `indexOfAny` returns -1 or a position at or after the start |
| ComparisonUtilTestBase.Split | platform/diff-impl/tests/com/intellij/diff/comparison/ComparisonUtilTestBase.kt:251-253 | `split` gives at least one piece and no piece contains a delimiter |
| ComparisonUtilTestBase.MarkLines | platform/diff-impl/tests/com/intellij/diff/comparison/ComparisonUtilTestBase.kt:258-275 | the while loop returns the marked lines, and fails exactly when a marked segment holds a space |
| ComparisonUtilTestBase.ParseLineMatching | platform/diff-impl/tests/com/intellij/diff/comparison/ComparisonUtilTestBase.kt:247-276 | the parser returns `LineMatching`: absent on a length mismatch or a piece not as long as its line, else the marked lines |
| ComparisonUtilTestBase.SplitCount | platform/diff-impl/tests/com/intellij/diff/comparison/ComparisonUtilTestBase.kt:251-253 | `split` gives one more piece than there are delimiters |
| ComparisonUtilTestBase.NewlinesCount | platform/diff-impl/tests/com/intellij/diff/comparison/ComparisonUtilTestBase.kt:229-241 | the newline index has one entry per newline |
| ComparisonUtilTestBase.LineCountIsSplit | platform/diff-impl/tests/com/intellij/diff/comparison/ComparisonUtilTestBase.kt:251-256 | the document's line count equals the number of pieces of splitting it at newlines |
| ComparisonUtilTestBase.SegmentsCount | platform/diff-impl/tests/com/intellij/diff/comparison/ComparisonUtilTestBase.kt:258-275 | the loop visits no more segments than `split` gives pieces |
| ComparisonUtilTestBase.SegmentPiece | platform/diff-impl/tests/com/intellij/diff/comparison/ComparisonUtilTestBase.kt:258-275 | each segment the loop walks is the piece at the same position, followed by its delimiter unless it is the last |
| ComparisonUtilTestBase.MarkedLineSpec | platform/diff-impl/tests/com/intellij/diff/comparison/ComparisonUtilTestBase.kt:258-275 | line i is marked iff its piece holds a character other than a space, or its segment ends in `*` |
| ComparisonUtilTestBase.ParsedLinesInDocument | platform/diff-impl/tests/com/intellij/diff/comparison/ComparisonUtilTestBase.kt:247-276 | every parsed line number is a line of the document |

## Left out

- The regular-expression lexer's own source, and the `LexerTestCase` printing, are not part of this model. The token rules are those the tests fix. For other inputs they are a modelling choice: an unrecognised escape is a two-character ESC_CHARACTER, a lone trailing backslash is INVALID_CHARACTER_ESCAPE_TOKEN, group and quantifier characters are CHARACTER, `\0` followed by octal digits is an OCT_CHAR of up to three of them (three only when the first is at most `3`) when octal escapes need a leading zero, and with octal-without-leading-zero `\1` to `\7` take up to three octal digits with no bound on the value. The lexer's predefined classes such as `\d`, `\w` and `\s`, and the NAME tokens of group and property names, are not modelled. The capability lemmas are therefore stated only for the constructs the tests exercise: `&&`, the transformation escapes, the POSIX delimiters `[:` and `:]`, and octal escapes.
- The `testQE` input holds a carriage return. The test's comparison of printed lines normalises it, so the model emits CHARACTER(CR) and then CHARACTER(LF).
- IDE tree and type analyses become inputs rather than being computed. These are: resolution, expression types, `getInitializerUsageStatus`, `isVariableReferencedAfter` (a control-flow analysis), `isReferencedInOperations`, `extractAddend`, `ClassUtils.isImmutable`, `AnnotationUtil`, `TypeUtils.expressionHasTypeOrSubtype`, `VariableAccessUtils.variableIsUsed`, `PsiType.isAssignableFrom(boolean)`, `TerminalBlock.getSingleExpression`, `ExpressionUtils.computeConstantExpression`, `MethodCallUtils.isNecessaryForSurroundingMethodCall` and `ExpectedTypeUtils.findExpectedType`.
- `TypeUtils.isNarrowingConversion` is not part of this model. It is taken as the narrowing of section 5.1.3 of the Java Language Specification.
- `StringConcatHandling.getLocalDeclaration` and the two `resolveVariable` helpers are replaced by the resolution in `JavaTree.ResolveVariable`.
- The quick fixes are tree rewrites through the element factory and are not modelled. These are ReplaceWithReduceFix, ReplaceWithJoiningFix and `doFix` in UnnecessaryExplicitNumericCastInspection.java:84-106. The same goes for the visitor and error reporting.
- `ReduceHandling.getReduceVar` and `getMethodCall` are not modelled. Both are thin wrappers over `getSingleExpression` and the matcher.
- ReduceHandling.AssociativeOperationSpec: the Associative annotation's `identity` and `idempotent` attributes are assumed present. ReduceHandling.java:240-241 stores a missing attribute as null without complaint. The null pointer exception that follows at ReduceHandling.java:400 is not modelled; it comes from `opData.getFirst().isEmpty()` or from unboxing `opData.getSecond()`.
- The float and double identity strings (`"0F"`, `"1D"`) are opaque strings, not floating-point values.
- StringConcatHandling.FISetterSpec: a boolean-typed literal is assumed to carry a boolean value. The `(Boolean)` cast of the assigned value in `isValidFISetter` (StringConcatHandling.java:178) is not modelled as a possible exception. A non-boolean value is treated like a null one.
- StringConcatHandling.JoinedVariableSpec: the same assumption covers the initializer of the check variable. The `(Boolean)` cast in `getJoinedVariable` (StringConcatHandling.java:268) is not modelled as a possible exception either.
- The diff engine behind ComparisonUtilTestBase is not part of this model. This covers `MANAGER.compare*`, `ByWord.compare` and `processBlocks`, and also the `TestBuilder` driver and the `doLineTest`/`doWordTest`/`doCharTest`/`doSplitterTest` drivers.
- The three-sided merge checks are not modelled: `checkConsistency` for `MergeWordFragment`, `checkMergeMatching`, `convertMergeFragments` and `checkMergeChanges`. `Data.asTrio` is modelled only as the inverse of building a trio.
- `checkConsistencyLineInner` (ComparisonUtilTestBase.kt:101-112) is not modelled. It checks the shape of a single line fragment before running `checkConsistency` on its inner fragments, and that check is modelled.
- `DocumentImpl` line offsets are a newline index. `getLineCount` is the number of newlines plus one.
- ComparisonUtilTestBase.CheckDiffMatching: offsets are assumed non-negative and ordered, where `BitSet.set` would throw otherwise. ComparisonUtilTestBase.CheckLineMatching makes the same assumption for line numbers. For line fragments the consistency check already guarantees both (ConsistentLineFragmentsMatchable). It does not guarantee non-negative offsets for other fragments.
- The remaining files in the repository are UI, icon, timing or test-data code and are not modelled.

## Findings

| source | as written | input that shows it | evidently intended | confidence | as-written member | corrected member |
|---|---|---|---|---|---|---|
| java/java-impl/src/com/intellij/codeInspection/streamMigration/ReduceHandling.java:157-158 | `Math.min` is registered for `long` twice and never for `int` | `acc = Math.min(acc, x)` with `int acc` is not recognised as a reduction | register `Math.min` for `int` like `Math.max` at line 153 | not executed | ReduceHandling.IntMathMinFinding | ReduceHandling.StaticStaticsHaveMathMin |
| java/java-impl/src/com/intellij/codeInspection/streamMigration/StringConcatHandling.java:226 | the guard `length != 0 && length > 3` lets an empty block through to `getStatements()[0]` at line 275 | an empty loop body with a boolean variable among the loop variables | reject an empty block (`length == 0 \|\| length > 3`) | not executed | StringConcatHandling.EmptyBlockThrows | StringConcatHandling.CorrectedThrowsOnlyNullPointer |
| java/java-impl/src/com/intellij/codeInspection/streamMigration/StringConcatHandling.java:290-294 | the branches are cast to `PsiBlockStatement` without a type check | `if (first) first = false; else sb.append(",");` | treat a branch that is not a block as absent | not executed | StringConcatHandling.UnbracedBranchThrows | StringConcatHandling.CorrectedAgrees |
| java/java-impl/src/com/intellij/codeInspection/streamMigration/StringConcatHandling.java:307 | `checkBranch.get()` is called without checking that the branch is present | `if (!first) { sb.append(","); } sb.append(s);` with `boolean first = true` | reject a two-statement block without a check branch | not executed | StringConcatHandling.MissingCheckBranchThrows | StringConcatHandling.CorrectedAgrees |
| java/java-impl/src/com/intellij/codeInspection/streamMigration/StringBufferJoinHandling.java:68 | `getExpressions()[0]` is read without checking the argument count | a loop body `sb.reverse();` over a String loop variable | a call without arguments is not an append call | not executed | StringBufferJoinHandling.NoArgumentCallThrows | StringBufferJoinHandling.JoinedVariableCorrectedAgrees |
| java/java-impl/src/com/intellij/codeInspection/streamMigration/StringBufferJoinHandling.java:56 | the then-branch is cast to `PsiBlockStatement` without a type check | `if (flag != true) sb.append(",");` with `boolean flag = true` | a then-branch that is not a block gives no exclusion variable | not executed | StringBufferJoinHandling.UnbracedExclusionThrows | StringBufferJoinHandling.ExclusionVarCorrectedAgrees |
