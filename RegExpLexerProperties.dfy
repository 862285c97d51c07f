/**
 * Properties of the token stream that hold for every input: how the
 * capabilities gate the constructs the lexer tests fix, how the class depth
 * accounts for the class brackets, and the shape of an octal escape.
 */
module RegExpLexerProperties {
  import opened RegExpLexer

  /** The number of tokens in `ts` whose kind is one of `ks`. */
  function Count(ts: seq<Token>, ks: set<TokenKind>): nat {
    if ts == [] then 0 else (if ts[0].kind in ks then 1 else 0) + Count(ts[1..], ks)
  }

  lemma CountCons(t: Token, rest: seq<Token>, ks: set<TokenKind>)
    ensures Count([t] + rest, ks) == (if t.kind in ks then 1 else 0) + Count(rest, ks)
  {
    assert ([t] + rest)[1..] == rest;
  }

  /** Counting from `pos` counts the token of one scanner step, then the rest. */
  lemma CountFromStep(caps: set<Capability>, s: string, pos: nat, m: Mode, ks: set<TokenKind>)
    requires pos < |s|
    ensures Count(TokensFrom(caps, s, pos, m), ks)
         == (if Step(caps, s, pos, m).kind in ks then 1 else 0)
          + Count(TokensFrom(caps, s, pos + Step(caps, s, pos, m).length, Step(caps, s, pos, m).next), ks)
  {
    var sc := Step(caps, s, pos, m);
    var t := Token(sc.kind, s[pos..pos + sc.length]);
    assert TokensFrom(caps, s, pos, m) == [t] + TokensFrom(caps, s, pos + sc.length, sc.next);
    CountCons(t, TokensFrom(caps, s, pos + sc.length, sc.next), ks);
  }

  /** A step whose token is not counted, followed by a stream with none counted, leaves none counted. */
  lemma CountZeroStep(caps: set<Capability>, s: string, pos: nat, m: Mode, ks: set<TokenKind>)
    requires pos < |s| && Step(caps, s, pos, m).kind !in ks
    requires Count(TokensFrom(caps, s, pos + Step(caps, s, pos, m).length, Step(caps, s, pos, m).next), ks) == 0
    ensures Count(TokensFrom(caps, s, pos, m), ks) == 0
  {
    CountFromStep(caps, s, pos, m, ks);
  }

  /** The mode the scanner is in after scanning from `pos` to the end of `s`. */
  function FinalMode(caps: set<Capability>, s: string, pos: nat, m: Mode): Mode
    requires pos <= |s|
    decreases |s| - pos
  {
    if pos == |s| then m
    else
      var sc := Step(caps, s, pos, m);
      FinalMode(caps, s, pos + sc.length, sc.next)
  }

  lemma StepWithoutNesting(caps: set<Capability>, s: string, pos: nat, m: Mode)
    requires pos < |s| && NestedCharacterClasses !in caps
    ensures Step(caps, s, pos, m).kind != AndAnd
    ensures m.depth <= 1 ==> Step(caps, s, pos, m).next.depth <= 1
  {
  }

  lemma StepWithoutTransformation(caps: set<Capability>, s: string, pos: nat, m: Mode)
    requires pos < |s| && TransformationEscapes !in caps
    ensures Step(caps, s, pos, m).kind != CharClass
  {
  }

  /** The delimiters of a POSIX bracket expression, `[:` and `:]`. */
  const BracketExpressionKinds: set<TokenKind> := {BracketExpressionBegin, BracketExpressionEnd}

  lemma StepWithoutPosix(caps: set<Capability>, s: string, pos: nat, m: Mode)
    requires pos < |s| && PosixBracketExpressions !in caps && m.bracket == Outside
    ensures Step(caps, s, pos, m).next.bracket == Outside
    ensures Step(caps, s, pos, m).kind !in BracketExpressionKinds
  {
  }

  /** A step changes the class depth by one exactly at a class bracket. */
  lemma StepDepth(caps: set<Capability>, s: string, pos: nat, m: Mode)
    requires pos < |s|
    ensures (if Step(caps, s, pos, m).kind in {ClassBegin} then 1 else 0) + m.depth
         == (if Step(caps, s, pos, m).kind in {ClassEnd} then 1 else 0) + Step(caps, s, pos, m).next.depth
  {
  }

  /** Without nested classes there is no intersection token: `&&` stays two characters. */
  lemma {:induction false} IntersectionNeedsNesting(caps: set<Capability>, s: string, pos: nat, m: Mode)
    requires pos <= |s| && NestedCharacterClasses !in caps
    ensures Count(TokensFrom(caps, s, pos, m), {AndAnd}) == 0
    decreases |s| - pos
  {
    if pos < |s| {
      var sc := Step(caps, s, pos, m);
      var t := Token(sc.kind, s[pos..pos + sc.length]);
      assert TokensFrom(caps, s, pos, m) == [t] + TokensFrom(caps, s, pos + sc.length, sc.next);
      StepWithoutNesting(caps, s, pos, m);
      IntersectionNeedsNesting(caps, s, pos + sc.length, sc.next);
      CountCons(t, TokensFrom(caps, s, pos + sc.length, sc.next), {AndAnd});
    }
  }

  /** The case-transformation escapes of an editor replacement: `\U`, `\L`, `\l`, `\u` and `\E`. */
  predicate IsTransformationEscape(text: string) {
    |text| == 2 && text[0] == '\\' && text[1] in {'U', 'L', 'l', 'u', 'E'}
  }

  /**
   * Outside a quote and a bracket expression, a transformation escape is one
   * two-character token, a character class exactly when the capability is on,
   * and otherwise an invalid character or invalid Unicode escape.
   */
  lemma TransformationEscapeStep(caps: set<Capability>, s: string, pos: nat, m: Mode)
    requires pos + 1 < |s| && IsTransformationEscape(s[pos..pos + 2])
    requires !m.quoted && m.bracket == Outside
    ensures Step(caps, s, pos, m).length == 2
    ensures Step(caps, s, pos, m).kind == CharClass <==> TransformationEscapes in caps
    ensures TransformationEscapes !in caps ==>
      Step(caps, s, pos, m).kind == (if s[pos + 1] == 'u' then InvalidUnicodeEscape else InvalidCharacterEscape)
  {
    assert s[pos] == s[pos..pos + 2][0] && s[pos + 1] == s[pos..pos + 2][1];
  }

  /** Without transformation escapes no token spelled as one is a character class. */
  lemma {:induction false} TransformationNeedsCapability(caps: set<Capability>, s: string, pos: nat, m: Mode)
    requires pos <= |s| && TransformationEscapes !in caps
    ensures forall t :: t in TokensFrom(caps, s, pos, m) && IsTransformationEscape(t.text) ==> t.kind != CharClass
    decreases |s| - pos
  {
    if pos < |s| {
      var sc := Step(caps, s, pos, m);
      var t := Token(sc.kind, s[pos..pos + sc.length]);
      assert TokensFrom(caps, s, pos, m) == [t] + TokensFrom(caps, s, pos + sc.length, sc.next);
      StepWithoutTransformation(caps, s, pos, m);
      TransformationNeedsCapability(caps, s, pos + sc.length, sc.next);
    }
  }

  /**
   * Inside a character class, `[:` opens a POSIX bracket expression exactly
   * when the capability is on.
   */
  lemma PosixBracketOpenStep(caps: set<Capability>, s: string, pos: nat, m: Mode)
    requires pos + 1 < |s| && s[pos] == '[' && s[pos + 1] == ':'
    requires !m.quoted && m.bracket == Outside && m.depth > 0
    ensures Step(caps, s, pos, m).kind == BracketExpressionBegin <==> PosixBracketExpressions in caps
    ensures PosixBracketExpressions in caps ==>
      Step(caps, s, pos, m).length == 2 && Step(caps, s, pos, m).next.bracket == AtBracketOpen
  {
  }

  /** Without POSIX bracket expressions neither of their delimiters appears. */
  lemma {:induction false} BracketExpressionsNeedCapability(caps: set<Capability>, s: string, pos: nat, m: Mode)
    requires pos <= |s| && PosixBracketExpressions !in caps && m.bracket == Outside
    ensures Count(TokensFrom(caps, s, pos, m), BracketExpressionKinds) == 0
    decreases |s| - pos
  {
    if pos < |s| {
      var sc := Step(caps, s, pos, m);
      StepWithoutPosix(caps, s, pos, m);
      BracketExpressionsNeedCapability(caps, s, pos + sc.length, sc.next);
      CountZeroStep(caps, s, pos, m, BracketExpressionKinds);
    }
  }

  /**
   * The class depth is exactly the number of classes opened and not yet
   * closed: opening brackets plus the starting depth equal closing brackets
   * plus the final depth.
   */
  lemma {:induction false} DepthAccounting(caps: set<Capability>, s: string, pos: nat, m: Mode)
    requires pos <= |s|
    ensures Count(TokensFrom(caps, s, pos, m), {ClassBegin}) + m.depth
         == Count(TokensFrom(caps, s, pos, m), {ClassEnd}) + FinalMode(caps, s, pos, m).depth
    decreases |s| - pos
  {
    if pos < |s| {
      var sc := Step(caps, s, pos, m);
      DepthAccounting(caps, s, pos + sc.length, sc.next);
      DepthAccountingStep(caps, s, pos, m);
    }
  }

  /** The depth accounting after one scanner step carries over to the position before it. */
  lemma DepthAccountingStep(caps: set<Capability>, s: string, pos: nat, m: Mode)
    requires pos < |s|
    requires
      Count(TokensFrom(caps, s, pos + Step(caps, s, pos, m).length, Step(caps, s, pos, m).next), {ClassBegin})
        + Step(caps, s, pos, m).next.depth
      == Count(TokensFrom(caps, s, pos + Step(caps, s, pos, m).length, Step(caps, s, pos, m).next), {ClassEnd})
        + FinalMode(caps, s, pos + Step(caps, s, pos, m).length, Step(caps, s, pos, m).next).depth
    ensures Count(TokensFrom(caps, s, pos, m), {ClassBegin}) + m.depth
         == Count(TokensFrom(caps, s, pos, m), {ClassEnd}) + FinalMode(caps, s, pos, m).depth
  {
    FinalModeStep(caps, s, pos, m);
    BracketBalanceStep(caps, s, pos, m);
  }

  /** Scanning to the end from `pos` ends in the mode scanning on from after one step ends in. */
  lemma FinalModeStep(caps: set<Capability>, s: string, pos: nat, m: Mode)
    requires pos < |s|
    ensures FinalMode(caps, s, pos, m)
         == FinalMode(caps, s, pos + Step(caps, s, pos, m).length, Step(caps, s, pos, m).next)
  {
  }

  /** One scanner step changes the difference of opened and closed classes as it changes the depth. */
  lemma BracketBalanceStep(caps: set<Capability>, s: string, pos: nat, m: Mode)
    requires pos < |s|
    ensures Count(TokensFrom(caps, s, pos, m), {ClassBegin}) - Count(TokensFrom(caps, s, pos, m), {ClassEnd})
         == Count(TokensFrom(caps, s, pos + Step(caps, s, pos, m).length, Step(caps, s, pos, m).next), {ClassBegin})
          - Count(TokensFrom(caps, s, pos + Step(caps, s, pos, m).length, Step(caps, s, pos, m).next), {ClassEnd})
          + Step(caps, s, pos, m).next.depth - m.depth
  {
    StepDepth(caps, s, pos, m);
    CountFromStep(caps, s, pos, m, {ClassBegin});
    CountFromStep(caps, s, pos, m, {ClassEnd});
  }

  /** Without nested classes the depth never exceeds one. */
  lemma {:induction false} FlatDepth(caps: set<Capability>, s: string, pos: nat, m: Mode)
    requires pos <= |s| && NestedCharacterClasses !in caps && m.depth <= 1
    ensures FinalMode(caps, s, pos, m).depth <= 1
    decreases |s| - pos
  {
    if pos < |s| {
      var sc := Step(caps, s, pos, m);
      StepWithoutNesting(caps, s, pos, m);
      FlatDepth(caps, s, pos + sc.length, sc.next);
    }
  }

  /**
   * Class brackets of a whole pattern balance: no more closing than opening
   * brackets, equally many exactly when no class is left open, and without
   * nested classes at most one class left open.
   */
  lemma ClassesBalance(caps: set<Capability>, s: string)
    ensures Count(Tokens(caps, s), {ClassEnd}) <= Count(Tokens(caps, s), {ClassBegin})
    ensures Count(Tokens(caps, s), {ClassEnd}) == Count(Tokens(caps, s), {ClassBegin}) <==> FinalMode(caps, s, 0, Initial).depth == 0
    ensures NestedCharacterClasses !in caps ==> Count(Tokens(caps, s), {ClassBegin}) <= Count(Tokens(caps, s), {ClassEnd}) + 1
  {
    DepthAccounting(caps, s, 0, Initial);
    if NestedCharacterClasses !in caps {
      FlatDepth(caps, s, 0, Initial);
    }
  }

  /** Whether `t` has the shape of an octal escape: a backslash and then only octal digits. */
  predicate OctalShape(caps: set<Capability>, t: Token) {
    && 2 <= |t.text| && t.text[0] == '\\'
    && (forall k :: 1 <= k < |t.text| ==> IsOctalDigit(t.text[k]))
    && if OctalNoLeadingZero in caps then |t.text| <= 4
       else t.text[1] == '0' && 3 <= |t.text| <= 5
  }

  /**
   * Every octal token is a backslash followed by one to three octal digits
   * when a leading zero is optional, and by `0` and one to three more octal
   * digits when it is required.
   */
  lemma {:induction false} OctalTokensShape(caps: set<Capability>, s: string, pos: nat, m: Mode)
    requires pos <= |s|
    ensures forall i :: 0 <= i < |TokensFrom(caps, s, pos, m)| && TokensFrom(caps, s, pos, m)[i].kind == OctChar ==>
      OctalShape(caps, TokensFrom(caps, s, pos, m)[i])
    decreases |s| - pos
  {
    if pos < |s| {
      var sc := Step(caps, s, pos, m);
      var t := Token(sc.kind, s[pos..pos + sc.length]);
      var rest := TokensFrom(caps, s, pos + sc.length, sc.next);
      assert TokensFrom(caps, s, pos, m) == [t] + TokensFrom(caps, s, pos + sc.length, sc.next);
      OctalTokensShape(caps, s, pos + sc.length, sc.next);
      if sc.kind == OctChar {
        OctalStepShape(caps, s, pos, m);
      }
      var ts := [t] + rest;
      forall i | 0 <= i < |ts| && ts[i].kind == OctChar
        ensures OctalShape(caps, ts[i])
      {
        if i > 0 {
          assert ts[i] == rest[i - 1];
        }
      }
    }
  }

  /** One octal step has the octal-escape shape. */
  lemma OctalStepShape(caps: set<Capability>, s: string, pos: nat, m: Mode)
    requires pos < |s| && Step(caps, s, pos, m).kind == OctChar
    ensures OctalShape(caps, Token(OctChar, s[pos..pos + Step(caps, s, pos, m).length]))
  {
    var sc := Step(caps, s, pos, m);
    var text := s[pos..pos + sc.length];
    assert !m.quoted && m.bracket == Outside && s[pos] == '\\';
    if OctalNoLeadingZero in caps && IsOctalDigit(s[pos + 1]) {
      OctalRunDigits(s, pos + 1, 3);
    } else {
      OctalRunDigits(s, pos + 2, 3);
    }
    assert forall k :: 1 <= k < |text| ==> text[k] == s[pos + k];
  }
}
