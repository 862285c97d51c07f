/**
 * A model of the regular-expression lexer whose behaviour RegExpLexerTest fixes.
 *
 * The scanner keeps a cursor into its buffer and a small mode: the depth of
 * character-class nesting, where inside the innermost class it stands (just
 * after `[`, just after `[^`, or further in), whether it is inside a POSIX
 * bracket expression `[:name:]`, and whether it is inside a `\Q...\E` quote.
 * `Step` is the specification of one scanning step; `Lexer.Advance` carries
 * it out on mutable state and is proved to agree with it.
 */
module RegExpLexer {
  import opened Wrappers

  /** The capability flags a lexer instance is constructed with. */
  datatype Capability =
    | NestedCharacterClasses
    | PosixBracketExpressions
    | OctalNoLeadingZero
    | TransformationEscapes

  /** The closed set of token kinds the tests observe. */
  datatype TokenKind =
    | Character              // CHARACTER
    | EscCharacter           // ESC_CHARACTER
    | ClassBegin             // CLASS_BEGIN
    | ClassEnd               // CLASS_END
    | BracketExpressionBegin // BRACKET_EXPRESSION_BEGIN
    | BracketExpressionEnd   // BRACKET_EXPRESSION_END
    | Caret                  // CARET
    | Minus                  // MINUS
    | Dollar                 // DOLLAR
    | AndAnd                 // ANDAND
    | QuoteBegin             // QUOTE_BEGIN
    | QuoteEnd               // QUOTE_END
    | Name                   // NAME
    | OctChar                // OCT_CHAR
    | Backref                // BACKREF
    | BadOctValue            // BAD_OCT_VALUE
    | RedundantEscape        // REDUNDANT_ESCAPE
    | InvalidCharacterEscape // INVALID_CHARACTER_ESCAPE_TOKEN
    | InvalidUnicodeEscape   // INVALID_UNICODE_ESCAPE_TOKEN
    | CharClass              // CHAR_CLASS

  /** One emitted token: its kind and the exact text it consumed. */
  datatype Token = Token(kind: TokenKind, text: string)

  /** Where the scanner stands inside the innermost character class. */
  datatype ClassPosition = AtOpen | AtNegation | InBody

  /** Where the scanner stands with respect to a POSIX bracket expression. */
  datatype BracketPosition = Outside | AtBracketOpen | InBracket

  /** The scanner's mode between two tokens. */
  datatype Mode = Mode(depth: nat, classPos: ClassPosition, bracket: BracketPosition, quoted: bool)

  /** The mode a fresh scan starts in. */
  const Initial: Mode := Mode(0, InBody, Outside, false)

  /** The outcome of one scanning step: the token kind, how many characters it takes, and the next mode. */
  datatype Scan = Scan(kind: TokenKind, length: nat, next: Mode)

  predicate IsOctalDigit(c: char) { '0' <= c <= '7' }

  predicate IsDigit(c: char) { '0' <= c <= '9' }

  predicate IsLetter(c: char) { 'a' <= c <= 'z' || 'A' <= c <= 'Z' }

  /** Whether `s` holds `c` at index `i`. */
  predicate LookingAt(s: string, i: nat, c: char) { i < |s| && s[i] == c }

  /** The length of the run of octal digits starting at `i`, cut off at `max`. */
  function OctalRun(s: string, i: nat, max: nat): (n: nat)
    requires i <= |s|
    ensures n <= max && i + n <= |s|
    decreases max
  {
    if max == 0 || i == |s| || !IsOctalDigit(s[i]) then 0 else 1 + OctalRun(s, i + 1, max - 1)
  }

  /** The length of the maximal run of ASCII letters starting at `i`. */
  function LetterRun(s: string, i: nat): (n: nat)
    requires i <= |s|
    ensures i + n <= |s|
    decreases |s| - i
  {
    if i == |s| || !IsLetter(s[i]) then 0 else 1 + LetterRun(s, i + 1)
  }

  /** An octal run is a maximal run of octal digits, up to `max`. */
  lemma {:induction false} OctalRunDigits(s: string, i: nat, max: nat)
    requires i <= |s|
    ensures forall k :: i <= k < i + OctalRun(s, i, max) ==> IsOctalDigit(s[k])
    ensures var n := OctalRun(s, i, max); n < max && i + n < |s| ==> !IsOctalDigit(s[i + n])
    decreases max
  {
    if max > 0 && i < |s| && IsOctalDigit(s[i]) {
      OctalRunDigits(s, i + 1, max - 1);
    }
  }

  /** A letter run is a maximal run of ASCII letters. */
  lemma {:induction false} LetterRunLetters(s: string, i: nat)
    requires i <= |s|
    ensures forall k :: i <= k < i + LetterRun(s, i) ==> IsLetter(s[k])
    ensures i + LetterRun(s, i) < |s| ==> !IsLetter(s[i + LetterRun(s, i)])
    decreases |s| - i
  {
    if i < |s| && IsLetter(s[i]) {
      LetterRunLetters(s, i + 1);
    }
  }

  /**
   * The number of octal digits after `\0` when a leading zero is required:
   * `\0n`, `\0nn`, or `\0mnn` with `m` at most 3.
   */
  function LeadingZeroOctalDigits(s: string, i: nat): (n: nat)
    requires i <= |s|
    ensures n <= 3 && i + n <= |s|
    ensures n == 0 <==> i == |s| || !IsOctalDigit(s[i])
    ensures n == 3 ==> s[i] <= '3'
  {
    var k := OctalRun(s, i, 3);
    if k == 3 && s[i] > '3' then 2 else k
  }

  /** One step inside a `\Q...\E` quote: everything is a character until `\E`. */
  function QuotedScan(s: string, pos: nat, m: Mode): Scan
    requires pos < |s|
  {
    if s[pos] == '\\' && LookingAt(s, pos + 1, 'E') then Scan(QuoteEnd, 2, m.(quoted := false))
    else Scan(Character, 1, m)
  }

  /** One step inside a POSIX bracket expression. */
  function BracketScan(s: string, pos: nat, m: Mode): Scan
    requires pos < |s|
  {
    var c := s[pos];
    if c == ':' && LookingAt(s, pos + 1, ']') then Scan(BracketExpressionEnd, 2, m.(bracket := Outside))
    else if c == '^' && m.bracket == AtBracketOpen then Scan(Caret, 1, m.(bracket := InBracket))
    else if IsLetter(c) then Scan(Name, LetterRun(s, pos), m.(bracket := InBracket))
    else Scan(Character, 1, m.(bracket := InBracket))
  }

  /** One step at a backslash outside quotes and bracket expressions. */
  function EscapeScan(caps: set<Capability>, s: string, pos: nat, m: Mode): (r: Scan)
    requires pos < |s| && s[pos] == '\\'
    ensures 1 <= r.length && pos + r.length <= |s|
    ensures r.next == m.(classPos := InBody, quoted := m.quoted || r.kind == QuoteBegin)
  {
    var after := m.(classPos := InBody);
    if pos + 1 == |s| then Scan(InvalidCharacterEscape, 1, after)
    else
      var c := s[pos + 1];
      if c == 'Q' then Scan(QuoteBegin, 2, after.(quoted := true))
      else if OctalNoLeadingZero in caps && IsOctalDigit(c) then Scan(OctChar, 1 + OctalRun(s, pos + 1, 3), after)
      else if c == '0' then
        var k := LeadingZeroOctalDigits(s, pos + 2);
        if k == 0 then Scan(BadOctValue, 2, after) else Scan(OctChar, 2 + k, after)
      else if IsDigit(c) then Scan(if m.depth > 0 then RedundantEscape else Backref, 2, after)
      else if c == 'U' || c == 'L' || c == 'l' || c == 'E' then
        Scan(if TransformationEscapes in caps then CharClass else InvalidCharacterEscape, 2, after)
      else if c == 'u' then
        Scan(if TransformationEscapes in caps then CharClass else InvalidUnicodeEscape, 2, after)
      else Scan(EscCharacter, 2, after)
  }

  /** One step inside a character class at a character other than a backslash. */
  function ClassScan(caps: set<Capability>, s: string, pos: nat, m: Mode): Scan
    requires pos < |s| && m.depth > 0
  {
    var c := s[pos];
    var body := m.(classPos := InBody);
    if c == '^' && m.classPos == AtOpen then Scan(Caret, 1, m.(classPos := AtNegation))
    else if c == ']' && m.classPos != InBody then Scan(Character, 1, body)
    else if c == '[' && PosixBracketExpressions in caps && LookingAt(s, pos + 1, ':') then
      Scan(BracketExpressionBegin, 2, body.(bracket := AtBracketOpen))
    else if c == '[' && NestedCharacterClasses in caps then Scan(ClassBegin, 1, m.(depth := m.depth + 1, classPos := AtOpen))
    else if c == ']' then Scan(ClassEnd, 1, body.(depth := m.depth - 1))
    else if c == '&' && NestedCharacterClasses in caps && LookingAt(s, pos + 1, '&') then Scan(AndAnd, 2, body)
    else if c == '-' then Scan(Minus, 1, body)
    else Scan(Character, 1, body)
  }

  /** One step outside any character class at a character other than a backslash. */
  function OuterScan(s: string, pos: nat, m: Mode): Scan
    requires pos < |s|
  {
    var c := s[pos];
    if c == '[' then Scan(ClassBegin, 1, m.(depth := 1, classPos := AtOpen))
    else if c == '^' then Scan(Caret, 1, m)
    else if c == '$' then Scan(Dollar, 1, m)
    else Scan(Character, 1, m)
  }

  /** The specification of one scanning step from offset `pos` in mode `m`. */
  function Step(caps: set<Capability>, s: string, pos: nat, m: Mode): (r: Scan)
    requires pos < |s|
    ensures 1 <= r.length && pos + r.length <= |s|
  {
    if m.quoted then QuotedScan(s, pos, m)
    else if m.bracket != Outside then BracketScan(s, pos, m)
    else if s[pos] == '\\' then EscapeScan(caps, s, pos, m)
    else if m.depth > 0 then ClassScan(caps, s, pos, m)
    else OuterScan(s, pos, m)
  }

  /** The tokens scanned from offset `pos` in mode `m` up to the end of `s`. */
  function TokensFrom(caps: set<Capability>, s: string, pos: nat, m: Mode): seq<Token>
    requires pos <= |s|
    decreases |s| - pos
  {
    if pos == |s| then []
    else
      var sc := Step(caps, s, pos, m);
      [Token(sc.kind, s[pos..pos + sc.length])] + TokensFrom(caps, s, pos + sc.length, sc.next)
  }

  /** The token stream a fresh lexer produces for `s`. */
  function Tokens(caps: set<Capability>, s: string): seq<Token> {
    TokensFrom(caps, s, 0, Initial)
  }

  /** The concatenation of the token texts, in order. */
  function Concat(ts: seq<Token>): string {
    if ts == [] then [] else ts[0].text + Concat(ts[1..])
  }

  /**
   * A lexer instance: a fixed capability set, a buffer, a cursor and the mode,
   * advanced one token at a time.
   */
  class Lexer {
    const capabilities: set<Capability>
    var buffer: string
    var position: nat
    var depth: nat
    var classPos: ClassPosition
    var bracket: BracketPosition
    var quoted: bool

    /** The mode held in the fields. */
    function State(): Mode
      reads this
    {
      Mode(depth, classPos, bracket, quoted)
    }

    predicate Valid()
      reads this
    {
      position <= |buffer|
    }

    constructor (capabilities: set<Capability>)
      ensures Valid() && this.capabilities == capabilities
      ensures buffer == [] && position == 0 && State() == Initial
    {
      this.capabilities := capabilities;
      buffer := [];
      position := 0;
      depth, classPos, bracket, quoted := 0, InBody, Outside, false;
    }

    /** Restarts the lexer on `text` from offset 0 in the initial mode. */
    method Start(text: string)
      modifies this
      ensures Valid() && buffer == text && position == 0 && State() == Initial
    {
      buffer := text;
      position := 0;
      depth, classPos, bracket, quoted := 0, InBody, Outside, false;
    }

    /**
     * Consumes the next token, or returns None at the end of the buffer.
     * The token and the new cursor and mode are those of `Step`.
     */
    method Advance() returns (token: Option<Token>)
      requires Valid()
      modifies this
      ensures Valid() && buffer == old(buffer)
      ensures old(position) == |buffer| ==> token == None && position == old(position) && State() == old(State())
      ensures old(position) < |buffer| ==>
        var sc := Step(capabilities, buffer, old(position), old(State()));
        && position == old(position) + sc.length
        && token == Some(Token(sc.kind, buffer[old(position)..position]))
        && State() == sc.next
    {
      if position == |buffer| {
        return None;
      }
      var start := position;
      var c := buffer[start];
      var kind: TokenKind;
      if quoted {
        if c == '\\' && start + 1 < |buffer| && buffer[start + 1] == 'E' {
          kind, position, quoted := QuoteEnd, start + 2, false;
        } else {
          kind, position := Character, start + 1;
        }
      } else if bracket != Outside {
        if c == ':' && start + 1 < |buffer| && buffer[start + 1] == ']' {
          kind, position, bracket := BracketExpressionEnd, start + 2, Outside;
        } else if c == '^' && bracket == AtBracketOpen {
          kind, position, bracket := Caret, start + 1, InBracket;
        } else if IsLetter(c) {
          var n := ScanLetters(buffer, start);
          kind, position, bracket := Name, start + n, InBracket;
        } else {
          kind, position, bracket := Character, start + 1, InBracket;
        }
      } else if c == '\\' {
        var n;
        kind, n := ScanEscape(capabilities, buffer, start, State());
        position, classPos := start + n, InBody;
        if kind == QuoteBegin {
          quoted := true;
        }
      } else if depth > 0 {
        kind := AdvanceInClass(start);
      } else {
        if c == '[' {
          kind, depth, classPos := ClassBegin, 1, AtOpen;
        } else if c == '^' {
          kind := Caret;
        } else if c == '$' {
          kind := Dollar;
        } else {
          kind := Character;
        }
        position := start + 1;
      }
      token := Some(Token(kind, buffer[start..position]));
    }

    /** Scans one token inside a character class at a character other than a backslash. */
    method AdvanceInClass(start: nat) returns (kind: TokenKind)
      requires Valid() && start == position < |buffer| && buffer[start] != '\\'
      requires !quoted && bracket == Outside && depth > 0
      modifies this
      ensures Valid() && buffer == old(buffer)
      ensures
        var sc := ClassScan(capabilities, buffer, start, old(State()));
        kind == sc.kind && position == start + sc.length && State() == sc.next
    {
      var c := buffer[start];
      if c == '^' && classPos == AtOpen {
        kind, classPos := Caret, AtNegation;
      } else if c == ']' && classPos != InBody {
        kind, classPos := Character, InBody;
      } else if c == '[' && PosixBracketExpressions in capabilities && start + 1 < |buffer| && buffer[start + 1] == ':' {
        kind, classPos, bracket := BracketExpressionBegin, InBody, AtBracketOpen;
        position := start + 1;
      } else if c == '[' && NestedCharacterClasses in capabilities {
        kind, depth, classPos := ClassBegin, depth + 1, AtOpen;
      } else if c == ']' {
        kind, depth, classPos := ClassEnd, depth - 1, InBody;
      } else if c == '&' && NestedCharacterClasses in capabilities && start + 1 < |buffer| && buffer[start + 1] == '&' {
        kind, classPos := AndAnd, InBody;
        position := start + 1;
      } else if c == '-' {
        kind, classPos := Minus, InBody;
      } else {
        kind, classPos := Character, InBody;
      }
      position := position + 1;
    }
  }

  /**
   * Scans the escape starting at the backslash at `start` with the lexer in
   * mode `m`, giving the token kind and the number of characters it takes.
   */
  method ScanEscape(caps: set<Capability>, s: string, start: nat, m: Mode) returns (kind: TokenKind, length: nat)
    requires start < |s| && s[start] == '\\'
    ensures kind == EscapeScan(caps, s, start, m).kind && length == EscapeScan(caps, s, start, m).length
  {
    if start + 1 == |s| {
      return InvalidCharacterEscape, 1;
    }
    var c := s[start + 1];
    if c == 'Q' {
      kind, length := QuoteBegin, 2;
    } else if OctalNoLeadingZero in caps && IsOctalDigit(c) {
      var n := ScanOctalDigits(s, start + 1, 3);
      kind, length := OctChar, 1 + n;
    } else if c == '0' {
      var k := ScanOctalDigits(s, start + 2, 3);
      if k == 3 && s[start + 2] > '3' {
        k := 2;
      }
      if k == 0 {
        kind, length := BadOctValue, 2;
      } else {
        kind, length := OctChar, 2 + k;
      }
    } else if IsDigit(c) {
      kind, length := if m.depth > 0 then RedundantEscape else Backref, 2;
    } else if c == 'U' || c == 'L' || c == 'l' || c == 'E' {
      kind, length := if TransformationEscapes in caps then CharClass else InvalidCharacterEscape, 2;
    } else if c == 'u' {
      kind, length := if TransformationEscapes in caps then CharClass else InvalidUnicodeEscape, 2;
    } else {
      kind, length := EscCharacter, 2;
    }
  }

  /** Counts the octal digits from `i` on, at most `max` of them. */
  method ScanOctalDigits(s: string, i: nat, max: nat) returns (n: nat)
    requires i <= |s|
    ensures n == OctalRun(s, i, max)
  {
    n := 0;
    while i + n < |s| && n < max && IsOctalDigit(s[i + n])
      invariant n <= max && i + n <= |s|
      invariant n + OctalRun(s, i + n, max - n) == OctalRun(s, i, max)
    {
      n := n + 1;
    }
  }

  /** Counts the letters of the name starting at `i`. */
  method ScanLetters(s: string, i: nat) returns (n: nat)
    requires i <= |s|
    ensures n == LetterRun(s, i)
  {
    n := 0;
    while i + n < |s| && IsLetter(s[i + n])
      invariant i + n <= |s|
      invariant n + LetterRun(s, i + n) == LetterRun(s, i)
    {
      n := n + 1;
    }
  }

  /**
   * Takes the next token from `lexer` and appends it to `tokens`; `done`
   * reports that the lexer was already at the end. The scanned prefix followed
   * by what remains to be scanned is the same stream before and after.
   */
  method Pull(lexer: Lexer, tokens: seq<Token>) returns (more: seq<Token>, done: bool)
    requires lexer.Valid()
    modifies lexer
    ensures lexer.Valid() && lexer.buffer == old(lexer.buffer)
    ensures done == (old(lexer.position) == |lexer.buffer|)
    ensures done ==> lexer.position == |lexer.buffer|
    ensures !done ==> old(lexer.position) < lexer.position
    ensures more + TokensFrom(lexer.capabilities, lexer.buffer, lexer.position, lexer.State())
      == tokens + TokensFrom(lexer.capabilities, lexer.buffer, old(lexer.position), old(lexer.State()))
  {
    ghost var pos, mode := lexer.position, lexer.State();
    var t := lexer.Advance();
    if t == None {
      return tokens, true;
    }
    ghost var rest := TokensFrom(lexer.capabilities, lexer.buffer, lexer.position, lexer.State());
    assert TokensFrom(lexer.capabilities, lexer.buffer, pos, mode) == [t.value] + rest;
    more, done := tokens + [t.value], false;
    assert more + rest == tokens + ([t.value] + rest);
  }

  /**
   * The driver the tests use: start a lexer on `text` and collect tokens until
   * it reports the end. The result is the specified token stream, and it is
   * lossless.
   */
  method Tokenize(capabilities: set<Capability>, text: string) returns (tokens: seq<Token>)
    ensures tokens == Tokens(capabilities, text)
    ensures Concat(tokens) == text
  {
    var lexer := new Lexer(capabilities);
    lexer.Start(text);
    tokens := [];
    while true
      invariant lexer.Valid() && lexer.buffer == text && lexer.capabilities == capabilities
      invariant tokens + TokensFrom(capabilities, text, lexer.position, lexer.State()) == Tokens(capabilities, text)
      decreases |text| - lexer.position
    {
      var done;
      tokens, done := Pull(lexer, tokens);
      if done {
        break;
      }
    }
    assert TokensFrom(capabilities, text, lexer.position, lexer.State()) == [];
    assert tokens + [] == tokens;
    TokensLossless(capabilities, text);
  }

  /** Concatenation distributes over sequence concatenation. */
  lemma {:induction false} ConcatAppend(a: seq<Token>, b: seq<Token>)
    ensures Concat(a + b) == Concat(a) + Concat(b)
    decreases |a|
  {
    if a == [] {
      assert a + b == b;
    } else {
      assert (a + b)[1..] == a[1..] + b;
      ConcatAppend(a[1..], b);
    }
  }

  /** The text of a token stream that starts with `t`. */
  lemma ConcatCons(t: Token, rest: seq<Token>)
    ensures Concat([t] + rest) == t.text + Concat(rest)
  {
    assert ([t] + rest)[1..] == rest;
  }

  /** Every character from `pos` on lands in exactly one token, in order. */
  lemma {:induction false} TokensFromLossless(caps: set<Capability>, s: string, pos: nat, m: Mode)
    requires pos <= |s|
    ensures Concat(TokensFrom(caps, s, pos, m)) == s[pos..]
    decreases |s| - pos
  {
    if pos < |s| {
      var sc := Step(caps, s, pos, m);
      var n := sc.length;
      var t := Token(sc.kind, s[pos..pos + n]);
      var rest := TokensFrom(caps, s, pos + n, sc.next);
      assert TokensFrom(caps, s, pos, m) == [t] + rest;
      TokensFromLossless(caps, s, pos + n, sc.next);
      ConcatCons(t, rest);
      assert s[pos..] == s[pos..pos + n] + s[pos + n..];
    }
  }

  /** Lossless tokenization: the token texts reproduce the input exactly. */
  lemma TokensLossless(caps: set<Capability>, s: string)
    ensures Concat(Tokens(caps, s)) == s
  {
    TokensFromLossless(caps, s, 0, Initial);
  }

  /** Re-lexing the concatenated token texts gives the same token stream. */
  lemma RelexIdempotent(caps: set<Capability>, s: string)
    ensures Tokens(caps, Concat(Tokens(caps, s))) == Tokens(caps, s)
  {
    TokensLossless(caps, s);
  }

  /** Every token consumes at least one character. */
  lemma {:induction false} TokensNonEmpty(caps: set<Capability>, s: string, pos: nat, m: Mode)
    requires pos <= |s|
    ensures forall i :: 0 <= i < |TokensFrom(caps, s, pos, m)| ==> TokensFrom(caps, s, pos, m)[i].text != []
    decreases |s| - pos
  {
    if pos < |s| {
      var sc := Step(caps, s, pos, m);
      var rest := TokensFrom(caps, s, pos + sc.length, sc.next);
      TokensNonEmpty(caps, s, pos + sc.length, sc.next);
      var ts := [Token(sc.kind, s[pos..pos + sc.length])] + rest;
      assert TokensFrom(caps, s, pos, m) == ts;
      forall i | 0 <= i < |ts|
        ensures ts[i].text != []
      {
        if i > 0 {
          assert ts[i] == rest[i - 1];
        }
      }
    }
  }
}
