/**
 * When an explicit primitive numeric cast such as `(long) i` is necessary,
 * as decided by the unnecessary-explicit-numeric-cast inspection: the
 * widening table, assignment conversion with constant-range checks, and the
 * necessity rule over the cast's syntactic parent.
 *
 * The syntax tree is abstracted: a cast is its type and its operand (type
 * and, when it is one, its `int` constant value); its ancestors are a list
 * of parent contexts, innermost first. The two answers the inspection gets
 * from other utilities (whether a surrounding method call needs the cast,
 * and the expected type) are parameters.
 */
module NumericCast {
  import opened Wrappers
  import opened JavaTypes

  /** A Java `int` value: a constant folded to an `Integer`. */
  type Int32 = x: int | -0x8000_0000 <= x < 0x8000_0000

  /** The operand of a cast: its type (absent when unresolved) and its `Integer` constant value, if any. */
  datatype Operand = Operand(typ: Option<JType>, intConstant: Option<Int32>)

  /** A cast expression: the type cast to and the operand, each of which may be missing. */
  datatype Cast = Cast(castType: Option<JType>, operand: Option<Operand>)

  /** One operand of a polyadic parent: whether the cast lies inside it, and its type. */
  datatype PolyOperand = PolyOperand(containsCast: bool, typ: Option<JType>)

  /** One syntactic ancestor of the cast. */
  datatype Parent =
    | Parenthesized
    | Polyadic(op: JavaToken, operands: seq<PolyOperand>, stringTyped: bool)
    | Assignment(lhsType: Option<JType>)
    | Variable(varType: JType)
    | OtherParent

  /** The operators under which binary numeric promotion applies (`binaryPromotionOperators`). */
  const BinaryPromotionOperators: set<JavaToken> :=
    {Asterisk, Div, Perc, Plus, Minus, Lt, Le, Gt, Ge, EqEq, Ne, And, Xor, Or}

  /** The shift operators, whose result type is that of the left operand alone. */
  const ShiftOperators: set<JavaToken> := {GtGt, GtGtGt, LtLt}

  /** Neither the shifts nor the conditional operators are promotion operators. */
  lemma PromotionOperatorsExcludeShifts()
    ensures BinaryPromotionOperators !! ShiftOperators
    ensures AndAnd !in BinaryPromotionOperators && OrOr !in BinaryPromotionOperators
  {
  }

  // ---------------------------------------------------------------------
  // Widening and narrowing

  /** The widening primitive conversions of section 5.1.2 of the Java Language Specification. */
  predicate Jls512Widening(from: Primitive, to: Primitive) {
    match from
    case Byte => to in {Short, Int, Long, Float, Double}
    case Short => to in {Int, Long, Float, Double}
    case Char => to in {Int, Long, Float, Double}
    case Int => to in {Long, Float, Double}
    case Long => to in {Float, Double}
    case Float => to == Double
    case _ => false
  }

  /**
   * The narrowing primitive conversions of section 5.1.3 of the Java Language
   * Specification, standing for `TypeUtils.isNarrowingConversion`; a class
   * type is never a narrowing target.
   */
  predicate IsNarrowing(from: Primitive, to: JType) {
    to.Prim? &&
    match from
    case Short => to.p in {Byte, Char}
    case Char => to.p in {Byte, Short}
    case Int => to.p in {Byte, Short, Char}
    case Long => to.p in {Byte, Short, Char, Int}
    case Float => to.p in {Byte, Short, Char, Int, Long}
    case Double => to.p in {Byte, Short, Char, Int, Long, Float}
    case _ => false
  }

  /** `isLegalWideningConversion`: the table of conversions into `double`, `float`, `long` and `int`. */
  predicate IsLegalWideningConversion(operandType: Option<JType>, requiredType: JType) {
    match requiredType
    case Prim(Double) => operandType in {Some(Prim(Float)), Some(Prim(Long)), Some(Prim(Int)), Some(Prim(Char)), Some(Prim(Short)), Some(Prim(Byte))}
    case Prim(Float) => operandType in {Some(Prim(Long)), Some(Prim(Int)), Some(Prim(Char)), Some(Prim(Short)), Some(Prim(Byte))}
    case Prim(Long) => operandType in {Some(Prim(Int)), Some(Prim(Char)), Some(Prim(Short)), Some(Prim(Byte))}
    case Prim(Int) => operandType in {Some(Prim(Char)), Some(Prim(Short)), Some(Prim(Byte))}
    case _ => false
  }

  /**
   * The table is exactly section 5.1.2 restricted to the targets `int`,
   * `long`, `float` and `double`: nothing widens into `short`, `char` or
   * `byte`, and nothing from or into a class type.
   */
  lemma WideningIsJls512(operandType: Option<JType>, requiredType: JType)
    ensures IsLegalWideningConversion(operandType, requiredType) <==>
      && operandType.Some? && operandType.value.Prim? && requiredType.Prim?
      && Jls512Widening(operandType.value.p, requiredType.p)
      && requiredType.p !in {Short, Char, Byte}
  {
  }

  /** No type widens to itself. */
  lemma WideningIrreflexive(t: JType)
    ensures !IsLegalWideningConversion(Some(t), t)
  {
  }

  /** Widening composes. */
  lemma WideningTransitive(a: JType, b: JType, c: JType)
    requires IsLegalWideningConversion(Some(a), b) && IsLegalWideningConversion(Some(b), c)
    ensures IsLegalWideningConversion(Some(a), c)
  {
  }

  /** A widening is never a narrowing. */
  lemma WideningNotNarrowing(p: Primitive, t: JType)
    requires IsLegalWideningConversion(Some(Prim(p)), t)
    ensures !IsNarrowing(p, t)
  {
  }

  // ---------------------------------------------------------------------
  // Assignment conversion

  /** `canValueBeContained`: an `int` operand whose constant value lies within the bounds. */
  predicate CanValueBeContained(operand: Operand, lower: int, upper: int) {
    && operand.typ == Some(Prim(Int))
    && operand.intConstant.Some?
    && lower <= operand.intConstant.value <= upper
  }

  /**
   * `isLegalAssignmentConversion` (section 5.2 of the Java Language
   * Specification): a widening, or a constant `int` narrowed into `short`,
   * `char` or `byte` whose value that type can hold.
   */
  predicate IsLegalAssignmentConversion(operand: Operand, assignmentType: JType) {
    if IsLegalWideningConversion(operand.typ, assignmentType) then true
    else if assignmentType == Prim(Short) then CanValueBeContained(operand, -32768, 32767)
    else if assignmentType == Prim(Char) then CanValueBeContained(operand, 0, 65535)
    else if assignmentType == Prim(Byte) then CanValueBeContained(operand, -128, 127)
    else false
  }

  /** The values of a narrow integral type: two's complement for `byte` and `short`, unsigned for `char`. */
  predicate Representable(v: int, p: Primitive) {
    match p
    case Byte => -Pow2(7) <= v < Pow2(7)
    case Short => -Pow2(15) <= v < Pow2(15)
    case Char => 0 <= v < Pow2(16)
    case _ => false
  }

  function Pow2(n: nat): (r: int)
    ensures r >= 1
  {
    if n == 0 then 1 else 2 * Pow2(n - 1)
  }

  /** The bounds `Short.MIN_VALUE` ... `Byte.MAX_VALUE` are the widths of the types. */
  lemma {:induction false} Pow2Values()
    ensures Pow2(7) == 128 && Pow2(15) == 32768 && Pow2(16) == 65536
  {
    assert Pow2(7) == 128 by {
      assert Pow2(1) == 2 && Pow2(2) == 4 && Pow2(3) == 8 && Pow2(4) == 16 && Pow2(5) == 32 && Pow2(6) == 64;
    }
    assert Pow2(15) == 32768 by {
      assert Pow2(8) == 256 && Pow2(9) == 512 && Pow2(10) == 1024 && Pow2(11) == 2048;
      assert Pow2(12) == 4096 && Pow2(13) == 8192 && Pow2(14) == 16384;
    }
  }

  /**
   * Assignment conversion is widening, or a constant `int` that the narrow
   * target type can represent; it never holds from a class type, nor into a
   * class type or `boolean`.
   */
  lemma AssignmentConversion(operand: Operand, t: JType)
    ensures IsLegalAssignmentConversion(operand, t) <==>
      || IsLegalWideningConversion(operand.typ, t)
      || (&& t.Prim? && t.p in {Byte, Short, Char}
          && operand.typ == Some(Prim(Int)) && operand.intConstant.Some?
          && Representable(operand.intConstant.value, t.p))
    ensures t.ClassType? || t == Prim(Boolean) ==> !IsLegalAssignmentConversion(operand, t)
  {
    Pow2Values();
  }

  /** A constant is not convertible when it is out of range: 128 fits no `byte`, but fits `short` and `char`. */
  lemma ByteRangeExample()
    ensures !IsLegalAssignmentConversion(Operand(Some(Prim(Int)), Some(128)), Prim(Byte))
    ensures IsLegalAssignmentConversion(Operand(Some(Prim(Int)), Some(128)), Prim(Short))
    ensures IsLegalAssignmentConversion(Operand(Some(Prim(Int)), Some(128)), Prim(Char))
    ensures !IsLegalAssignmentConversion(Operand(Some(Prim(Int)), Some(-1)), Prim(Char))
    ensures !IsLegalAssignmentConversion(Operand(Some(Prim(Int)), None), Prim(Short))
  {
  }

  // ---------------------------------------------------------------------
  // The necessity rule

  /** Every polyadic expression has at least two operands. */
  predicate ValidParents(parents: seq<Parent>) {
    forall k :: 0 <= k < |parents| && parents[k].Polyadic? ==> |parents[k].operands| >= 2
  }

  /** The position of the first ancestor that is not a parenthesis, `|parents|` if there is none. */
  function FirstNonParen(parents: seq<Parent>): (k: nat)
    ensures k <= |parents|
    ensures forall j :: 0 <= j < k ==> parents[j].Parenthesized?
    ensures k < |parents| ==> !parents[k].Parenthesized?
  {
    if parents == [] || !parents[0].Parenthesized? then 0 else 1 + FirstNonParen(parents[1..])
  }

  /** The context the cast is judged in: its nearest non-parenthesis ancestor. */
  function Context(parents: seq<Parent>): (c: Parent)
    ensures !c.Parenthesized?
  {
    var k := FirstNonParen(parents);
    if k < |parents| then parents[k] else OtherParent
  }

  /** The position of the first operand that contains the cast, `|operands|` if none does. */
  function FirstContaining(operands: seq<PolyOperand>): (k: nat)
    ensures k <= |operands|
    ensures forall j :: 0 <= j < k ==> !operands[j].containsCast
    ensures k < |operands| ==> operands[k].containsCast
  {
    if operands == [] || operands[0].containsCast then 0 else 1 + FirstContaining(operands[1..])
  }

  /**
   * A `long`, `float` or `double` cast inside an operand of a promoting
   * operator is unnecessary when the operation already has that type: when
   * the cast is in the first operand, because the second has the cast type;
   * otherwise because an operand before the cast has it.
   */
  predicate WideCastNecessary(operands: seq<PolyOperand>, castType: JType) {
    if operands != [] && operands[0].containsCast then
      !(|operands| >= 2 && !operands[1].containsCast && operands[1].typ == Some(castType))
    else
      !exists j :: 0 <= j < FirstContaining(operands) && operands[j].typ == Some(castType)
  }

  /** Necessity of a cast of a primitive operand under a binary promotion operator. */
  predicate PromotionCastNecessary(castType: JType, operandType: Primitive, operands: seq<PolyOperand>, stringTyped: bool) {
    if IsNarrowing(operandType, castType) then true
    else if castType == Prim(Int) then (operandType == Char && stringTyped) || operandType in {Long, Float, Double}
    else if castType in {Prim(Long), Prim(Float), Prim(Double)} then WideCastNecessary(operands, castType)
    else true
  }

  /** Whether the operand has a primitive type. */
  predicate HasPrimitiveType(operand: Operand) {
    operand.typ.Some? && operand.typ.value.Prim?
  }

  /**
   * `isPrimitiveNumericCastNecessary` as a rule: given the cast, its
   * ancestors, whether a surrounding method call needs the cast, and the
   * type expected at the cast's position.
   */
  predicate CastNecessary(cast: Cast, parents: seq<Parent>, necessaryForCall: bool, expectedType: Option<JType>)
    requires ValidParents(parents)
  {
    if cast.castType.None? || cast.operand.None? || !HasPrimitiveType(cast.operand.value) then true
    else
      var castType := cast.castType.value;
      var operand := cast.operand.value;
      match Context(parents)
      case Polyadic(op, operands, stringTyped) =>
        if op in BinaryPromotionOperators then
          PromotionCastNecessary(castType, operand.typ.value.p, operands, stringTyped)
        else if op in ShiftOperators then
          operands[0].containsCast && (castType == Prim(Long) || !IsLegalWideningConversion(operand.typ, Prim(Int)))
        else true
      case Assignment(lhsType) =>
        Some(castType) != lhsType || !IsLegalAssignmentConversion(operand, castType)
      case Variable(varType) =>
        castType != varType || !IsLegalAssignmentConversion(operand, varType)
      case _ =>
        necessaryForCall || Some(castType) != expectedType || !IsLegalWideningConversion(operand.typ, castType)
  }

  /**
   * `isPrimitiveNumericCastNecessary`: walks up past parentheses, then, under
   * a promoting operator and a `long`/`float`/`double` cast, scans the
   * operands for one that already has the cast type.
   */
  method IsPrimitiveNumericCastNecessary(cast: Cast, parents: seq<Parent>, necessaryForCall: bool, expectedType: Option<JType>)
    returns (necessary: bool)
    requires ValidParents(parents)
    ensures necessary == CastNecessary(cast, parents, necessaryForCall, expectedType)
  {
    if cast.castType.None? {
      return true;
    }
    var castType := cast.castType.value;
    if cast.operand.None? {
      return true;
    }
    var operand := cast.operand.value;
    if !HasPrimitiveType(operand) {
      return true;
    }
    var operandType := operand.typ.value.p;
    var k := 0;
    while k < |parents| && parents[k].Parenthesized?
      invariant k <= |parents|
      invariant forall j :: 0 <= j < k ==> parents[j].Parenthesized?
    {
      k := k + 1;
    }
    FirstNonParenUnique(parents, k);
    var parent := if k < |parents| then parents[k] else OtherParent;
    if parent.Polyadic? {
      var tokenType := parent.op;
      if tokenType in BinaryPromotionOperators {
        if IsNarrowing(operandType, castType) {
          return true;
        }
        if castType == Prim(Int) {
          if operandType == Char && parent.stringTyped {
            return true;
          }
          return operandType == Long || operandType == Float || operandType == Double;
        }
        if castType == Prim(Long) || castType == Prim(Float) || castType == Prim(Double) {
          necessary := ScanOperands(parent.operands, castType);
          return;
        }
      } else if tokenType == GtGt || tokenType == GtGtGt || tokenType == LtLt {
        if !parent.operands[0].containsCast {
          return false;
        }
        return castType == Prim(Long) || !IsLegalWideningConversion(operand.typ, Prim(Int));
      }
      return true;
    } else if parent.Assignment? {
      return Some(castType) != parent.lhsType || !IsLegalAssignmentConversion(operand, castType);
    } else if parent.Variable? {
      return castType != parent.varType || !IsLegalAssignmentConversion(operand, parent.varType);
    } else if necessaryForCall {
      return true;
    }
    return Some(castType) != expectedType || !IsLegalWideningConversion(operand.typ, castType);
  }

  /** The operand loop of `isPrimitiveNumericCastNecessary`, tracking where the cast was seen. */
  method ScanOperands(operands: seq<PolyOperand>, castType: JType) returns (necessary: bool)
    ensures necessary == WideCastNecessary(operands, castType)
  {
    var expressionIndex := -1;
    for i := 0 to |operands|
      invariant expressionIndex == (if i > 0 && operands[0].containsCast then 0 else -1)
      invariant expressionIndex == 0 ==> i <= 2
      invariant forall j :: 1 <= j < i ==> !operands[j].containsCast
      invariant forall j :: 0 <= j < i && !operands[j].containsCast ==> operands[j].typ != Some(castType)
    {
      if expressionIndex == 0 && i > 1 {
        return true;
      }
      if operands[i].containsCast {
        if i > 0 {
          if !operands[0].containsCast {
            FirstContainingAt(operands, i);
          }
          return true;
        } else {
          expressionIndex := i;
          continue;
        }
      }
      if Some(castType) == operands[i].typ {
        if !operands[0].containsCast {
          FirstContainingAfter(operands, i);
        }
        return false;
      }
    }
    if !(operands != [] && operands[0].containsCast) {
      FirstContainingAfter(operands, |operands|);
    }
    return true;
  }

  /** The first containing operand is the one at `i` when none before it contains the cast. */
  lemma FirstContainingAt(operands: seq<PolyOperand>, i: nat)
    requires i < |operands| && operands[i].containsCast
    requires forall j :: 0 <= j < i ==> !operands[j].containsCast
    ensures FirstContaining(operands) == i
  {
  }

  /** When none of the first `i` operands contains the cast, the first containing one is at `i` or later. */
  lemma FirstContainingAfter(operands: seq<PolyOperand>, i: nat)
    requires i <= |operands|
    requires forall j :: 0 <= j < i ==> !operands[j].containsCast
    ensures i <= FirstContaining(operands)
  {
  }

  /** The parenthesis walk stops at the first non-parenthesis ancestor. */
  lemma FirstNonParenUnique(parents: seq<Parent>, k: nat)
    requires k <= |parents|
    requires forall j :: 0 <= j < k ==> parents[j].Parenthesized?
    requires k < |parents| ==> !parents[k].Parenthesized?
    ensures FirstNonParen(parents) == k
  {
  }

  // ---------------------------------------------------------------------
  // Properties of the rule

  /** Parentheses around the cast change nothing. */
  lemma ParenthesesTransparent(cast: Cast, parents: seq<Parent>, necessaryForCall: bool, expectedType: Option<JType>)
    requires ValidParents(parents)
    ensures ValidParents([Parenthesized] + parents)
    ensures CastNecessary(cast, [Parenthesized] + parents, necessaryForCall, expectedType)
         == CastNecessary(cast, parents, necessaryForCall, expectedType)
  {
    assert ([Parenthesized] + parents)[1..] == parents;
  }

  /** A cast whose type or operand is missing, or whose operand is not primitive, is kept. */
  lemma UnknownCastsAreNecessary(cast: Cast, parents: seq<Parent>, necessaryForCall: bool, expectedType: Option<JType>)
    requires ValidParents(parents)
    requires cast.castType.None? || cast.operand.None? || !HasPrimitiveType(cast.operand.value)
    ensures CastNecessary(cast, parents, necessaryForCall, expectedType)
  {
  }

  /** Under a promoting operator, a narrowing cast is kept. */
  lemma NarrowingCastsAreNecessary(castType: JType, operand: Operand, parents: seq<Parent>, necessaryForCall: bool, expectedType: Option<JType>)
    requires ValidParents(parents) && HasPrimitiveType(operand)
    requires Context(parents).Polyadic? && Context(parents).op in BinaryPromotionOperators
    requires IsNarrowing(operand.typ.value.p, castType)
    ensures CastNecessary(Cast(Some(castType), Some(operand)), parents, necessaryForCall, expectedType)
  {
  }

  /**
   * Under a promoting operator, an `(int)` cast is necessary exactly when
   * the operand is `long`, `float` or `double`, or a `char` in an expression
   * of type `String` (where it selects numeric addition over concatenation).
   */
  lemma IntCastUnderPromotion(operand: Operand, parents: seq<Parent>, necessaryForCall: bool, expectedType: Option<JType>)
    requires ValidParents(parents) && HasPrimitiveType(operand)
    requires Context(parents).Polyadic? && Context(parents).op in BinaryPromotionOperators
    ensures CastNecessary(Cast(Some(Prim(Int)), Some(operand)), parents, necessaryForCall, expectedType) <==>
      || operand.typ.value.p in {Long, Float, Double}
      || (operand.typ.value.p == Char && Context(parents).stringTyped)
  {
  }

  /**
   * With the cast in exactly one operand at position `idx`, a
   * `long`/`float`/`double` cast is unnecessary, at `idx > 0`, exactly when
   * an earlier operand has the cast type, and at `idx == 0` exactly when the
   * second operand has it.
   */
  lemma WideCastPosition(operands: seq<PolyOperand>, castType: JType, idx: nat)
    requires idx < |operands| && operands[idx].containsCast
    requires forall j :: 0 <= j < |operands| && j != idx ==> !operands[j].containsCast
    ensures idx > 0 ==> (WideCastNecessary(operands, castType) <==>
      !exists j :: 0 <= j < idx && operands[j].typ == Some(castType))
    ensures idx == 0 ==> (WideCastNecessary(operands, castType) <==>
      !(|operands| >= 2 && operands[1].typ == Some(castType)))
  {
    if idx > 0 {
      FirstContainingAt(operands, idx);
    }
  }

  /**
   * Under a shift, a cast outside the left operand is unnecessary; in the
   * left operand it is necessary exactly when it is to `long` or the operand
   * does not widen to `int`.
   */
  lemma ShiftCasts(castType: JType, operand: Operand, parents: seq<Parent>, necessaryForCall: bool, expectedType: Option<JType>)
    requires ValidParents(parents) && HasPrimitiveType(operand)
    requires Context(parents).Polyadic? && Context(parents).op in ShiftOperators
    ensures CastNecessary(Cast(Some(castType), Some(operand)), parents, necessaryForCall, expectedType) <==>
      Context(parents).operands[0].containsCast &&
      (castType == Prim(Long) || !IsLegalWideningConversion(operand.typ, Prim(Int)))
  {
    PromotionOperatorsExcludeShifts();
  }

  /**
   * Directly under an assignment or a variable initializer, a cast is
   * unnecessary exactly when it casts to the target type and the operand is
   * assignment-convertible to that type anyway.
   */
  lemma AssignmentCasts(castType: JType, operand: Operand, parents: seq<Parent>, necessaryForCall: bool, expectedType: Option<JType>)
    requires ValidParents(parents) && HasPrimitiveType(operand)
    requires Context(parents).Assignment? || Context(parents).Variable?
    ensures !CastNecessary(Cast(Some(castType), Some(operand)), parents, necessaryForCall, expectedType) <==>
      && (if Context(parents).Assignment? then Context(parents).lhsType == Some(castType) else Context(parents).varType == castType)
      && IsLegalAssignmentConversion(operand, castType)
  {
  }

  /** `long x = (long) 1;` is flagged: the cast is unnecessary, and stays so under parentheses. */
  lemma LongInitializerExample()
    ensures !CastNecessary(Cast(Some(Prim(Long)), Some(Operand(Some(Prim(Int)), Some(1)))), [Parenthesized, Variable(Prim(Long))], false, None)
  {
    assert FirstNonParen([Parenthesized, Variable(Prim(Long))]) == 1 by {
      assert [Parenthesized, Variable(Prim(Long))][1..] == [Variable(Prim(Long))];
    }
  }
}
