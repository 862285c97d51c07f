/**
 * The associative-reduction handler of the stream-migration inspection: a
 * registry of associative operations (operators per type, member methods per
 * class, static methods per return type, each with its identity element and
 * whether it is idempotent), the operator tables, and the decision whether an
 * assignment `acc = acc op e` (or `acc op= e`, or a call of a registered
 * method) is a reduction into the accumulator `acc`.
 */
module ReduceHandling {
  import opened Wrappers
  import opened JavaTypes
  import opened JavaTree

  /** `Pair<String, Boolean>`: the identity element's source text (empty when there is none) and idempotence. */
  datatype OpData = OpData(identity: string, idempotent: bool)

  /** Operators per type name, as in `associativeOperators`. */
  type OperatorTable = map<string, map<JavaToken, OpData>>

  /** Methods per class or return-type name, as in `associativeMemberOperations` and `associativeStaticOperations`. */
  type MethodTable = map<string, map<string, OpData>>

  /** The entry under `k` then `l` of a two-level table, if both keys are present. */
  function Lookup<K(==), L(==), V>(m: map<K, map<L, V>>, k: K, l: L): (r: Option<V>)
    ensures r.Some? <==> k in m && l in m[k]
  {
    if k in m && l in m[k] then Some(m[k][l]) else None
  }

  /**
   * Insert-or-create into a two-level table: the inner table under `k` is
   * created when absent, then its entry `l` is set to `v`, overwriting any
   * earlier one.
   */
  function Put<K(==), L(==), V>(m: map<K, map<L, V>>, k: K, l: L, v: V): (r: map<K, map<L, V>>)
  {
    m[k := (if k in m then m[k] else map[])[l := v]]
  }

  /**
   * After a `Put`, the new entry is found, every other entry of the same
   * inner table and every other inner table is unchanged, and exactly the
   * one key `k` (and `l` under it) may have been added.
   */
  lemma PutSpec<K, L, V>(m: map<K, map<L, V>>, k: K, l: L, v: V, k': K, l': L)
    ensures Put(m, k, l, v).Keys == m.Keys + {k}
    ensures Put(m, k, l, v)[k].Keys == (if k in m then m[k].Keys else {}) + {l}
    ensures Lookup(Put(m, k, l, v), k', l') == if k' == k && l' == l then Some(v) else Lookup(m, k', l')
  {
  }

  /** A primitive registration stores one entry under both the box class name and the keyword. */
  lemma PrimitiveRegistrationBothNames(m: OperatorTable, p: Primitive, t: JavaToken, d: OpData)
    ensures Lookup(Put(Put(m, BoxedName(p), t, d), Keyword(p), t, d), BoxedName(p), t) == Some(d)
    ensures Lookup(Put(Put(m, BoxedName(p), t, d), Keyword(p), t, d), Keyword(p), t) == Some(d)
  {
    assert BoxedName(p) != Keyword(p) by {
      assert |BoxedName(p)| > 9 && |Keyword(p)| < 9;
    }
  }

  /** The key of a static method: the qualified class name, a dot, and the method name. */
  function StaticKey(clazz: string, methodName: string): string {
    clazz + "." + methodName
  }

  /** Both registrations a primitive type gets: under the box class name, then under the keyword. */
  function PutPrimitive(m: OperatorTable, p: Primitive, t: JavaToken, identity: string, idempotent: bool): OperatorTable {
    Put(Put(m, BoxedName(p), t, OpData(identity, idempotent)), Keyword(p), t, OpData(identity, idempotent))
  }

  /** The `boolean` operators of the static initializer. */
  function WithBooleanOperators(m: OperatorTable): OperatorTable {
    var m := PutPrimitive(m, Boolean, And, "true", true);
    var m := PutPrimitive(m, Boolean, Or, "false", true);
    var m := PutPrimitive(m, Boolean, AndAnd, "true", false);
    PutPrimitive(m, Boolean, OrOr, "false", true)
  }

  /** The `int` operators. */
  function WithIntOperators(m: OperatorTable): OperatorTable {
    var m := PutPrimitive(m, Int, Plus, "0", false);
    var m := PutPrimitive(m, Int, Asterisk, "1", false);
    var m := PutPrimitive(m, Int, And, "", true);
    var m := PutPrimitive(m, Int, Or, "0", true);
    PutPrimitive(m, Int, Xor, "", false)
  }

  /** The `long` operators. */
  function WithLongOperators(m: OperatorTable): OperatorTable {
    var m := PutPrimitive(m, Long, Plus, "0", false);
    var m := PutPrimitive(m, Long, Asterisk, "1", false);
    var m := PutPrimitive(m, Long, And, "", true);
    var m := PutPrimitive(m, Long, Or, "0L", true);
    PutPrimitive(m, Long, Xor, "", false)
  }

  /** The `float`, `double` and `String` operators. */
  function WithFloatingAndStringOperators(m: OperatorTable): OperatorTable {
    var m := PutPrimitive(m, Float, Plus, "0F", false);
    var m := PutPrimitive(m, Float, Asterisk, "1F", false);
    var m := PutPrimitive(m, Double, Plus, "0D", false);
    var m := PutPrimitive(m, Double, Asterisk, "1D", false);
    Put(m, JavaLangString, Plus, OpData("\"\"", false))
  }

  /** The operator table the static initializer builds (the `char`, `byte` and `short` block is commented out there). */
  function StaticOperators(): OperatorTable {
    WithFloatingAndStringOperators(WithLongOperators(WithIntOperators(WithBooleanOperators(map[]))))
  }

  /** The member operations of `String` and `BigDecimal`. */
  function WithStringAndBigDecimalMembers(m: MethodTable): MethodTable {
    var m := Put(m, JavaLangString, "concat", OpData("\"\"", false));
    var m := Put(m, "java.math.BigDecimal", "add", OpData("java.math.BigDecimal.ZERO", false));
    var m := Put(m, "java.math.BigDecimal", "min", OpData("", true));
    var m := Put(m, "java.math.BigDecimal", "max", OpData("", true));
    Put(m, "java.math.BigDecimal", "multiply", OpData("java.math.BigDecimal.ONE", false))
  }

  /** The member operations of `BigInteger` and the two `Duration` classes. */
  function WithBigIntegerAndDurationMembers(m: MethodTable): MethodTable {
    var m := Put(m, "java.math.BigInteger", "add", OpData("java.math.BigInteger.ZERO", false));
    var m := Put(m, "java.math.BigInteger", "and", OpData("", true));
    var m := Put(m, "java.math.BigInteger", "min", OpData("", true));
    var m := Put(m, "java.math.BigInteger", "max", OpData("", true));
    var m := Put(m, "java.math.BigInteger", "multiply", OpData("java.math.BigInteger.ONE", false));
    var m := Put(m, "java.math.BigInteger", "or", OpData("java.math.BigInteger.ZERO", true));
    var m := Put(m, "java.math.BigInteger", "xor", OpData("", false));
    var m := Put(m, "java.time.Duration", "plus", OpData("java.time.Duration.ZERO", false));
    Put(m, "javax.xml.datatype.Duration", "add", OpData("", false))
  }

  /** The member-operation table the static initializer builds. */
  function StaticMembers(): MethodTable {
    WithBigIntegerAndDurationMembers(WithStringAndBigDecimalMembers(map[]))
  }

  /** The static operations of `Boolean`, `Double` and `Float`. */
  function WithBooleanAndFloatingStatics(m: MethodTable): MethodTable {
    var m := Put(m, "boolean", StaticKey("java.lang.Boolean", "logicalAnd"), OpData("true", true));
    var m := Put(m, "boolean", StaticKey("java.lang.Boolean", "logicalOr"), OpData("false", true));
    var m := Put(m, "boolean", StaticKey("java.lang.Boolean", "logicalXor"), OpData("", false));
    var m := Put(m, "double", StaticKey("java.lang.Double", "max"), OpData("", true));
    var m := Put(m, "double", StaticKey("java.lang.Double", "min"), OpData("", true));
    var m := Put(m, "double", StaticKey("java.lang.Double", "sum"), OpData("0D", false));
    var m := Put(m, "float", StaticKey("java.lang.Float", "max"), OpData("", true));
    var m := Put(m, "float", StaticKey("java.lang.Float", "min"), OpData("", true));
    Put(m, "float", StaticKey("java.lang.Float", "sum"), OpData("0F", false))
  }

  /** The static operations of `Integer` and `Long`. */
  function WithIntegralStatics(m: MethodTable): MethodTable {
    var m := Put(m, "int", StaticKey("java.lang.Integer", "max"), OpData("", true));
    var m := Put(m, "int", StaticKey("java.lang.Integer", "min"), OpData("", true));
    var m := Put(m, "int", StaticKey("java.lang.Integer", "sum"), OpData("0", false));
    var m := Put(m, "long", StaticKey("java.lang.Long", "max"), OpData("", true));
    var m := Put(m, "long", StaticKey("java.lang.Long", "min"), OpData("", true));
    Put(m, "long", StaticKey("java.lang.Long", "sum"), OpData("0L", false))
  }

  /** The `Math` operations as the static initializer registers them: `min` for `long` twice and never for `int`. */
  function WithMathStaticsAsWritten(m: MethodTable): MethodTable {
    var m := Put(m, "double", StaticKey("java.lang.Math", "max"), OpData("", true));
    var m := Put(m, "float", StaticKey("java.lang.Math", "max"), OpData("", true));
    var m := Put(m, "int", StaticKey("java.lang.Math", "max"), OpData("", true));
    var m := Put(m, "long", StaticKey("java.lang.Math", "max"), OpData("", true));
    var m := Put(m, "double", StaticKey("java.lang.Math", "min"), OpData("", true));
    var m := Put(m, "float", StaticKey("java.lang.Math", "min"), OpData("", true));
    var m := Put(m, "long", StaticKey("java.lang.Math", "min"), OpData("", true));
    Put(m, "long", StaticKey("java.lang.Math", "min"), OpData("", true))
  }

  /** The `Math` operations with the last registration for `int`, as the pattern of the block intends. */
  function WithMathStatics(m: MethodTable): MethodTable {
    var m := Put(m, "double", StaticKey("java.lang.Math", "max"), OpData("", true));
    var m := Put(m, "float", StaticKey("java.lang.Math", "max"), OpData("", true));
    var m := Put(m, "int", StaticKey("java.lang.Math", "max"), OpData("", true));
    var m := Put(m, "long", StaticKey("java.lang.Math", "max"), OpData("", true));
    var m := Put(m, "double", StaticKey("java.lang.Math", "min"), OpData("", true));
    var m := Put(m, "float", StaticKey("java.lang.Math", "min"), OpData("", true));
    var m := Put(m, "long", StaticKey("java.lang.Math", "min"), OpData("", true));
    Put(m, "int", StaticKey("java.lang.Math", "min"), OpData("", true))
  }

  /** The static-operation table as the static initializer builds it. */
  function StaticStaticsAsWritten(): MethodTable {
    WithMathStaticsAsWritten(WithIntegralStatics(WithBooleanAndFloatingStatics(map[])))
  }

  /** The static-operation table with `Math.min` registered for `int`. */
  function StaticStatics(): MethodTable {
    WithMathStatics(WithIntegralStatics(WithBooleanAndFloatingStatics(map[])))
  }

  /** `mapAssignOperator`: the operator of the five compound assignments that have an associative form. */
  function MapAssignOperator(t: JavaToken): Option<JavaToken> {
    if t == AndEq then Some(And)
    else if t == AsteriskEq then Some(Asterisk)
    else if t == OrEq then Some(Or)
    else if t == PlusEq then Some(Plus)
    else if t == XorEq then Some(Xor)
    else None
  }

  /** `operatorToString`: the spelling of the seven operators the registry can hold. */
  function OperatorToString(t: JavaToken): Option<string> {
    if t == And then Some("&")
    else if t == AndAnd then Some("&&")
    else if t == Asterisk then Some("*")
    else if t == Or then Some("|")
    else if t == OrOr then Some("||")
    else if t == Plus then Some("+")
    else if t == Xor then Some("^")
    else None
  }

  /** How each operator token is written in Java source (empty for `OtherToken`). */
  function Spelling(t: JavaToken): string {
    match t
    case Asterisk => "*" case Div => "/" case Perc => "%" case Plus => "+" case Minus => "-"
    case Lt => "<" case Le => "<=" case Gt => ">" case Ge => ">=" case EqEq => "==" case Ne => "!="
    case And => "&" case Xor => "^" case Or => "|" case AndAnd => "&&" case OrOr => "||"
    case GtGt => ">>" case GtGtGt => ">>>" case LtLt => "<<"
    case Excl => "!" case Tilde => "~" case Eq => "="
    case AndEq => "&=" case AsteriskEq => "*=" case OrEq => "|=" case PlusEq => "+=" case XorEq => "^="
    case MinusEq => "-=" case DivEq => "/=" case PercEq => "%="
    case LtLtEq => "<<=" case GtGtEq => ">>=" case GtGtGtEq => ">>>="
    case OtherToken => ""
  }

  /**
   * `isTypeAllowedForReduce`: a value of type `t` may be reduced into an
   * accumulator of type `accType` (a missing type is never allowed).
   */
  predicate IsTypeAllowedForReduce(accType: JType, t: Option<JType>) {
    (t.Some? && t.value.Prim? && Unboxed(accType) == Some(t.value.p)) || t == Some(accType)
  }

  /** The format of an operator reduction; Java renders a missing spelling as `null`. */
  function OperatorFormat(op: JavaToken): string {
    "%s " + OperatorToString(op).GetOr("null") + " %s"
  }

  /**
   * `getAssociativeOperation`: the identity and idempotence of a method, from
   * the registry when it is listed there, and otherwise from its
   * `Associative` annotation when its return type is immutable.
   */
  function AssociativeOperation(members: MethodTable, statics: MethodTable, m: MethodDecl): Option<OpData> {
    if m.declaringClass.None? || m.declaringClass.value.qualifiedName.None? then None
    else
      var qname := m.declaringClass.value.qualifiedName.value;
      if m.isStatic && (|m.paramTypes| != 2 || m.returnType.None?) then None
      else if !m.isStatic && (|m.paramTypes| != 1 || !EqualsToText(m.paramTypes[0], qname)
                              || m.returnType.None? || !EqualsToText(m.returnType.value, qname)) then None
      else
        var registered :=
          if m.isStatic then Lookup(statics, CanonicalText(m.returnType.value), StaticKey(qname, m.name))
          else Lookup(members, qname, m.name);
        if registered.Some? then registered
        else if !m.facts.returnTypeImmutable && !(m.returnType.value.ClassType? && m.facts.returnClassAnnotatedImmutable) then None
        else match m.facts.associative
          case None => None
          case Some(a) => Some(OpData(a.identity, a.idempotent))
  }

  /** `ReductionData`: what `getReductionAccumulator` reports. */
  datatype ReductionData = ReductionData(accumulator: Var, expression: Expr, operatorData: OpData, format: string, reversed: bool)

  /** The two operands, the operation data and the format found for an assignment, before the accumulator side is decided. */
  datatype Candidate = Candidate(expr1: Expr, expr2: Expr, opData: OpData, format: string)

  /** The candidate of an assignment whose right side is a method call. */
  function CallCandidate(members: MethodTable, statics: MethodTable, accType: JType, call: Expr): Outcome<Option<Candidate>>
    requires call.Call?
  {
    match call.target
    case None => Returned(None)
    case Some(m) =>
      if m.declaringClass.None? then Returned(None)
      else if m.returnType.None? || !IsTypeAllowedForReduce(accType, m.returnType) then Returned(None)
      else if |m.paramTypes| == 0 then Returned(None)
      else if !IsTypeAllowedForReduce(accType, Some(m.paramTypes[0])) then Returned(None)
      else if m.isStatic && (|m.paramTypes| != 2 || !IsTypeAllowedForReduce(accType, Some(m.paramTypes[1]))) then Returned(None)
      else if !m.isStatic && |m.paramTypes| != 1 then Returned(None)
      else if |call.args| < |m.paramTypes| then Thrown(IndexOutOfBounds)
      else
        var expr1 := if m.isStatic then StripParens(Some(call.args[0])) else StripParens(call.qualifier);
        var expr2 := if m.isStatic then StripParens(Some(call.args[1])) else StripParens(Some(call.args[0]));
        if expr1.None? || !IsTypeAllowedForReduce(accType, expr1.value.typ) then Returned(None)
        else if expr2.None? || !IsTypeAllowedForReduce(accType, expr2.value.typ) then Returned(None)
        else match AssociativeOperation(members, statics, m)
          case None => Returned(None)
          case Some(d) =>
            var format :=
              if m.isStatic then m.declaringClass.value.qualifiedName.GetOr("null") + "." + m.name + "(%s, %s)"
              else "%s." + m.name + "(%s)";
            Returned(Some(Candidate(expr1.value, expr2.value, d, format)))
  }

  /** The operands and operation of an assignment into an accumulator of type `accType`, by its three accepted shapes. */
  function AssignmentCandidate(ops: OperatorTable, members: MethodTable, statics: MethodTable, accType: JType, assignment: Expr)
    : Outcome<Option<Candidate>>
    requires assignment.Assign?
  {
    var typeText := CanonicalText(accType);
    match MapAssignOperator(assignment.op)
    case Some(op) =>
      if Lookup(ops, typeText, op).None? then Returned(None)
      else if assignment.rhs.None? || !IsTypeAllowedForReduce(accType, assignment.rhs.value.typ) then Returned(None)
      else Returned(Some(Candidate(assignment.lhs, assignment.rhs.value, Lookup(ops, typeText, op).value, OperatorFormat(op))))
    case None =>
      if assignment.op != Eq || assignment.rhs.None? then Returned(None)
      else
        var rhs := assignment.rhs.value;
        if rhs.Binary? then
          if Lookup(ops, typeText, rhs.op).None? then Returned(None)
          else if !IsTypeAllowedForReduce(accType, rhs.lhs.typ) then Returned(None)
          else if rhs.rhs.None? || !IsTypeAllowedForReduce(accType, rhs.rhs.value.typ) then Returned(None)
          else Returned(Some(Candidate(rhs.lhs, rhs.rhs.value, Lookup(ops, typeText, rhs.op).value, OperatorFormat(rhs.op))))
        else if rhs.Call? then CallCandidate(members, statics, accType, rhs)
        else Returned(None)
  }

  /**
   * The accumulator side of a candidate: an operation without identity must
   * be idempotent, and exactly one operand must be a reference to the
   * accumulator; the other one is the reduced expression.
   */
  function Accumulate(acc: Var, c: Candidate): Option<ReductionData> {
    if c.opData.identity == "" && !c.opData.idempotent then None
    else
      var ref1 := IsReferenceTo(Some(c.expr1), acc);
      var ref2 := IsReferenceTo(Some(c.expr2), acc);
      if ref1 && !ref2 then Some(ReductionData(acc, c.expr2, c.opData, c.format, false))
      else if ref2 && !ref1 then Some(ReductionData(acc, c.expr1, c.opData, c.format, true))
      else None
  }

  /** `getReductionAccumulator`, as a function of the three registry tables. */
  function Reduction(ops: OperatorTable, members: MethodTable, statics: MethodTable, assignment: Expr): Outcome<Option<ReductionData>>
    requires assignment.Assign?
  {
    if !assignment.lhs.Ref? then Returned(None)
    else match ResolveVariable(Some(assignment.lhs))
      case None => Returned(None)
      case Some(acc) =>
        match AssignmentCandidate(ops, members, statics, acc.typ, assignment)
        case Thrown(e) => Thrown(e)
        case Returned(None) => Returned(None)
        case Returned(Some(c)) => Returned(Accumulate(acc, c))
  }

  /** The registry of associative operations, filled by the class's static initializer. */
  class Registry {
    var associativeOperators: OperatorTable
    var associativeMemberOperations: MethodTable
    var associativeStaticOperations: MethodTable

    /** `addAssociativeOperator(String, ...)`. */
    method AddAssociativeOperator(clazz: string, tokenType: JavaToken, identity: string, idempotent: bool)
      modifies this
      ensures associativeOperators == Put(old(associativeOperators), clazz, tokenType, OpData(identity, idempotent))
      ensures associativeMemberOperations == old(associativeMemberOperations)
      ensures associativeStaticOperations == old(associativeStaticOperations)
    {
      var operations: map<JavaToken, OpData>;
      if clazz in associativeOperators {
        operations := associativeOperators[clazz];
      } else {
        operations := map[];
        associativeOperators := associativeOperators[clazz := operations];
      }
      operations := operations[tokenType := OpData(identity, idempotent)];
      associativeOperators := associativeOperators[clazz := operations];
    }

    /** `addAssociativeOperator(PsiPrimitiveType, ...)`: under the box class name, then under the keyword. */
    method AddPrimitiveOperator(p: Primitive, tokenType: JavaToken, identity: string, idempotent: bool)
      modifies this
      ensures associativeOperators ==
        Put(Put(old(associativeOperators), BoxedName(p), tokenType, OpData(identity, idempotent)),
            Keyword(p), tokenType, OpData(identity, idempotent))
      ensures associativeMemberOperations == old(associativeMemberOperations)
      ensures associativeStaticOperations == old(associativeStaticOperations)
    {
      AddAssociativeOperator(BoxedName(p), tokenType, identity, idempotent);
      AddAssociativeOperator(Keyword(p), tokenType, identity, idempotent);
    }

    /** `addAssociativeMember`. */
    method AddAssociativeMember(clazz: string, methodName: string, identity: string, idempotent: bool)
      modifies this
      ensures associativeMemberOperations == Put(old(associativeMemberOperations), clazz, methodName, OpData(identity, idempotent))
      ensures associativeOperators == old(associativeOperators)
      ensures associativeStaticOperations == old(associativeStaticOperations)
    {
      var operations: map<string, OpData>;
      if clazz in associativeMemberOperations {
        operations := associativeMemberOperations[clazz];
      } else {
        operations := map[];
        associativeMemberOperations := associativeMemberOperations[clazz := operations];
      }
      operations := operations[methodName := OpData(identity, idempotent)];
      associativeMemberOperations := associativeMemberOperations[clazz := operations];
    }

    /** `addAssociativeStatic`: keyed by return type, then by `clazz.method`. */
    method AddAssociativeStatic(typeName: string, clazz: string, methodName: string, identity: string, idempotent: bool)
      modifies this
      ensures associativeStaticOperations ==
        Put(old(associativeStaticOperations), typeName, StaticKey(clazz, methodName), OpData(identity, idempotent))
      ensures associativeOperators == old(associativeOperators)
      ensures associativeMemberOperations == old(associativeMemberOperations)
    {
      var operations: map<string, OpData>;
      if typeName in associativeStaticOperations {
        operations := associativeStaticOperations[typeName];
      } else {
        operations := map[];
        associativeStaticOperations := associativeStaticOperations[typeName := operations];
      }
      operations := operations[clazz + "." + methodName := OpData(identity, idempotent)];
      associativeStaticOperations := associativeStaticOperations[typeName := operations];
    }

    /**
     * `getReductionAccumulator`: the accumulator, reduced expression,
     * operation and format of an assignment that reduces into a variable,
     * or nothing when the assignment is not such a reduction.
     */
    method GetReductionAccumulator(assignment: Expr) returns (result: Outcome<Option<ReductionData>>)
      requires assignment.Assign?
      ensures result == Reduction(associativeOperators, associativeMemberOperations, associativeStaticOperations, assignment)
    {
      if !assignment.lhs.Ref? { return Returned(None); }
      var resolved := ResolveVariable(Some(assignment.lhs));
      if resolved.None? { return Returned(None); }
      var accumulator := resolved.value;
      var typ := accumulator.typ;

      var expr1: Expr, expr2: Expr;
      var opData: OpData;
      var format := "";

      var op := MapAssignOperator(assignment.op);
      if op.Some? {
        var found := Lookup(associativeOperators, CanonicalText(typ), op.value);
        if found.None? { return Returned(None); }
        opData := found.value;
        expr1 := assignment.lhs;
        if assignment.rhs.None? || !IsTypeAllowedForReduce(typ, assignment.rhs.value.typ) { return Returned(None); }
        expr2 := assignment.rhs.value;
        format := OperatorFormat(op.value);
      } else if assignment.op == Eq && assignment.rhs.Some? && assignment.rhs.value.Binary? {
        var binOp := assignment.rhs.value;
        var found := Lookup(associativeOperators, CanonicalText(typ), binOp.op);
        if found.None? { return Returned(None); }
        opData := found.value;
        expr1 := binOp.lhs;
        if !IsTypeAllowedForReduce(typ, expr1.typ) { return Returned(None); }
        if binOp.rhs.None? || !IsTypeAllowedForReduce(typ, binOp.rhs.value.typ) { return Returned(None); }
        expr2 := binOp.rhs.value;
        format := OperatorFormat(binOp.op);
      } else if assignment.op == Eq && assignment.rhs.Some? && assignment.rhs.value.Call? {
        var mce := assignment.rhs.value;
        if mce.target.None? { return Returned(None); }
        var target := mce.target.value;
        if target.declaringClass.None? { return Returned(None); }
        if target.returnType.None? || !IsTypeAllowedForReduce(typ, target.returnType) { return Returned(None); }
        if |target.paramTypes| == 0 { return Returned(None); }
        if !IsTypeAllowedForReduce(typ, Some(target.paramTypes[0])) { return Returned(None); }
        var stripped1, stripped2;
        if target.isStatic {
          if |target.paramTypes| != 2 { return Returned(None); }
          if !IsTypeAllowedForReduce(typ, Some(target.paramTypes[1])) { return Returned(None); }
          if |mce.args| < 2 { return Thrown(IndexOutOfBounds); }
          stripped1 := StripParens(Some(mce.args[0]));
          stripped2 := StripParens(Some(mce.args[1]));
        } else {
          if |target.paramTypes| != 1 { return Returned(None); }
          stripped1 := StripParens(mce.qualifier);
          if |mce.args| < 1 { return Thrown(IndexOutOfBounds); }
          stripped2 := StripParens(Some(mce.args[0]));
        }
        if stripped1.None? || !IsTypeAllowedForReduce(typ, stripped1.value.typ) { return Returned(None); }
        if stripped2.None? || !IsTypeAllowedForReduce(typ, stripped2.value.typ) { return Returned(None); }
        expr1, expr2 := stripped1.value, stripped2.value;
        var found := AssociativeOperation(associativeMemberOperations, associativeStaticOperations, target);
        if found.None? { return Returned(None); }
        opData := found.value;
        if target.isStatic {
          format := target.declaringClass.value.qualifiedName.GetOr("null") + "." + target.name + "(%s, %s)";
        } else {
          format := "%s." + target.name + "(%s)";
        }
      } else {
        return Returned(None);
      }

      // Without an identity the operation must be idempotent.
      if opData.identity == "" && !opData.idempotent { return Returned(None); }

      var reversed: bool;
      var returnExpr: Expr;
      var ref1 := IsReferenceTo(Some(expr1), accumulator);
      var ref2 := IsReferenceTo(Some(expr2), accumulator);
      if ref1 && !ref2 {
        reversed := false;
        returnExpr := expr2;
      } else if ref2 && !ref1 {
        reversed := true;
        returnExpr := expr1;
      } else {
        return Returned(None);
      }
      return Returned(Some(ReductionData(accumulator, returnExpr, opData, format, reversed)));
    }

    /** The `boolean` block of the static initializer. */
    method RegisterBooleanOperators()
      modifies this
      ensures associativeOperators == WithBooleanOperators(old(associativeOperators))
      ensures associativeMemberOperations == old(associativeMemberOperations)
      ensures associativeStaticOperations == old(associativeStaticOperations)
    {
      AddPrimitiveOperator(Boolean, And, "true", true);
      AddPrimitiveOperator(Boolean, Or, "false", true);
      AddPrimitiveOperator(Boolean, AndAnd, "true", false);
      AddPrimitiveOperator(Boolean, OrOr, "false", true);
    }

    /** The `int` block. */
    method RegisterIntOperators()
      modifies this
      ensures associativeOperators == WithIntOperators(old(associativeOperators))
      ensures associativeMemberOperations == old(associativeMemberOperations)
      ensures associativeStaticOperations == old(associativeStaticOperations)
    {
      AddPrimitiveOperator(Int, Plus, "0", false);
      AddPrimitiveOperator(Int, Asterisk, "1", false);
      AddPrimitiveOperator(Int, And, "", true);
      AddPrimitiveOperator(Int, Or, "0", true);
      AddPrimitiveOperator(Int, Xor, "", false);
    }

    /** The `long` block. */
    method RegisterLongOperators()
      modifies this
      ensures associativeOperators == WithLongOperators(old(associativeOperators))
      ensures associativeMemberOperations == old(associativeMemberOperations)
      ensures associativeStaticOperations == old(associativeStaticOperations)
    {
      AddPrimitiveOperator(Long, Plus, "0", false);
      AddPrimitiveOperator(Long, Asterisk, "1", false);
      AddPrimitiveOperator(Long, And, "", true);
      AddPrimitiveOperator(Long, Or, "0L", true);
      AddPrimitiveOperator(Long, Xor, "", false);
    }

    /** The `float`, `double` and `String` blocks. */
    method RegisterFloatingAndStringOperators()
      modifies this
      ensures associativeOperators == WithFloatingAndStringOperators(old(associativeOperators))
      ensures associativeMemberOperations == old(associativeMemberOperations)
      ensures associativeStaticOperations == old(associativeStaticOperations)
    {
      AddPrimitiveOperator(Float, Plus, "0F", false);
      AddPrimitiveOperator(Float, Asterisk, "1F", false);
      AddPrimitiveOperator(Double, Plus, "0D", false);
      AddPrimitiveOperator(Double, Asterisk, "1D", false);
      AddAssociativeOperator(JavaLangString, Plus, "\"\"", false);
    }

    /** The first member operations. */
    method RegisterStringAndBigDecimalMembers()
      modifies this
      ensures associativeMemberOperations == WithStringAndBigDecimalMembers(old(associativeMemberOperations))
      ensures associativeOperators == old(associativeOperators)
      ensures associativeStaticOperations == old(associativeStaticOperations)
    {
      AddAssociativeMember(JavaLangString, "concat", "\"\"", false);
      AddAssociativeMember("java.math.BigDecimal", "add", "java.math.BigDecimal.ZERO", false);
      AddAssociativeMember("java.math.BigDecimal", "min", "", true);
      AddAssociativeMember("java.math.BigDecimal", "max", "", true);
      AddAssociativeMember("java.math.BigDecimal", "multiply", "java.math.BigDecimal.ONE", false);
    }

    /** The remaining member operations. */
    method RegisterBigIntegerAndDurationMembers()
      modifies this
      ensures associativeMemberOperations == WithBigIntegerAndDurationMembers(old(associativeMemberOperations))
      ensures associativeOperators == old(associativeOperators)
      ensures associativeStaticOperations == old(associativeStaticOperations)
    {
      AddAssociativeMember("java.math.BigInteger", "add", "java.math.BigInteger.ZERO", false);
      AddAssociativeMember("java.math.BigInteger", "and", "", true);
      AddAssociativeMember("java.math.BigInteger", "min", "", true);
      AddAssociativeMember("java.math.BigInteger", "max", "", true);
      AddAssociativeMember("java.math.BigInteger", "multiply", "java.math.BigInteger.ONE", false);
      AddAssociativeMember("java.math.BigInteger", "or", "java.math.BigInteger.ZERO", true);
      AddAssociativeMember("java.math.BigInteger", "xor", "", false);
      AddAssociativeMember("java.time.Duration", "plus", "java.time.Duration.ZERO", false);
      AddAssociativeMember("javax.xml.datatype.Duration", "add", "", false);
    }

    /** The static operations of `Boolean`, `Double` and `Float`. */
    method RegisterBooleanAndFloatingStatics()
      modifies this
      ensures associativeStaticOperations == WithBooleanAndFloatingStatics(old(associativeStaticOperations))
      ensures associativeOperators == old(associativeOperators)
      ensures associativeMemberOperations == old(associativeMemberOperations)
    {
      AddAssociativeStatic("boolean", "java.lang.Boolean", "logicalAnd", "true", true);
      AddAssociativeStatic("boolean", "java.lang.Boolean", "logicalOr", "false", true);
      AddAssociativeStatic("boolean", "java.lang.Boolean", "logicalXor", "", false);
      AddAssociativeStatic("double", "java.lang.Double", "max", "", true);
      AddAssociativeStatic("double", "java.lang.Double", "min", "", true);
      AddAssociativeStatic("double", "java.lang.Double", "sum", "0D", false);
      AddAssociativeStatic("float", "java.lang.Float", "max", "", true);
      AddAssociativeStatic("float", "java.lang.Float", "min", "", true);
      AddAssociativeStatic("float", "java.lang.Float", "sum", "0F", false);
    }

    /** The static operations of `Integer` and `Long`. */
    method RegisterIntegralStatics()
      modifies this
      ensures associativeStaticOperations == WithIntegralStatics(old(associativeStaticOperations))
      ensures associativeOperators == old(associativeOperators)
      ensures associativeMemberOperations == old(associativeMemberOperations)
    {
      AddAssociativeStatic("int", "java.lang.Integer", "max", "", true);
      AddAssociativeStatic("int", "java.lang.Integer", "min", "", true);
      AddAssociativeStatic("int", "java.lang.Integer", "sum", "0", false);
      AddAssociativeStatic("long", "java.lang.Long", "max", "", true);
      AddAssociativeStatic("long", "java.lang.Long", "min", "", true);
      AddAssociativeStatic("long", "java.lang.Long", "sum", "0L", false);
    }

    /** The `Math` operations as written. */
    method RegisterMathStaticsAsWritten()
      modifies this
      ensures associativeStaticOperations == WithMathStaticsAsWritten(old(associativeStaticOperations))
      ensures associativeOperators == old(associativeOperators)
      ensures associativeMemberOperations == old(associativeMemberOperations)
    {
      AddAssociativeStatic("double", "java.lang.Math", "max", "", true);
      AddAssociativeStatic("float", "java.lang.Math", "max", "", true);
      AddAssociativeStatic("int", "java.lang.Math", "max", "", true);
      AddAssociativeStatic("long", "java.lang.Math", "max", "", true);
      AddAssociativeStatic("double", "java.lang.Math", "min", "", true);
      AddAssociativeStatic("float", "java.lang.Math", "min", "", true);
      AddAssociativeStatic("long", "java.lang.Math", "min", "", true);
      AddAssociativeStatic("long", "java.lang.Math", "min", "", true);
    }

    /** The `Math` operations with `min` registered for `int`. */
    method RegisterMathStatics()
      modifies this
      ensures associativeStaticOperations == WithMathStatics(old(associativeStaticOperations))
      ensures associativeOperators == old(associativeOperators)
      ensures associativeMemberOperations == old(associativeMemberOperations)
    {
      AddAssociativeStatic("double", "java.lang.Math", "max", "", true);
      AddAssociativeStatic("float", "java.lang.Math", "max", "", true);
      AddAssociativeStatic("int", "java.lang.Math", "max", "", true);
      AddAssociativeStatic("long", "java.lang.Math", "max", "", true);
      AddAssociativeStatic("double", "java.lang.Math", "min", "", true);
      AddAssociativeStatic("float", "java.lang.Math", "min", "", true);
      AddAssociativeStatic("long", "java.lang.Math", "min", "", true);
      AddAssociativeStatic("int", "java.lang.Math", "min", "", true);
    }

    /** The operator blocks of the static initializer, in order, applied to the table `start`. */
    method RegisterOperators(ghost start: OperatorTable)
      requires associativeOperators == start
      modifies this
      ensures associativeOperators ==
        WithFloatingAndStringOperators(WithLongOperators(WithIntOperators(WithBooleanOperators(start))))
      ensures associativeMemberOperations == old(associativeMemberOperations)
      ensures associativeStaticOperations == old(associativeStaticOperations)
    {
      RegisterBooleanOperators();
      RegisterIntOperators();
      RegisterLongOperators();
      RegisterFloatingAndStringOperators();
    }

    /** The member-operation block, applied to the table `start`. */
    method RegisterMembers(ghost start: MethodTable)
      requires associativeMemberOperations == start
      modifies this
      ensures associativeMemberOperations ==
        WithBigIntegerAndDurationMembers(WithStringAndBigDecimalMembers(start))
      ensures associativeOperators == old(associativeOperators)
      ensures associativeStaticOperations == old(associativeStaticOperations)
    {
      RegisterStringAndBigDecimalMembers();
      RegisterBigIntegerAndDurationMembers();
    }

    /** The static-operation block, with `Math.min` registered for `int`. */
    method RegisterStatics(ghost start: MethodTable)
      requires associativeStaticOperations == start
      modifies this
      ensures associativeStaticOperations ==
        WithMathStatics(WithIntegralStatics(WithBooleanAndFloatingStatics(start)))
      ensures associativeOperators == old(associativeOperators)
      ensures associativeMemberOperations == old(associativeMemberOperations)
    {
      RegisterBooleanAndFloatingStatics();
      RegisterIntegralStatics();
      RegisterMathStatics();
    }

    /** The static-operation block as written. */
    method RegisterStaticsAsWritten(ghost start: MethodTable)
      requires associativeStaticOperations == start
      modifies this
      ensures associativeStaticOperations ==
        WithMathStaticsAsWritten(WithIntegralStatics(WithBooleanAndFloatingStatics(start)))
      ensures associativeOperators == old(associativeOperators)
      ensures associativeMemberOperations == old(associativeMemberOperations)
    {
      RegisterBooleanAndFloatingStatics();
      RegisterIntegralStatics();
      RegisterMathStaticsAsWritten();
    }

    /** The static initializer, with `Math.min` registered for `int`. */
    constructor ()
      ensures associativeOperators == StaticOperators()
      ensures associativeMemberOperations == StaticMembers()
      ensures associativeStaticOperations == StaticStatics()
    {
      associativeOperators, associativeMemberOperations, associativeStaticOperations := map[], map[], map[];
      new;
      RegisterOperators(map[]);
      RegisterMembers(map[]);
      RegisterStatics(map[]);
    }

    /** The static initializer as written, which never registers `Math.min` for `int`. */
    constructor AsWritten()
      ensures associativeOperators == StaticOperators()
      ensures associativeMemberOperations == StaticMembers()
      ensures associativeStaticOperations == StaticStaticsAsWritten()
    {
      associativeOperators, associativeMemberOperations, associativeStaticOperations := map[], map[], map[];
      new;
      RegisterOperators(map[]);
      RegisterMembers(map[]);
      RegisterStaticsAsWritten(map[]);
    }
  }

  // ---------------------------------------------------------------------
  // The operator mappings.
  // ---------------------------------------------------------------------

  /** Exactly the five compound assignments `&= *= |= += ^=` map, each to the operator it is spelled from. */
  lemma MapAssignOperatorSpec(t: JavaToken)
    ensures MapAssignOperator(t).Some? <==> t in {AndEq, AsteriskEq, OrEq, PlusEq, XorEq}
    ensures MapAssignOperator(t).Some? ==> Spelling(t) == Spelling(MapAssignOperator(t).value) + "="
  {
  }

  /** Exactly the seven operators `& && * | || + ^` have a spelling, and it is their Java spelling. */
  lemma OperatorToStringSpec(t: JavaToken)
    ensures OperatorToString(t).Some? <==> t in {And, AndAnd, Asterisk, Or, OrOr, Plus, Xor}
    ensures OperatorToString(t).Some? ==> OperatorToString(t).value == Spelling(t)
  {
  }

  /** Distinct operators have distinct spellings. */
  lemma OperatorToStringInjective(a: JavaToken, b: JavaToken)
    requires OperatorToString(a).Some? && OperatorToString(a) == OperatorToString(b)
    ensures a == b
  {
  }

  /** Every operator a compound assignment maps to can be written back into a format. */
  lemma CompoundOperatorsSpelled(t: JavaToken)
    requires MapAssignOperator(t).Some?
    ensures OperatorToString(MapAssignOperator(t).value).Some?
    ensures OperatorFormat(MapAssignOperator(t).value) == "%s " + Spelling(MapAssignOperator(t).value) + " %s"
  {
  }

  /**
   * A type is allowed for an accumulator exactly when it is the accumulator's
   * own type, or the primitive whose box class the accumulator is.
   */
  lemma TypeAllowedSpec(accType: JType, t: Option<JType>)
    ensures IsTypeAllowedForReduce(accType, t) <==>
      t == Some(accType) || (t.Some? && t.value.Prim? && accType == ClassType(BoxedName(t.value.p)))
  {
    if t.Some? && t.value.Prim? && accType == ClassType(BoxedName(t.value.p)) {
      UnboxBoxed(t.value.p);
    }
  }

  /** A primitive accumulator admits only its own type; a box class also admits its primitive. */
  lemma TypeAllowedExamples(p: Primitive, t: Option<JType>)
    ensures IsTypeAllowedForReduce(Prim(p), t) <==> t == Some(Prim(p))
    ensures IsTypeAllowedForReduce(ClassType(BoxedName(p)), Some(Prim(p)))
    ensures !IsTypeAllowedForReduce(Prim(p), None)
  {
    UnboxBoxed(p);
  }

  // ---------------------------------------------------------------------
  // The static registration table.
  // ---------------------------------------------------------------------

  /** The operators `operatorToString` can spell. */
  const SpelledOperators: set<JavaToken> := {And, AndAnd, Asterisk, Or, OrOr, Plus, Xor}

  /** Every operator of a table has a spelling, so no operator format renders `null`. */
  ghost predicate Spelled(m: OperatorTable) {
    forall k, t :: k in m && t in m[k] ==> t in SpelledOperators
  }

  /** Registering a spelled operator keeps a table spelled. */
  lemma PutKeepsSpelled(m: OperatorTable, k: string, t: JavaToken, d: OpData)
    requires Spelled(m) && t in SpelledOperators
    ensures Spelled(Put(m, k, t, d))
  {
  }

  lemma PrimitiveKeepsSpelled(m: OperatorTable, p: Primitive, t: JavaToken, identity: string, idempotent: bool)
    requires Spelled(m) && t in SpelledOperators
    ensures Spelled(PutPrimitive(m, p, t, identity, idempotent))
  {
    PutKeepsSpelled(m, BoxedName(p), t, OpData(identity, idempotent));
    PutKeepsSpelled(Put(m, BoxedName(p), t, OpData(identity, idempotent)), Keyword(p), t, OpData(identity, idempotent));
  }

  lemma BooleanOperatorsSpelled(m: OperatorTable)
    requires Spelled(m)
    ensures Spelled(WithBooleanOperators(m))
  {
    var m1 := PutPrimitive(m, Boolean, And, "true", true);
    var m2 := PutPrimitive(m1, Boolean, Or, "false", true);
    var m3 := PutPrimitive(m2, Boolean, AndAnd, "true", false);
    PrimitiveKeepsSpelled(m, Boolean, And, "true", true);
    PrimitiveKeepsSpelled(m1, Boolean, Or, "false", true);
    PrimitiveKeepsSpelled(m2, Boolean, AndAnd, "true", false);
    PrimitiveKeepsSpelled(m3, Boolean, OrOr, "false", true);
  }

  lemma IntOperatorsSpelled(m: OperatorTable)
    requires Spelled(m)
    ensures Spelled(WithIntOperators(m))
  {
    var m1 := PutPrimitive(m, Int, Plus, "0", false);
    var m2 := PutPrimitive(m1, Int, Asterisk, "1", false);
    var m3 := PutPrimitive(m2, Int, And, "", true);
    var m4 := PutPrimitive(m3, Int, Or, "0", true);
    PrimitiveKeepsSpelled(m, Int, Plus, "0", false);
    PrimitiveKeepsSpelled(m1, Int, Asterisk, "1", false);
    PrimitiveKeepsSpelled(m2, Int, And, "", true);
    PrimitiveKeepsSpelled(m3, Int, Or, "0", true);
    PrimitiveKeepsSpelled(m4, Int, Xor, "", false);
  }

  lemma LongOperatorsSpelled(m: OperatorTable)
    requires Spelled(m)
    ensures Spelled(WithLongOperators(m))
  {
    var m1 := PutPrimitive(m, Long, Plus, "0", false);
    var m2 := PutPrimitive(m1, Long, Asterisk, "1", false);
    var m3 := PutPrimitive(m2, Long, And, "", true);
    var m4 := PutPrimitive(m3, Long, Or, "0L", true);
    PrimitiveKeepsSpelled(m, Long, Plus, "0", false);
    PrimitiveKeepsSpelled(m1, Long, Asterisk, "1", false);
    PrimitiveKeepsSpelled(m2, Long, And, "", true);
    PrimitiveKeepsSpelled(m3, Long, Or, "0L", true);
    PrimitiveKeepsSpelled(m4, Long, Xor, "", false);
  }

  lemma FloatingAndStringOperatorsSpelled(m: OperatorTable)
    requires Spelled(m)
    ensures Spelled(WithFloatingAndStringOperators(m))
  {
    var m1 := PutPrimitive(m, Float, Plus, "0F", false);
    var m2 := PutPrimitive(m1, Float, Asterisk, "1F", false);
    var m3 := PutPrimitive(m2, Double, Plus, "0D", false);
    var m4 := PutPrimitive(m3, Double, Asterisk, "1D", false);
    PrimitiveKeepsSpelled(m, Float, Plus, "0F", false);
    PrimitiveKeepsSpelled(m1, Float, Asterisk, "1F", false);
    PrimitiveKeepsSpelled(m2, Double, Plus, "0D", false);
    PrimitiveKeepsSpelled(m3, Double, Asterisk, "1D", false);
    PutKeepsSpelled(m4, JavaLangString, Plus, OpData("\"\"", false));
  }

  /** The four operator blocks together register only spelled operators. */
  lemma OperatorBlocksSpelled(m: OperatorTable)
    requires Spelled(m)
    ensures Spelled(WithFloatingAndStringOperators(WithLongOperators(WithIntOperators(WithBooleanOperators(m)))))
  {
    BooleanOperatorsSpelled(m);
    IntOperatorsSpelled(WithBooleanOperators(m));
    LongOperatorsSpelled(WithIntOperators(WithBooleanOperators(m)));
    FloatingAndStringOperatorsSpelled(WithLongOperators(WithIntOperators(WithBooleanOperators(m))));
  }

  /** The operator table of the static initializer holds only operators that `operatorToString` spells. */
  lemma StaticOperatorsSpelled()
    ensures Spelled(StaticOperators())
  {
    OperatorBlocksSpelled(map[]);
  }

  /** The `int` block registers `^` without identity and not idempotent, and `&` without identity but idempotent. */
  lemma IntOperatorsFacts(m: OperatorTable)
    ensures Lookup(WithIntOperators(m), "int", Xor) == Some(OpData("", false))
    ensures Lookup(WithIntOperators(m), "java.lang.Integer", Xor) == Some(OpData("", false))
    ensures Lookup(WithIntOperators(m), "int", And) == Some(OpData("", true))
  {
  }

  /** The `long` block registers `^` without identity and not idempotent. */
  lemma LongOperatorsFacts(m: OperatorTable)
    ensures Lookup(WithLongOperators(m), "long", Xor) == Some(OpData("", false))
  {
  }

  lemma PutPrimitiveKeeps(m: OperatorTable, p: Primitive, t: JavaToken, identity: string, idempotent: bool, k: string, t': JavaToken)
    requires k != BoxedName(p) && k != Keyword(p)
    ensures Lookup(PutPrimitive(m, p, t, identity, idempotent), k, t') == Lookup(m, k, t')
  {
    PutSpec(m, BoxedName(p), t, OpData(identity, idempotent), k, t');
    PutSpec(Put(m, BoxedName(p), t, OpData(identity, idempotent)), Keyword(p), t, OpData(identity, idempotent), k, t');
  }

  lemma BooleanOperatorsKeep(m: OperatorTable, k: string, t: JavaToken)
    requires k != "boolean" && k != "java.lang.Boolean"
    ensures Lookup(WithBooleanOperators(m), k, t) == Lookup(m, k, t)
  {
    var m1 := PutPrimitive(m, Boolean, And, "true", true);
    var m2 := PutPrimitive(m1, Boolean, Or, "false", true);
    var m3 := PutPrimitive(m2, Boolean, AndAnd, "true", false);
    PutPrimitiveKeeps(m, Boolean, And, "true", true, k, t);
    PutPrimitiveKeeps(m1, Boolean, Or, "false", true, k, t);
    PutPrimitiveKeeps(m2, Boolean, AndAnd, "true", false, k, t);
    PutPrimitiveKeeps(m3, Boolean, OrOr, "false", true, k, t);
  }

  lemma IntOperatorsKeep(m: OperatorTable, k: string, t: JavaToken)
    requires k != "int" && k != "java.lang.Integer"
    ensures Lookup(WithIntOperators(m), k, t) == Lookup(m, k, t)
  {
    var m1 := PutPrimitive(m, Int, Plus, "0", false);
    var m2 := PutPrimitive(m1, Int, Asterisk, "1", false);
    var m3 := PutPrimitive(m2, Int, And, "", true);
    var m4 := PutPrimitive(m3, Int, Or, "0", true);
    PutPrimitiveKeeps(m, Int, Plus, "0", false, k, t);
    PutPrimitiveKeeps(m1, Int, Asterisk, "1", false, k, t);
    PutPrimitiveKeeps(m2, Int, And, "", true, k, t);
    PutPrimitiveKeeps(m3, Int, Or, "0", true, k, t);
    PutPrimitiveKeeps(m4, Int, Xor, "", false, k, t);
  }

  lemma LongOperatorsKeep(m: OperatorTable, k: string, t: JavaToken)
    requires k != "long" && k != "java.lang.Long"
    ensures Lookup(WithLongOperators(m), k, t) == Lookup(m, k, t)
  {
    var m1 := PutPrimitive(m, Long, Plus, "0", false);
    var m2 := PutPrimitive(m1, Long, Asterisk, "1", false);
    var m3 := PutPrimitive(m2, Long, And, "", true);
    var m4 := PutPrimitive(m3, Long, Or, "0L", true);
    PutPrimitiveKeeps(m, Long, Plus, "0", false, k, t);
    PutPrimitiveKeeps(m1, Long, Asterisk, "1", false, k, t);
    PutPrimitiveKeeps(m2, Long, And, "", true, k, t);
    PutPrimitiveKeeps(m3, Long, Or, "0L", true, k, t);
    PutPrimitiveKeeps(m4, Long, Xor, "", false, k, t);
  }

  lemma FloatingAndStringOperatorsKeep(m: OperatorTable, k: string, t: JavaToken)
    requires k != "float" && k != "java.lang.Float" && k != "double" && k != "java.lang.Double" && k != JavaLangString
    ensures Lookup(WithFloatingAndStringOperators(m), k, t) == Lookup(m, k, t)
  {
    var m1 := PutPrimitive(m, Float, Plus, "0F", false);
    var m2 := PutPrimitive(m1, Float, Asterisk, "1F", false);
    var m3 := PutPrimitive(m2, Double, Plus, "0D", false);
    var m4 := PutPrimitive(m3, Double, Asterisk, "1D", false);
    PutPrimitiveKeeps(m, Float, Plus, "0F", false, k, t);
    PutPrimitiveKeeps(m1, Float, Asterisk, "1F", false, k, t);
    PutPrimitiveKeeps(m2, Double, Plus, "0D", false, k, t);
    PutPrimitiveKeeps(m3, Double, Asterisk, "1D", false, k, t);
    PutSpec(m4, JavaLangString, Plus, OpData("\"\"", false), k, t);
  }

  /** What the four operator blocks register for the integral types, and that they leave other types alone. */
  lemma OperatorBlocksFacts(m: OperatorTable, k: string, t: JavaToken)
    ensures var r := WithFloatingAndStringOperators(WithLongOperators(WithIntOperators(WithBooleanOperators(m))));
      && Lookup(r, "int", Xor) == Some(OpData("", false))
      && Lookup(r, "long", Xor) == Some(OpData("", false))
      && Lookup(r, "int", And) == Some(OpData("", true))
      && (k in {"char", "byte", "short", "java.lang.Character", "java.lang.Byte", "java.lang.Short"} ==> Lookup(r, k, t) == Lookup(m, k, t))
  {
    var b := WithBooleanOperators(m);
    var i := WithIntOperators(b);
    var l := WithLongOperators(i);
    IntOperatorsFacts(b);
    LongOperatorsKeep(i, "int", Xor);
    LongOperatorsKeep(i, "int", And);
    FloatingAndStringOperatorsKeep(l, "int", Xor);
    FloatingAndStringOperatorsKeep(l, "int", And);
    LongOperatorsFacts(i);
    FloatingAndStringOperatorsKeep(l, "long", Xor);
    if k in {"char", "byte", "short", "java.lang.Character", "java.lang.Byte", "java.lang.Short"} {
      BooleanOperatorsKeep(m, k, t);
      IntOperatorsKeep(b, k, t);
      LongOperatorsKeep(i, k, t);
      FloatingAndStringOperatorsKeep(l, k, t);
    }
  }

  /**
   * In the operator table of the static initializer, `int` and `long` `^`
   * have neither identity nor idempotence, `int` `&` is idempotent, and
   * `char`, `byte` and `short` have no operators at all.
   */
  lemma StaticOperatorsFacts(t: JavaToken)
    ensures Lookup(StaticOperators(), "int", Xor) == Some(OpData("", false))
    ensures Lookup(StaticOperators(), "long", Xor) == Some(OpData("", false))
    ensures Lookup(StaticOperators(), "int", And) == Some(OpData("", true))
    ensures Lookup(StaticOperators(), "char", t).None?
    ensures Lookup(StaticOperators(), "byte", t).None?
    ensures Lookup(StaticOperators(), "short", t).None?
  {
    OperatorBlocksFacts(map[], "char", t);
    OperatorBlocksFacts(map[], "byte", t);
    OperatorBlocksFacts(map[], "short", t);
  }

  /** The key of `Math.min`. */
  function MathMin(): string {
    StaticKey("java.lang.Math", "min")
  }

  lemma BooleanAndFloatingStaticsKeep(m: MethodTable, k: string, l: string)
    requires k != "boolean" && k != "double" && k != "float"
    ensures Lookup(WithBooleanAndFloatingStatics(m), k, l) == Lookup(m, k, l)
  {
  }

  lemma IntegralStaticsKeepMath(m: MethodTable, k: string)
    ensures Lookup(WithIntegralStatics(m), k, MathMin()) == Lookup(m, k, MathMin())
  {
    assert MathMin()[10] == 'M';
    assert StaticKey("java.lang.Integer", "max")[10] == 'I';
    assert StaticKey("java.lang.Integer", "min")[10] == 'I';
    assert StaticKey("java.lang.Integer", "sum")[10] == 'I';
    assert StaticKey("java.lang.Long", "max")[10] == 'L';
    assert StaticKey("java.lang.Long", "min")[10] == 'L';
    assert StaticKey("java.lang.Long", "sum")[10] == 'L';
  }

  /** As written, the `Math` block registers `min` for `long`, `float` and `double` but leaves `int` as it was. */
  lemma MathStaticsAsWrittenSkipsInt(m: MethodTable)
    ensures Lookup(WithMathStaticsAsWritten(m), "int", MathMin()) == Lookup(m, "int", MathMin())
    ensures Lookup(WithMathStaticsAsWritten(m), "long", MathMin()) == Some(OpData("", true))
    ensures Lookup(WithMathStaticsAsWritten(m), "int", StaticKey("java.lang.Math", "max")) == Some(OpData("", true))
  {
    var max := StaticKey("java.lang.Math", "max");
    var d := OpData("", true);
    assert MathMin()[16] == 'i' && max[16] == 'a';
    var m1 := Put(m, "double", max, d);
    var m2 := Put(m1, "float", max, d);
    var m3 := Put(m2, "int", max, d);
    var m4 := Put(m3, "long", max, d);
    var m5 := Put(m4, "double", MathMin(), d);
    var m6 := Put(m5, "float", MathMin(), d);
    var m7 := Put(m6, "long", MathMin(), d);
    PutSpec(m, "double", max, d, "int", MathMin());
    PutSpec(m1, "float", max, d, "int", MathMin());
    PutSpec(m2, "int", max, d, "int", MathMin());
    PutSpec(m3, "long", max, d, "int", MathMin());
    PutSpec(m4, "double", MathMin(), d, "int", MathMin());
    PutSpec(m5, "float", MathMin(), d, "int", MathMin());
    PutSpec(m6, "long", MathMin(), d, "int", MathMin());
    PutSpec(m7, "long", MathMin(), d, "int", MathMin());
    PutSpec(m3, "long", max, d, "int", max);
    PutSpec(m4, "double", MathMin(), d, "int", max);
    PutSpec(m5, "float", MathMin(), d, "int", max);
    PutSpec(m6, "long", MathMin(), d, "int", max);
    PutSpec(m7, "long", MathMin(), d, "int", max);
  }

  /** The corrected `Math` block registers `min` for all four numeric types. */
  lemma MathStaticsCoverAll(m: MethodTable, k: string)
    requires k in {"int", "long", "float", "double"}
    ensures Lookup(WithMathStatics(m), k, MathMin()) == Some(OpData("", true))
  {
  }

  /** The static table as written has no `Math.min` for `int`, although it has `Math.max` for `int` and `Math.min` for `long`. */
  lemma StaticStaticsAsWrittenLacksIntMin()
    ensures Lookup(StaticStaticsAsWritten(), "int", MathMin()).None?
    ensures Lookup(StaticStaticsAsWritten(), "int", StaticKey("java.lang.Math", "max")) == Some(OpData("", true))
    ensures Lookup(StaticStaticsAsWritten(), "long", MathMin()) == Some(OpData("", true))
  {
    var e: MethodTable := map[];
    BooleanAndFloatingStaticsKeep(e, "int", MathMin());
    IntegralStaticsKeepMath(WithBooleanAndFloatingStatics(e), "int");
    MathStaticsAsWrittenSkipsInt(WithIntegralStatics(WithBooleanAndFloatingStatics(e)));
  }

  /** The corrected static table has `Math.min` for every numeric type. */
  lemma StaticStaticsHaveMathMin(k: string)
    requires k in {"int", "long", "float", "double"}
    ensures Lookup(StaticStatics(), k, MathMin()) == Some(OpData("", true))
  {
    MathStaticsCoverAll(WithIntegralStatics(WithBooleanAndFloatingStatics(map[])), k);
  }

  // ---------------------------------------------------------------------
  // The reduction decision.
  // ---------------------------------------------------------------------

  /**
   * The accumulator side: a candidate is a reduction exactly when its
   * operation has an identity or is idempotent and exactly one operand
   * references the accumulator; it is reversed exactly when that operand is
   * the second one, and the other operand is the reduced expression.
   */
  lemma AccumulateSpec(acc: Var, c: Candidate)
    ensures Accumulate(acc, c).Some? <==>
      (c.opData.identity != "" || c.opData.idempotent) && IsReferenceTo(Some(c.expr1), acc) != IsReferenceTo(Some(c.expr2), acc)
    ensures Accumulate(acc, c).Some? ==>
      var d := Accumulate(acc, c).value;
      && d.accumulator == acc && d.operatorData == c.opData && d.format == c.format
      && d.reversed == IsReferenceTo(Some(c.expr2), acc)
      && d.expression == (if d.reversed then c.expr1 else c.expr2)
      && !IsReferenceTo(Some(d.expression), acc)
  {
  }

  /**
   * Every reduction reduces into the variable assigned to, with an operation
   * that has an identity or is idempotent, and the reduced expression is not
   * itself a reference to the accumulator.
   */
  lemma ReductionSound(ops: OperatorTable, members: MethodTable, statics: MethodTable, a: Expr)
    requires a.Assign?
    ensures Reduction(ops, members, statics, a).Returned? && Reduction(ops, members, statics, a).value.Some? ==>
      var d := Reduction(ops, members, statics, a).value.value;
      && a.lhs.Ref? && ResolveVariable(Some(a.lhs)) == Some(d.accumulator)
      && (d.operatorData.identity != "" || d.operatorData.idempotent)
      && !IsReferenceTo(Some(d.expression), d.accumulator)
  {
    if a.lhs.Ref? && ResolveVariable(Some(a.lhs)).Some? {
      var acc := ResolveVariable(Some(a.lhs)).value;
      var c := AssignmentCandidate(ops, members, statics, acc.typ, a);
      if c.Returned? && c.value.Some? {
        AccumulateSpec(acc, c.value.value);
      }
    }
  }

  /**
   * A compound assignment `acc op= e` never throws, and when it is a
   * reduction it is never reversed: `e` is reduced, with the operation the
   * table registers for the accumulator's type and the format `%s op %s`.
   */
  lemma CompoundAssignmentReduction(ops: OperatorTable, members: MethodTable, statics: MethodTable, a: Expr)
    requires a.Assign? && MapAssignOperator(a.op).Some?
    ensures Reduction(ops, members, statics, a).Returned?
    ensures Reduction(ops, members, statics, a).value.Some? ==>
      var d := Reduction(ops, members, statics, a).value.value;
      var op := MapAssignOperator(a.op).value;
      && !d.reversed && a.rhs == Some(d.expression)
      && Lookup(ops, CanonicalText(d.accumulator.typ), op) == Some(d.operatorData)
      && d.format == "%s " + Spelling(op) + " %s"
  {
    if a.lhs.Ref? && ResolveVariable(Some(a.lhs)).Some? {
      var acc := ResolveVariable(Some(a.lhs)).value;
      var c := AssignmentCandidate(ops, members, statics, acc.typ, a);
      CompoundOperatorsSpelled(a.op);
      if c.Returned? && c.value.Some? {
        AccumulateSpec(acc, c.value.value);
        assert IsReferenceTo(Some(a.lhs), acc);
      }
    }
  }

  /** The candidate of `acc = x op y`: the operands `x` and `y`, the table's entry for `op`, and the operator format. */
  lemma BinaryCandidate(ops: OperatorTable, members: MethodTable, statics: MethodTable, accType: JType, a: Expr)
    requires a.Assign? && a.op == Eq && a.rhs.Some? && a.rhs.value.Binary?
    ensures AssignmentCandidate(ops, members, statics, accType, a).Returned?
    ensures AssignmentCandidate(ops, members, statics, accType, a).value.Some? ==>
      var c := AssignmentCandidate(ops, members, statics, accType, a).value.value;
      var b := a.rhs.value;
      && c.expr1 == b.lhs && Some(c.expr2) == b.rhs && c.format == OperatorFormat(b.op)
      && Lookup(ops, CanonicalText(accType), b.op) == Some(c.opData)
  {
  }

  /**
   * `acc = x op y` is a reduction only through the operator table, with the
   * format `%s op %s` whenever the table holds only spelled operators.
   */
  lemma BinaryAssignmentReduction(ops: OperatorTable, members: MethodTable, statics: MethodTable, a: Expr)
    requires a.Assign? && a.op == Eq && a.rhs.Some? && a.rhs.value.Binary?
    ensures Reduction(ops, members, statics, a).Returned?
    ensures Reduction(ops, members, statics, a).value.Some? ==>
      var d := Reduction(ops, members, statics, a).value.value;
      var b := a.rhs.value;
      && Lookup(ops, CanonicalText(d.accumulator.typ), b.op) == Some(d.operatorData)
      && d.expression == (if d.reversed then b.lhs else b.rhs.value)
      && (Spelled(ops) ==> d.format == "%s " + Spelling(b.op) + " %s")
  {
    if a.lhs.Ref? && ResolveVariable(Some(a.lhs)).Some? {
      var acc := ResolveVariable(Some(a.lhs)).value;
      BinaryCandidate(ops, members, statics, acc.typ, a);
      var c := AssignmentCandidate(ops, members, statics, acc.typ, a);
      if c.value.Some? {
        AccumulateSpec(acc, c.value.value);
        var op := a.rhs.value.op;
        if Spelled(ops) {
          assert op in SpelledOperators;
          OperatorToStringSpec(op);
        }
      }
    }
  }

  /**
   * A method-call reduction has the static format `Cls.m(%s, %s)` for a
   * static method of exactly two parameters, and `%s.m(%s)` for an instance
   * method of exactly one.
   */
  lemma CallReductionFormat(ops: OperatorTable, members: MethodTable, statics: MethodTable, a: Expr)
    requires a.Assign? && a.op == Eq && a.rhs.Some? && a.rhs.value.Call?
    ensures Reduction(ops, members, statics, a).Returned? && Reduction(ops, members, statics, a).value.Some? ==>
      var d := Reduction(ops, members, statics, a).value.value;
      var call := a.rhs.value;
      && call.target.Some?
      && var m := call.target.value;
      && m.declaringClass.Some? && m.declaringClass.value.qualifiedName.Some?
      && AssociativeOperation(members, statics, m) == Some(d.operatorData)
      && (m.isStatic ==> |m.paramTypes| == 2 && d.format == m.declaringClass.value.qualifiedName.value + "." + m.name + "(%s, %s)")
      && (!m.isStatic ==> |m.paramTypes| == 1 && d.format == "%s." + m.name + "(%s)")
  {
    if a.lhs.Ref? && ResolveVariable(Some(a.lhs)).Some? {
      var acc := ResolveVariable(Some(a.lhs)).value;
      var c := AssignmentCandidate(ops, members, statics, acc.typ, a);
      if c.Returned? && c.value.Some? {
        AccumulateSpec(acc, c.value.value);
      }
    }
  }

  /**
   * The only exception is an index out of bounds, raised exactly when a
   * call that passes the parameter checks has fewer arguments than its
   * method has parameters.
   */
  lemma ReductionThrowsOnlyOnShortArguments(ops: OperatorTable, members: MethodTable, statics: MethodTable, a: Expr)
    requires a.Assign?
    ensures Reduction(ops, members, statics, a).Thrown? ==>
      && Reduction(ops, members, statics, a).exception == IndexOutOfBounds
      && a.op == Eq && a.rhs.Some? && a.rhs.value.Call? && a.rhs.value.target.Some?
      && |a.rhs.value.args| < |a.rhs.value.target.value.paramTypes|
  {
  }

  /**
   * `getAssociativeOperation` finds only static methods of two parameters
   * and instance methods of one parameter of their own class type, and a
   * registered entry takes precedence over the annotation.
   */
  lemma AssociativeOperationSpec(members: MethodTable, statics: MethodTable, m: MethodDecl)
    ensures AssociativeOperation(members, statics, m).Some? ==>
      && m.declaringClass.Some? && m.declaringClass.value.qualifiedName.Some? && m.returnType.Some?
      && (m.isStatic ==> |m.paramTypes| == 2)
      && (!m.isStatic ==> |m.paramTypes| == 1 && EqualsToText(m.paramTypes[0], m.declaringClass.value.qualifiedName.value)
                                             && EqualsToText(m.returnType.value, m.declaringClass.value.qualifiedName.value))
    ensures m.isStatic && |m.paramTypes| == 2 && m.returnType.Some? && m.declaringClass.Some? && m.declaringClass.value.qualifiedName.Some? ==>
      var registered := Lookup(statics, CanonicalText(m.returnType.value), StaticKey(m.declaringClass.value.qualifiedName.value, m.name));
      registered.Some? ==> AssociativeOperation(members, statics, m) == registered
  {
  }

  /** With an `("", false)` entry for `^`, neither `acc ^= e` nor `acc = x ^ y` is ever a reduction. */
  lemma XorWithoutIdentityRejected(ops: OperatorTable, members: MethodTable, statics: MethodTable, a: Expr)
    requires a.Assign? && a.lhs.Ref? && ResolveVariable(Some(a.lhs)).Some?
    requires Lookup(ops, CanonicalText(ResolveVariable(Some(a.lhs)).value.typ), Xor) == Some(OpData("", false))
    requires a.op == XorEq || (a.op == Eq && a.rhs.Some? && a.rhs.value.Binary? && a.rhs.value.op == Xor)
    ensures Reduction(ops, members, statics, a) == Returned(None)
  {
  }

  /** With an `("", true)` entry for `&`, `acc &= e` reduces `e` whenever `e` has the accumulator's type and does not reference it. */
  lemma IdempotentAndReduces(ops: OperatorTable, members: MethodTable, statics: MethodTable, acc: Var, e: Expr, a: Expr)
    requires Lookup(ops, CanonicalText(acc.typ), And) == Some(OpData("", true))
    requires e.typ == Some(acc.typ) && !IsReferenceTo(Some(e), acc)
    requires a.Assign? && a.lhs.Ref? && a.lhs.resolved == Some(VarElement(acc)) && a.op == AndEq && a.rhs == Some(e)
    ensures Reduction(ops, members, statics, a) == Returned(Some(ReductionData(acc, e, OpData("", true), "%s & %s", false)))
  {
    assert IsReferenceTo(Some(a.lhs), acc);
    assert OperatorFormat(And) == "%s & %s";
    var c := Candidate(a.lhs, e, OpData("", true), OperatorFormat(And));
    assert AssignmentCandidate(ops, members, statics, acc.typ, a) == Returned(Some(c));
    AccumulateSpec(acc, c);
  }

  /** The `int` overload of `Math.min`: static, two `int` parameters, an immutable return type and no `Associative` annotation. */
  function IntMathMin(): MethodDecl {
    MethodDecl("min", Some(ClassInfo(Some("java.lang.Math"))), true, Some(Prim(Int)), [Prim(Int), Prim(Int)],
               MethodFacts(true, false, None))
  }

  /** Whether `int` `Math.min` is an associative operation depends on the static table alone. */
  lemma IntMathMinNeedsRegistration(members: MethodTable, statics: MethodTable)
    ensures AssociativeOperation(members, statics, IntMathMin()) == Lookup(statics, "int", MathMin())
  {
  }

  /**
   * `Math.min` on `int` is no associative operation with the static table
   * as written, while the corrected table registers it.
   */
  lemma IntMathMinFinding(members: MethodTable)
    ensures AssociativeOperation(members, StaticStaticsAsWritten(), IntMathMin()).None?
    ensures AssociativeOperation(members, StaticStatics(), IntMathMin()) == Some(OpData("", true))
  {
    IntMathMinNeedsRegistration(members, StaticStaticsAsWritten());
    IntMathMinNeedsRegistration(members, StaticStatics());
    StaticStaticsAsWrittenLacksIntMin();
    StaticStaticsHaveMathMin("int");
  }
}
