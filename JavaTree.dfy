/**
 * An abstract Java syntax tree, as far as the stream-migration handlers look
 * at it. Name resolution and type computation are not performed here: each
 * reference carries what it resolves to and each expression its type, as the
 * IDE would report them.
 */
module JavaTree {
  import opened Wrappers
  import opened JavaTypes

  /** What kind of declaration a variable is (`PsiLocalVariable`, `PsiParameter`, `PsiField`). */
  datatype VarKind = LocalVar | ParameterVar | FieldVar

  /**
   * The value of a literal (`PsiLiteralExpression.getValue()`); values of
   * different types are never equal. A `float` or `double` value is its
   * `Float.floatToIntBits` or `Double.doubleToLongBits` pattern, which is what
   * `equals` compares: every NaN has the one canonical pattern, while `0.0`
   * and `-0.0` differ.
   */
  datatype LitValue =
    | BoolValue(b: bool)
    | IntValue(i: int)
    | LongValue(l: int)
    | FloatValue(floatBits: bv32)
    | DoubleValue(doubleBits: bv64)
    | CharValue(c: char)
    | StringValue(s: string)

  /** A declared variable; `id` is its identity. */
  datatype Var = Var(id: nat, typ: JType, kind: VarKind, initializer: Option<Expr>, isFinal: bool)

  /** A declared class, of which only the qualified name is consulted (absent for anonymous and local classes). */
  datatype ClassInfo = ClassInfo(qualifiedName: Option<string>)

  /** What a reference resolves to. */
  datatype Element = VarElement(v: Var) | ClassElement(c: ClassInfo) | OtherElement

  /**
   * A declared method: the class it is declared in (absent when its parent is
   * not a class), its modifiers, signature, and the annotation facts the
   * reduce handler looks up.
   */
  datatype MethodDecl = MethodDecl(
    name: string,
    declaringClass: Option<ClassInfo>,
    isStatic: bool,
    returnType: Option<JType>,
    paramTypes: seq<JType>,
    facts: MethodFacts)

  /**
   * Facts about a method that come from library utilities: whether its
   * return type is immutable (`ClassUtils.isImmutable`), whether the return
   * type's class carries the `Immutable` annotation, and the `Associative`
   * annotation's `identity` and `idempotent` attributes, if annotated.
   */
  datatype MethodFacts = MethodFacts(
    returnTypeImmutable: bool,
    returnClassAnnotatedImmutable: bool,
    associative: Option<Associative>)

  /** An `Associative` annotation's `identity` and `idempotent` attributes. */
  datatype Associative = Associative(identity: string, idempotent: bool)

  /** An expression, with the type the IDE computes for it. */
  datatype Expr =
    | Paren(inner: Option<Expr>, typ: Option<JType>)
    | Ref(resolved: Option<Element>, typ: Option<JType>)
    | Literal(value: Option<LitValue>, typ: Option<JType>)
    | This(typ: Option<JType>)
    | Prefix(op: JavaToken, operand: Option<Expr>, typ: Option<JType>)
    | Binary(op: JavaToken, lhs: Expr, rhs: Option<Expr>, typ: Option<JType>)
    | Assign(lhs: Expr, op: JavaToken, rhs: Option<Expr>, typ: Option<JType>)
    | Call(name: string, qualifier: Option<Expr>, args: seq<Expr>, target: Option<MethodDecl>, typ: Option<JType>)
    | New(classRef: Option<ClassRef>, argumentList: Option<seq<Expr>>, typ: Option<JType>)
    | OtherExpr(typ: Option<JType>)

  /** The class reference of a `new` expression and the class it resolves to, if any. */
  datatype ClassRef = ClassRef(resolved: Option<ClassInfo>)

  /** A statement. */
  datatype Statement =
    | ExprStmt(expr: Expr)
    | IfStmt(condition: Option<Expr>, thenBranch: Option<Statement>, elseBranch: Option<Statement>)
    | BlockStmt(statements: seq<Statement>)
    | OtherStmt

  /** The exceptions a Java guard chain can raise on unexpected input. */
  datatype JavaException = NullPointer | IndexOutOfBounds | ClassCast | NoSuchElement

  /** The result of Java code that either returns a value or throws. */
  datatype Outcome<T> = Returned(value: T) | Thrown(exception: JavaException)

  /** `ParenthesesUtils.stripParentheses`: the expression inside any number of parentheses. */
  function StripParens(e: Option<Expr>): (r: Option<Expr>)
    ensures r.Some? ==> !r.value.Paren?
  {
    match e
    case Some(Paren(inner, _)) => StripParens(inner)
    case _ => e
  }

  /** Stripping is idempotent. */
  lemma {:induction false} StripParensIdempotent(e: Option<Expr>)
    ensures StripParens(StripParens(e)) == StripParens(e)
  {
    match e
    case Some(Paren(inner, _)) => StripParensIdempotent(inner);
    case _ =>
  }

  /** `resolveVariable`: the variable a reference expression resolves to. */
  function ResolveVariable(e: Option<Expr>): (r: Option<Var>)
    ensures r.Some? <==> e.Some? && e.value.Ref? && e.value.resolved.Some? && e.value.resolved.value.VarElement?
  {
    match e
    case Some(Ref(Some(VarElement(v)), _)) => Some(v)
    case _ => None
  }

  /** `ExpressionUtils.isReferenceTo`: the expression, parentheses stripped, is a reference to `v`. */
  predicate IsReferenceTo(e: Option<Expr>, v: Var) {
    ResolveVariable(StripParens(e)) == Some(v)
  }
}
