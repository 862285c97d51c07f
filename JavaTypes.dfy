/**
 * The small part of the Java type system and token set that the inspections
 * consult: primitive types with their keywords and box classes, class types
 * by qualified name, and the operator tokens of the Java lexer.
 */
module JavaTypes {
  import opened Wrappers

  /** Java's eight primitive types (`PsiType.BOOLEAN` ... `PsiType.DOUBLE`). */
  datatype Primitive = Boolean | Byte | Short | Char | Int | Long | Float | Double

  /** A resolved Java type: a primitive, or a class type named by its qualified name. */
  datatype JType = Prim(p: Primitive) | ClassType(name: string)

  const JavaLangString := "java.lang.String"
  const JavaLangStringBuilder := "java.lang.StringBuilder"

  /** The keyword spelling of a primitive type, which is also its canonical text. */
  function Keyword(p: Primitive): string {
    match p
    case Boolean => "boolean"
    case Byte => "byte"
    case Short => "short"
    case Char => "char"
    case Int => "int"
    case Long => "long"
    case Float => "float"
    case Double => "double"
  }

  /** The qualified name of the box class of a primitive (`getBoxedTypeName`). */
  function BoxedName(p: Primitive): string {
    match p
    case Boolean => "java.lang.Boolean"
    case Byte => "java.lang.Byte"
    case Short => "java.lang.Short"
    case Char => "java.lang.Character"
    case Int => "java.lang.Integer"
    case Long => "java.lang.Long"
    case Float => "java.lang.Float"
    case Double => "java.lang.Double"
  }

  /** `getCanonicalText()`: the keyword of a primitive, the qualified name of a class. */
  function CanonicalText(t: JType): string {
    match t
    case Prim(p) => Keyword(p)
    case ClassType(n) => n
  }

  /** `PsiType.equalsToText(text)`. */
  predicate EqualsToText(t: JType, text: string) {
    CanonicalText(t) == text
  }

  /**
   * `PsiPrimitiveType.getUnboxedType`: the primitive boxed by a class type,
   * absent for primitives and for every other class.
   */
  function Unboxed(t: JType): (r: Option<Primitive>)
    ensures r.Some? ==> t == ClassType(BoxedName(r.value))
  {
    match t
    case Prim(_) => None
    case ClassType(n) =>
      if n == BoxedName(Boolean) then Some(Boolean)
      else if n == BoxedName(Byte) then Some(Byte)
      else if n == BoxedName(Short) then Some(Short)
      else if n == BoxedName(Char) then Some(Char)
      else if n == BoxedName(Int) then Some(Int)
      else if n == BoxedName(Long) then Some(Long)
      else if n == BoxedName(Float) then Some(Float)
      else if n == BoxedName(Double) then Some(Double)
      else None
  }

  /** Unboxing undoes boxing: the box class of `p` unboxes to `p`. */
  lemma UnboxBoxed(p: Primitive)
    ensures Unboxed(ClassType(BoxedName(p))) == Some(p)
  {
  }

  /**
   * The operator tokens of `JavaTokenType` that the inspections compare
   * against; `OtherToken` stands for every token not listed.
   */
  datatype JavaToken =
    | Asterisk | Div | Perc | Plus | Minus          // * / % + -
    | Lt | Le | Gt | Ge | EqEq | Ne                 // < <= > >= == !=
    | And | Xor | Or | AndAnd | OrOr                // & ^ | && ||
    | GtGt | GtGtGt | LtLt                          // >> >>> <<
    | Excl | Tilde                                  // ! ~
    | Eq                                            // =
    | AndEq | AsteriskEq | OrEq | PlusEq | XorEq    // &= *= |= += ^=
    | MinusEq | DivEq | PercEq                      // -= /= %=
    | LtLtEq | GtGtEq | GtGtGtEq                    // <<= >>= >>>=
    | OtherToken
}
