/**
 * The string-joining handler of the stream-migration inspection: it decides
 * whether a loop that appends to a `String` or `StringBuilder` variable,
 * optionally with a delimiter guarded by a first-iteration flag, can become
 * a `Collectors.joining` call. Control-flow, initializer and usage analyses
 * of the surrounding code are inputs (`Oracles`).
 */
module StringConcatHandling {
  import opened Wrappers
  import opened JavaTypes
  import opened JavaTree

  /**
   * The answers of analyses outside this handler, for the loop at hand:
   * whether a variable keeps its initial value up to the loop
   * (`getInitializerUsageStatus(v, loop) != UNKNOWN`), whether it is used
   * after the loop (`isVariableReferencedAfter`), whether it is referenced
   * by the terminal block's operations (`isReferencedInOperations`), the
   * addend of a string assignment (`extractAddend`), whether a `boolean`
   * value is assignable to a type, whether a type is immutable
   * (`ClassUtils.isImmutable`), whether a variable is an empty array
   * (`CollectionUtils.isEmptyArray`) and whether a variable is used inside
   * an expression (`VariableAccessUtils.variableIsUsed`).
   */
  datatype Oracles = Oracles(
    initializerKnown: Var -> bool,
    referencedAfter: Var -> bool,
    referencedInOperations: Var -> bool,
    extractAddend: Expr -> Option<Expr>,
    booleanAssignable: JType -> bool,
    immutable: JType -> bool,
    emptyArray: Var -> bool,
    variableIsUsed: (Var, Expr) -> bool)

  /** The index of the first element of `s` satisfying `p`. */
  function FindFirst<T>(s: seq<T>, p: T -> bool): (r: Option<nat>)
    ensures r.Some? ==> r.value < |s| && p(s[r.value]) && forall k :: 0 <= k < r.value ==> !p(s[k])
    ensures r.None? ==> forall k :: 0 <= k < |s| ==> !p(s[k])
  {
    if |s| == 0 then None
    else if p(s[0]) then Some(0)
    else match FindFirst(s[1..], p)
      case None => None
      case Some(i) => Some(i + 1)
  }

  // ---------------------------------------------------------------------
  // Constructor arguments.
  // ---------------------------------------------------------------------

  /**
   * A constructor argument list matches a signature (a list of type texts)
   * when the signature is present, has the same length, and every argument
   * of known type has the signature's type at its position.
   */
  predicate SignatureMatches(args: seq<Expr>, signature: Option<seq<string>>) {
    && signature.Some? && |args| == |signature.value|
    && forall i :: 0 <= i < |args| && args[i].typ.Some? ==> EqualsToText(args[i].typ.value, signature.value[i])
  }

  /**
   * A local variable initialized by `new C(...)`, where `C` resolves to the
   * class named by the variable's type, whose argument list matches one of
   * the signatures.
   */
  predicate InitArgumentsMatch(v: Var, signatures: seq<Option<seq<string>>>) {
    && v.kind == LocalVar
    && v.initializer.Some? && v.initializer.value.New?
    && var init := v.initializer.value;
    && init.classRef.Some? && init.classRef.value.resolved.Some?
    && init.classRef.value.resolved.value.qualifiedName == Some(CanonicalText(v.typ))
    && init.argumentList.Some?
    && exists j :: 0 <= j < |signatures| && SignatureMatches(init.argumentList.value, signatures[j])
  }

  /** `checkInitArguments`: the guards, then a scan of the signatures that stops at the first match. */
  method CheckInitArguments(v: Var, signatures: seq<Option<seq<string>>>) returns (ok: bool)
    ensures ok == InitArgumentsMatch(v, signatures)
  {
    if v.kind != LocalVar { return false; }
    if v.initializer.None? || !v.initializer.value.New? { return false; }
    var initNew := v.initializer.value;
    if initNew.classRef.None? { return false; }
    var constrClass := initNew.classRef.value.resolved;
    if constrClass.None? || constrClass.value.qualifiedName != Some(CanonicalText(v.typ)) { return false; }
    if initNew.argumentList.None? { return false; }
    var args := initNew.argumentList.value;
    for j := 0 to |signatures|
      invariant forall j' :: 0 <= j' < j ==> !SignatureMatches(args, signatures[j'])
    {
      var argList := signatures[j];
      if argList.None? || |args| != |argList.value| { continue; }
      var allMatch := true;
      for i := 0 to |args|
        invariant allMatch <==> forall i' :: 0 <= i' < i && args[i'].typ.Some? ==> EqualsToText(args[i'].typ.value, argList.value[i'])
      {
        if args[i].typ.Some? && !EqualsToText(args[i].typ.value, argList.value[i]) {
          allMatch := false;
        }
      }
      if allMatch { return true; }
    }
    return false;
  }

  /** The signatures a `StringBuilder` may be constructed with: none, or one `String`. */
  function BuilderSignatures(): seq<Option<seq<string>>> {
    [Some([]), Some([JavaLangString])]
  }

  /** A builder passes the argument check only with no argument, or with one argument that is a `String` when its type is known. */
  lemma BuilderArguments(v: Var)
    requires InitArgumentsMatch(v, BuilderSignatures())
    ensures var args := v.initializer.value.argumentList.value;
      |args| <= 1 && (|args| == 1 && args[0].typ.Some? ==> CanonicalText(args[0].typ.value) == JavaLangString)
  {
    var args := v.initializer.value.argumentList.value;
    var j :| 0 <= j < 2 && SignatureMatches(args, BuilderSignatures()[j]);
    if |args| == 1 && args[0].typ.Some? {
      assert j == 1;
    }
  }

  // ---------------------------------------------------------------------
  // Small guards.
  // ---------------------------------------------------------------------

  /** `isNegatedReferenceTo`: the expression, parentheses stripped, is `!` applied to a reference to `v`. */
  predicate IsNegatedReferenceTo(e: Option<Expr>, v: Var) {
    var s := StripParens(e);
    && s.Some? && s.value.Prefix? && s.value.op == Excl
    && s.value.operand.Some? && s.value.operand.value.Ref?
    && IsReferenceTo(s.value.operand, v)
  }

  /** A negated reference is not a reference, parentheses do not matter, and `!v` is a negated reference to `v` exactly. */
  lemma NegatedReferenceSpec(e: Option<Expr>, v: Var, r: Expr, t: Option<JType>, inner: Option<Expr>)
    ensures IsNegatedReferenceTo(e, v) ==> !IsReferenceTo(e, v)
    ensures IsNegatedReferenceTo(Some(Paren(inner, t)), v) == IsNegatedReferenceTo(inner, v)
    ensures r.Ref? ==> (IsNegatedReferenceTo(Some(Prefix(Excl, Some(r), t)), v) <==> r.resolved == Some(VarElement(v)))
  {
  }

  /** `getAssignment`: the assignment an expression statement consists of. */
  function GetAssignment(s: Statement): (r: Option<Expr>)
    ensures r.Some? <==> s.ExprStmt? && s.expr.Assign?
    ensures r.Some? ==> r.value.Assign?
  {
    if s.ExprStmt? && s.expr.Assign? then Some(s.expr) else None
  }

  /** `getMethodCall`: the method call an expression statement consists of. */
  function GetMethodCall(s: Statement): (r: Option<Expr>)
    ensures r.Some? <==> s.ExprStmt? && s.expr.Call?
    ensures r.Some? ==> r.value.Call?
  {
    if s.ExprStmt? && s.expr.Call? then Some(s.expr) else None
  }

  /**
   * `getAppendParam`: what a statement appends to `concatVar`; in string
   * mode the addend of an assignment to a `String`, in builder mode the
   * single argument of `concatVar.append(...)` on a `StringBuilder`.
   */
  function GetAppendParam(o: Oracles, concatVar: Option<Var>, stmt: Option<Statement>, stringConcat: bool): Option<Expr> {
    if concatVar.None? || stmt.None? then None
    else if stringConcat then
      if !EqualsToText(concatVar.value.typ, JavaLangString) then None
      else match GetAssignment(stmt.value)
        case None => None
        case Some(assign) => o.extractAddend(assign)
    else
      if !EqualsToText(concatVar.value.typ, JavaLangStringBuilder) then None
      else match GetMethodCall(stmt.value)
        case None => None
        case Some(call) =>
          if call.name != "append" then None
          else if |call.args| != 1 then None
          else if ResolveVariable(call.qualifier) != concatVar then None
          else Some(call.args[0])
  }

  /**
   * In builder mode a statement appends exactly when it is `v.append(e)` on
   * a `StringBuilder` variable `v`, and then `e` is what it appends; in
   * string mode exactly an assignment to a `String` variable, through the
   * addend it yields.
   */
  lemma AppendParamSpec(o: Oracles, v: Var, stmt: Statement, e: Expr)
    ensures GetAppendParam(o, Some(v), Some(stmt), false) == Some(e) <==>
      && EqualsToText(v.typ, JavaLangStringBuilder)
      && stmt.ExprStmt? && stmt.expr.Call? && stmt.expr.name == "append" && stmt.expr.args == [e]
      && ResolveVariable(stmt.expr.qualifier) == Some(v)
    ensures GetAppendParam(o, Some(v), Some(stmt), true) == Some(e) <==>
      && EqualsToText(v.typ, JavaLangString)
      && stmt.ExprStmt? && stmt.expr.Assign? && o.extractAddend(stmt.expr) == Some(e)
    ensures GetAppendParam(o, None, Some(stmt), false).None? && GetAppendParam(o, Some(v), None, true).None?
  {
  }

  /**
   * `isValidFISetter`: the statement is `checkVar = e` where `e` is `!checkVar`
   * (only when toggling is allowed) or the boolean literal other than `initial`.
   */
  predicate IsValidFISetter(stmt: Statement, checkVar: Var, initial: bool, allowToggle: bool) {
    match GetAssignment(stmt)
    case None => false
    case Some(assign) =>
      if assign.op != Eq || !IsReferenceTo(Some(assign.lhs), checkVar) then false
      else if allowToggle && IsNegatedReferenceTo(assign.rhs, checkVar) then true
      else
        && assign.rhs.Some? && assign.rhs.value.Literal?
        && assign.rhs.value.typ == Some(Prim(Boolean))
        && BooleanValue(assign.rhs.value) == Some(!initial)
  }

  /** The value of a boolean literal, absent when it has none. */
  function BooleanValue(e: Expr): Option<bool>
    requires e.Literal?
  {
    match e.value
    case Some(BoolValue(b)) => Some(b)
    case _ => None
  }

  /**
   * A first-iteration setter assigns the check variable with `=`; without
   * toggling it sets it to the negation of its initial value, and toggling
   * adds exactly `v = !v`.
   */
  lemma FISetterSpec(stmt: Statement, v: Var, initial: bool)
    ensures IsValidFISetter(stmt, v, initial, true) ==>
      stmt.ExprStmt? && stmt.expr.Assign? && stmt.expr.op == Eq && IsReferenceTo(Some(stmt.expr.lhs), v)
    ensures IsValidFISetter(stmt, v, initial, false) <==>
      && stmt.ExprStmt? && stmt.expr.Assign? && stmt.expr.op == Eq && IsReferenceTo(Some(stmt.expr.lhs), v)
      && stmt.expr.rhs.Some? && stmt.expr.rhs.value.Literal? && stmt.expr.rhs.value.typ == Some(Prim(Boolean))
      && stmt.expr.rhs.value.value == Some(BoolValue(!initial))
    ensures IsValidFISetter(stmt, v, initial, true) <==>
      IsValidFISetter(stmt, v, initial, false)
      || (stmt.ExprStmt? && stmt.expr.Assign? && stmt.expr.op == Eq && IsReferenceTo(Some(stmt.expr.lhs), v)
          && IsNegatedReferenceTo(stmt.expr.rhs, v))
  {
  }

  /**
   * `isConstantValue`: a literal, or a reference to a final variable that is
   * an empty array or of immutable type; a reference that resolves to no
   * variable dereferences null.
   */
  function IsConstantValue(o: Oracles, e: Expr): Outcome<bool> {
    if e.Literal? then Returned(true)
    else if e.Ref? then
      match ResolveVariable(Some(e))
      case None => Thrown(NullPointer)
      case Some(v) =>
        if !v.isFinal then Returned(false)
        else if o.emptyArray(v) then Returned(true)
        else Returned(o.immutable(v.typ))
    else Returned(false)
  }

  /**
   * A literal is always constant; a reference is constant exactly when it
   * resolves to a final variable that is an empty array or of immutable
   * type; only an unresolved reference throws.
   */
  lemma ConstantValueSpec(o: Oracles, e: Expr)
    ensures e.Literal? ==> IsConstantValue(o, e) == Returned(true)
    ensures IsConstantValue(o, e) == Returned(true) <==>
      e.Literal? ||
      (e.Ref? && ResolveVariable(Some(e)).Some? && ResolveVariable(Some(e)).value.isFinal &&
       (o.emptyArray(ResolveVariable(Some(e)).value) || o.immutable(ResolveVariable(Some(e)).value.typ)))
    ensures IsConstantValue(o, e).Thrown? <==> e.Ref? && ResolveVariable(Some(e)).None?
  {
  }

  /**
   * `getFIVariable`: the local variable an `if` condition tests, directly or
   * under one prefix operator, parentheses around the whole stripped.
   */
  function FIVariable(condition: Option<Expr>): (r: Option<Var>)
    ensures r.Some? ==> r.value.kind == LocalVar
  {
    var c := StripParens(condition);
    var c := if c.Some? && c.value.Prefix? then c.value.operand else c;
    match c
    case Some(Ref(Some(VarElement(v)), _)) => if v.kind == LocalVar then Some(v) else None
    case _ => None
  }

  /** The first-iteration variable is the same whether the condition is `v`, `!v` or `(v)`. */
  lemma FIVariableSpec(r: Expr, op: JavaToken, t: Option<JType>)
    requires r.Ref?
    ensures FIVariable(Some(Prefix(op, Some(r), t))) == FIVariable(Some(r))
    ensures FIVariable(Some(Paren(Some(r), t))) == FIVariable(Some(r))
    ensures FIVariable(Some(r)).Some? <==> r.resolved.Some? && r.resolved.value.VarElement? && r.resolved.value.v.kind == LocalVar
  {
  }

  // ---------------------------------------------------------------------
  // getJoinedVariable.
  // ---------------------------------------------------------------------

  predicate IsBuilder(v: Var) { EqualsToText(v.typ, JavaLangStringBuilder) }

  predicate IsString(v: Var) { EqualsToText(v.typ, JavaLangString) }

  /** The variable appended to, and whether it is a `String` (string mode) rather than a `StringBuilder`. */
  datatype Target = Target(variable: Var, stringConcat: bool)

  /** The first `StringBuilder` variable, else the first `String` variable if it keeps its initial value up to the loop. */
  function SelectTarget(o: Oracles, vars: seq<Var>): Option<Target> {
    match FindFirst(vars, IsBuilder)
    case Some(i) => Some(Target(vars[i], false))
    case None =>
      match FindFirst(vars, IsString)
      case None => None
      case Some(i) => if !o.initializerKnown(vars[i]) then None else Some(Target(vars[i], true))
  }

  /** The first variable a `boolean` can be assigned to: the first-iteration check variable. */
  function CheckVariable(o: Oracles, vars: seq<Var>): Option<Var> {
    match FindFirst(vars, (v: Var) => o.booleanAssignable(v.typ))
    case Some(i) => Some(vars[i])
    case None => None
  }

  /**
   * The initial value of the check variable: its boolean literal
   * initializer, `false` without one, and absent when the literal has no
   * value (which rejects the loop).
   */
  function InitialCheckValue(cv: Var): Option<bool> {
    if cv.initializer.Some? && cv.initializer.value.Literal? && cv.initializer.value.typ == Some(Prim(Boolean)) then
      BooleanValue(cv.initializer.value)
    else Some(false)
  }

  /** A branch that is present but is not a block, which the source casts to a block. */
  predicate NotBlock(branch: Option<Statement>) {
    branch.Some? && !branch.value.BlockStmt?
  }

  /** The check variable's initial value and whether it is reset by a trailing statement rather than inside the `if`. */
  datatype Setup = Setup(initVal: bool, trailingSwitch: bool)

  /**
   * The delimiter part of `getJoinedVariable`, for a block of other than one
   * statement and a check variable `cv`: the leading `if` must test `cv`,
   * append a constant `String` delimiter in one branch, and reset `cv` in
   * the other (two statements) or have no other branch (three statements).
   * With `fixed`, the three places where the source throws reject instead.
   */
  function CheckSetup(fixed: bool, o: Oracles, stmts: seq<Statement>, t: Target, cv: Var): Outcome<Option<Setup>> {
    if !o.initializerKnown(cv) || o.referencedAfter(cv) || o.referencedInOperations(cv) then Returned(None)
    else match InitialCheckValue(cv)
      case None => Returned(None)
      case Some(initVal) =>
        if |stmts| == 0 then (if fixed then Returned(None) else Thrown(IndexOutOfBounds))
        else if !stmts[0].IfStmt? then Returned(None)
        else
          var ifStmt := stmts[0];
          var appendElse :=
            if initVal then IsReferenceTo(ifStmt.condition, cv) else IsNegatedReferenceTo(ifStmt.condition, cv);
          var checkBranch := if appendElse then ifStmt.thenBranch else ifStmt.elseBranch;
          var appendBranch := if appendElse then ifStmt.elseBranch else ifStmt.thenBranch;
          if NotBlock(checkBranch) || NotBlock(appendBranch) then (if fixed then Returned(None) else Thrown(ClassCast))
          else BranchSetup(fixed, o, |stmts|, t, cv, initVal, checkBranch, appendBranch)
  }

  /**
   * The second half of `CheckSetup`, once both branches are blocks or
   * absent: the append branch appends one constant `String` delimiter, and
   * the check branch resets `cv` (two statements) or is absent (three).
   */
  function BranchSetup(fixed: bool, o: Oracles, count: nat, t: Target, cv: Var, initVal: bool,
                       checkBranch: Option<Statement>, appendBranch: Option<Statement>): Outcome<Option<Setup>>
    requires !NotBlock(checkBranch) && !NotBlock(appendBranch)
  {
    if appendBranch.None? || |appendBranch.value.statements| != 1 then Returned(None)
    else
      var delim := GetAppendParam(o, Some(t.variable), Some(appendBranch.value.statements[0]), t.stringConcat);
      if delim.None? || delim.value.typ != Some(ClassType(JavaLangString)) then Returned(None)
      else match IsConstantValue(o, delim.value)
        case Thrown(e) => Thrown(e)
        case Returned(constant) =>
          if !constant then Returned(None)
          else if count == 2 then
            if checkBranch.None? then (if fixed then Returned(None) else Thrown(NoSuchElement))
            else if |checkBranch.value.statements| != 1 then Returned(None)
            else if !IsValidFISetter(checkBranch.value.statements[0], cv, initVal, true) then Returned(None)
            else Returned(Some(Setup(initVal, false)))
          else if checkBranch.Some? then Returned(None)
          else Returned(Some(Setup(initVal, true)))
  }

  /** `expressionHasTypeOrSubtype(e, "java.lang.String")`; `String` is final, so this is its exact type. */
  predicate HasStringType(e: Option<Expr>) {
    e.Some? && e.value.typ == Some(ClassType(JavaLangString))
  }

  /**
   * The append part of `getJoinedVariable`: a builder's constructor takes at
   * most one `String`, the target is unreferenced in the operations, and the
   * last statement (or, with a trailing reset, the one before it) appends a
   * `String` that does not use the target, the other one resetting the check
   * variable.
   */
  function Finish(o: Oracles, stmts: seq<Statement>, t: Target, cv: Option<Var>, s: Setup): Option<Var>
    requires |stmts| >= 1 && (s.trailingSwitch ==> |stmts| == 3 && cv.Some?)
  {
    if !t.stringConcat && !InitArgumentsMatch(t.variable, BuilderSignatures()) then None
    else if o.referencedInOperations(t.variable) then None
    else
      var last := GetAppendParam(o, Some(t.variable), Some(stmts[|stmts| - 1]), t.stringConcat);
      if !HasStringType(last) then
        if !s.trailingSwitch then None
        else
          var previous := GetAppendParam(o, Some(t.variable), Some(stmts[|stmts| - 2]), t.stringConcat);
          if !HasStringType(previous) then None
          else if !IsValidFISetter(stmts[|stmts| - 1], cv.value, s.initVal, false) then None
          else if o.variableIsUsed(t.variable, previous.value) then None
          else Some(t.variable)
      else if s.trailingSwitch && !IsValidFISetter(stmts[|stmts| - 2], cv.value, s.initVal, false) then None
      else if o.variableIsUsed(t.variable, last.value) then None
      else Some(t.variable)
  }

  /** Whether `getJoinedVariable` turns the block away by its length. */
  predicate RejectedLength(fixed: bool, n: nat) {
    if fixed then n == 0 || n > 3 else n != 0 && n > 3
  }

  /**
   * `getJoinedVariable`, for the terminal block's statements `stmts` and the
   * loop's variables `vars`; `fixed` selects the corrected variant.
   */
  function JoinedVariableWith(fixed: bool, o: Oracles, stmts: seq<Statement>, vars: seq<Var>): Outcome<Option<Var>> {
    if RejectedLength(fixed, |stmts|) then Returned(None)
    else match SelectTarget(o, vars)
      case None => Returned(None)
      case Some(t) =>
        var cv := CheckVariable(o, vars);
        if |stmts| != 1 && cv.None? then Returned(None)
        else if |stmts| != 1 then
          match CheckSetup(fixed, o, stmts, t, cv.value)
          case Thrown(e) => Thrown(e)
          case Returned(None) => Returned(None)
          case Returned(Some(s)) => Returned(Finish(o, stmts, t, cv, s))
        else Returned(Finish(o, stmts, t, cv, Setup(false, false)))
  }

  /** `getJoinedVariable` as written. */
  function JoinedVariable(o: Oracles, stmts: seq<Statement>, vars: seq<Var>): Outcome<Option<Var>> {
    JoinedVariableWith(false, o, stmts, vars)
  }

  /** `getJoinedVariable` with the three crashes turned into rejections. */
  function JoinedVariableCorrected(o: Oracles, stmts: seq<Statement>, vars: seq<Var>): Outcome<Option<Var>> {
    JoinedVariableWith(true, o, stmts, vars)
  }

  /**
   * The delimiter part of `getJoinedVariable`, as the source runs it: reads
   * the check variable's initial value, then takes the leading `if` apart.
   */
  method CheckDelimiter(o: Oracles, stmts: seq<Statement>, t: Target, cv: Var) returns (setup: Outcome<Option<Setup>>)
    ensures setup == CheckSetup(false, o, stmts, t, cv)
  {
    if !o.initializerKnown(cv) { return Returned(None); }
    if o.referencedAfter(cv) { return Returned(None); }
    if o.referencedInOperations(cv) { return Returned(None); }
    var initVal := false;
    var initializer := cv.initializer;
    if initializer.Some? && initializer.value.Literal? && initializer.value.typ == Some(Prim(Boolean)) {
      var tVal := BooleanValue(initializer.value);
      if tVal.None? { return Returned(None); }
      initVal := tVal.value;
    }

    if |stmts| == 0 { return Thrown(IndexOutOfBounds); }
    if !stmts[0].IfStmt? { return Returned(None); }
    var ifStmt := stmts[0];

    var appendElse;
    if initVal {
      appendElse := IsReferenceTo(ifStmt.condition, cv);
    } else {
      appendElse := IsNegatedReferenceTo(ifStmt.condition, cv);
    }

    var checkBranch := if appendElse then ifStmt.thenBranch else ifStmt.elseBranch;
    if NotBlock(checkBranch) { return Thrown(ClassCast); }
    var appendBranch := if appendElse then ifStmt.elseBranch else ifStmt.thenBranch;
    if NotBlock(appendBranch) { return Thrown(ClassCast); }

    setup := CheckBranches(o, |stmts|, t, cv, initVal, checkBranch, appendBranch);
  }

  /** The branch checks of the delimiter part, as the source runs them once both branches are blocks or absent. */
  method CheckBranches(o: Oracles, count: nat, t: Target, cv: Var, initVal: bool,
                       checkBranch: Option<Statement>, appendBranch: Option<Statement>) returns (setup: Outcome<Option<Setup>>)
    requires !NotBlock(checkBranch) && !NotBlock(appendBranch)
    ensures setup == BranchSetup(false, o, count, t, cv, initVal, checkBranch, appendBranch)
  {
    if appendBranch.None? { return Returned(None); }

    if |appendBranch.value.statements| != 1 { return Returned(None); }
    var delim := GetAppendParam(o, Some(t.variable), Some(appendBranch.value.statements[0]), t.stringConcat);
    if !HasStringType(delim) { return Returned(None); }
    var constant := IsConstantValue(o, delim.value);
    if constant.Thrown? { return Thrown(constant.exception); }
    if !constant.value { return Returned(None); }

    if count == 2 {
      if checkBranch.None? { return Thrown(NoSuchElement); }
      if |checkBranch.value.statements| != 1 { return Returned(None); }
      if !IsValidFISetter(checkBranch.value.statements[0], cv, initVal, true) { return Returned(None); }
      return Returned(Some(Setup(initVal, false)));
    }
    if checkBranch.Some? { return Returned(None); }
    return Returned(Some(Setup(initVal, true)));
  }

  /**
   * The append part of `getJoinedVariable`, as the source runs it: the
   * builder's constructor, then the statement that appends and, with a
   * trailing reset, the one that resets the check variable.
   */
  method CheckAppend(o: Oracles, stmts: seq<Statement>, t: Target, checkVar: Option<Var>, s: Setup) returns (joined: Option<Var>)
    requires |stmts| >= 1 && (s.trailingSwitch ==> |stmts| == 3 && checkVar.Some?)
    ensures joined == Finish(o, stmts, t, checkVar, s)
  {
    if !t.stringConcat {
      var ok := CheckInitArguments(t.variable, BuilderSignatures());
      if !ok { return None; }
    }

    if o.referencedInOperations(t.variable) { return None; }

    var appendParam := GetAppendParam(o, Some(t.variable), Some(stmts[|stmts| - 1]), t.stringConcat);
    if !HasStringType(appendParam) {
      if !s.trailingSwitch { return None; }
      appendParam := GetAppendParam(o, Some(t.variable), Some(stmts[|stmts| - 2]), t.stringConcat);
      if !HasStringType(appendParam) { return None; }
      if !IsValidFISetter(stmts[|stmts| - 1], checkVar.value, s.initVal, false) { return None; }
    } else if s.trailingSwitch {
      if !IsValidFISetter(stmts[|stmts| - 2], checkVar.value, s.initVal, false) { return None; }
    }

    if o.variableIsUsed(t.variable, appendParam.value) { return None; }

    return Some(t.variable);
  }

  /** `getJoinedVariable`: the length guard, the choice of target and check variable, then the two parts. */
  method GetJoinedVariable(o: Oracles, stmts: seq<Statement>, vars: seq<Var>) returns (result: Outcome<Option<Var>>)
    ensures result == JoinedVariable(o, stmts, vars)
  {
    if |stmts| != 0 && |stmts| > 3 { return Returned(None); }

    var stringConcat := false;
    var targetVar := FindFirst(vars, IsBuilder);
    if targetVar.None? {
      targetVar := FindFirst(vars, IsString);
      if targetVar.None? { return Returned(None); }
      stringConcat := true;
      if !o.initializerKnown(vars[targetVar.value]) { return Returned(None); }
    }
    var t := Target(vars[targetVar.value], stringConcat);
    assert SelectTarget(o, vars) == Some(t);

    var checkVar := CheckVariable(o, vars);
    if checkVar.None? && |stmts| != 1 { return Returned(None); }

    var setup := Setup(false, false);
    if checkVar.Some? && |stmts| != 1 {
      var delimited := CheckDelimiter(o, stmts, t, checkVar.value);
      if delimited.Thrown? { return Thrown(delimited.exception); }
      if delimited.value.None? { return Returned(None); }
      setup := delimited.value.value;
    }

    var joined := CheckAppend(o, stmts, t, checkVar, setup);
    return Returned(joined);
  }

  // ---------------------------------------------------------------------
  // Properties of getJoinedVariable.
  // ---------------------------------------------------------------------

  /** Only `StringBuilder` and `String` variables are appended to, and the two kinds never overlap. */
  lemma TargetKinds(o: Oracles, vars: seq<Var>)
    ensures SelectTarget(o, vars).Some? ==>
      var t := SelectTarget(o, vars).value;
      t.variable in vars && (t.stringConcat <==> IsString(t.variable)) && (!t.stringConcat <==> IsBuilder(t.variable))
    ensures SelectTarget(o, vars).Some? && SelectTarget(o, vars).value.stringConcat ==>
      o.initializerKnown(SelectTarget(o, vars).value.variable)
    ensures (exists i :: 0 <= i < |vars| && IsBuilder(vars[i])) ==>
      SelectTarget(o, vars).Some? && !SelectTarget(o, vars).value.stringConcat
  {
    assert JavaLangString[10] == 'S' && JavaLangStringBuilder[10] == 'S';
    assert |JavaLangString| != |JavaLangStringBuilder|;
  }

  /** What the append part accepts: it returns the target itself, which the operations do not reference and which, for a builder, is constructed with at most one `String`. */
  lemma FinishSpec(o: Oracles, stmts: seq<Statement>, t: Target, cv: Option<Var>, s: Setup)
    requires |stmts| >= 1 && (s.trailingSwitch ==> |stmts| == 3 && cv.Some?)
    ensures Finish(o, stmts, t, cv, s).Some? ==>
      && Finish(o, stmts, t, cv, s) == Some(t.variable)
      && !o.referencedInOperations(t.variable)
      && (!t.stringConcat ==> InitArgumentsMatch(t.variable, BuilderSignatures()))
  {
  }

  /**
   * `getJoinedVariable` joins into a variable of the loop only for a block
   * of one to three statements; it prefers a `StringBuilder` over a
   * `String`, a builder must be constructed with at most one `String`, and
   * a block of other than one statement needs a `boolean` check variable.
   * This holds as written and corrected.
   */
  lemma {:induction false} JoinedVariableSpec(fixed: bool, o: Oracles, stmts: seq<Statement>, vars: seq<Var>, v: Var)
    requires JoinedVariableWith(fixed, o, stmts, vars) == Returned(Some(v))
    ensures 1 <= |stmts| <= 3
    ensures v in vars && (IsBuilder(v) || IsString(v))
    ensures (exists i :: 0 <= i < |vars| && IsBuilder(vars[i])) ==> IsBuilder(v)
    ensures IsBuilder(v) ==> InitArgumentsMatch(v, BuilderSignatures())
    ensures !o.referencedInOperations(v)
    ensures |stmts| != 1 ==> exists i :: 0 <= i < |vars| && o.booleanAssignable(vars[i].typ)
  {
    TargetKinds(o, vars);
    var t := SelectTarget(o, vars).value;
    var cv := CheckVariable(o, vars);
    if |stmts| != 1 {
      assert cv.Some?;
      var i := FindFirst(vars, (w: Var) => o.booleanAssignable(w.typ)).value;
      assert o.booleanAssignable(vars[i].typ);
      var s := CheckSetup(fixed, o, stmts, t, cv.value).value.value;
      FinishSpec(o, stmts, t, cv, s);
    } else {
      FinishSpec(o, stmts, t, cv, Setup(false, false));
    }
  }

  /** Blocks of more than three statements are turned away, as written and corrected. */
  lemma LongBlocksRejected(fixed: bool, o: Oracles, stmts: seq<Statement>, vars: seq<Var>)
    requires |stmts| > 3
    ensures JoinedVariableWith(fixed, o, stmts, vars) == Returned(None)
  {
  }

  // ---------------------------------------------------------------------
  // The three crashes of getJoinedVariable, and the corrected variant.
  // ---------------------------------------------------------------------

  /**
   * An empty terminal block passes the length guard (`length != 0 && length > 3`)
   * and, when the loop has a usable check variable, reaches the first
   * statement of the block, which does not exist.
   */
  lemma EmptyBlockThrows(o: Oracles, vars: seq<Var>)
    requires SelectTarget(o, vars).Some? && CheckVariable(o, vars).Some?
    requires var cv := CheckVariable(o, vars).value;
      o.initializerKnown(cv) && !o.referencedAfter(cv) && !o.referencedInOperations(cv) && InitialCheckValue(cv).Some?
    ensures JoinedVariable(o, [], vars) == Thrown(IndexOutOfBounds)
    ensures JoinedVariableCorrected(o, [], vars) == Returned(None)
  {
  }

  /**
   * `if (!first) { sb.append(","); } sb.append(s);` with `boolean first = true`:
   * the delimiter is appended in the `then` branch and there is no `else`
   * branch, yet a two-statement block takes the missing branch's value.
   */
  lemma MissingCheckBranchThrows(o: Oracles, vars: seq<Var>, t: Target, cv: Var, condition: Expr, delim: Statement, append: Statement)
    requires SelectTarget(o, vars) == Some(t) && CheckVariable(o, vars) == Some(cv)
    requires o.initializerKnown(cv) && !o.referencedAfter(cv) && !o.referencedInOperations(cv)
    requires InitialCheckValue(cv) == Some(true) && !IsReferenceTo(Some(condition), cv)
    requires GetAppendParam(o, Some(t.variable), Some(delim), t.stringConcat) ==
      Some(Literal(Some(StringValue(",")), Some(ClassType(JavaLangString))))
    ensures JoinedVariable(o, [IfStmt(Some(condition), Some(BlockStmt([delim])), None), append], vars) == Thrown(NoSuchElement)
    ensures JoinedVariableCorrected(o, [IfStmt(Some(condition), Some(BlockStmt([delim])), None), append], vars) == Returned(None)
  {
  }

  /**
   * An `if` whose `then` branch is a single statement without braces, such
   * as `if (first) first = false; else sb.append(",");`, is cast to a block.
   */
  lemma UnbracedBranchThrows(o: Oracles, vars: seq<Var>, cv: Var, stmts: seq<Statement>)
    requires SelectTarget(o, vars).Some? && CheckVariable(o, vars) == Some(cv)
    requires o.initializerKnown(cv) && !o.referencedAfter(cv) && !o.referencedInOperations(cv)
    requires InitialCheckValue(cv).Some?
    requires 2 <= |stmts| <= 3 && stmts[0].IfStmt? && NotBlock(stmts[0].thenBranch)
    ensures JoinedVariable(o, stmts, vars) == Thrown(ClassCast)
    ensures JoinedVariableCorrected(o, stmts, vars) == Returned(None)
  {
  }

  /**
   * The three crashes are the only ones besides an unresolved constant
   * reference: as written, an empty block may fail on its first statement,
   * an unbraced branch on its cast, and a two-statement block on its
   * missing check branch.
   */
  lemma AsWrittenThrows(o: Oracles, stmts: seq<Statement>, vars: seq<Var>)
    ensures JoinedVariable(o, stmts, vars) == Thrown(IndexOutOfBounds) ==> |stmts| == 0
    ensures JoinedVariable(o, stmts, vars) == Thrown(NoSuchElement) ==> |stmts| == 2
    ensures JoinedVariable(o, stmts, vars) == Thrown(ClassCast) ==> 2 <= |stmts| <= 3 && stmts[0].IfStmt?
  {
  }

  /** Corrected, only an unresolved constant reference still throws. */
  lemma CorrectedThrowsOnlyNullPointer(o: Oracles, stmts: seq<Statement>, vars: seq<Var>)
    ensures JoinedVariableCorrected(o, stmts, vars).Thrown? ==> JoinedVariableCorrected(o, stmts, vars) == Thrown(NullPointer)
  {
  }

  /** The corrected variant returns what the code as written returns whenever that does not throw. */
  lemma CorrectedAgrees(o: Oracles, stmts: seq<Statement>, vars: seq<Var>)
    requires JoinedVariable(o, stmts, vars).Returned? || JoinedVariable(o, stmts, vars) == Thrown(NullPointer)
    ensures JoinedVariableCorrected(o, stmts, vars) == JoinedVariable(o, stmts, vars)
  {
    if 1 < |stmts| <= 3 && SelectTarget(o, vars).Some? && CheckVariable(o, vars).Some? {
      SetupAgrees(o, stmts, SelectTarget(o, vars).value, CheckVariable(o, vars).value);
    }
  }

  /** The delimiter part agrees with its corrected variant wherever it returns. */
  lemma SetupAgrees(o: Oracles, stmts: seq<Statement>, t: Target, cv: Var)
    requires CheckSetup(false, o, stmts, t, cv).Returned? || CheckSetup(false, o, stmts, t, cv) == Thrown(NullPointer)
    ensures CheckSetup(true, o, stmts, t, cv) == CheckSetup(false, o, stmts, t, cv)
  {
    if o.initializerKnown(cv) && !o.referencedAfter(cv) && !o.referencedInOperations(cv)
      && InitialCheckValue(cv).Some? && |stmts| > 0 && stmts[0].IfStmt?
    {
      var initVal := InitialCheckValue(cv).value;
      var ifStmt := stmts[0];
      var appendElse :=
        if initVal then IsReferenceTo(ifStmt.condition, cv) else IsNegatedReferenceTo(ifStmt.condition, cv);
      var checkBranch := if appendElse then ifStmt.thenBranch else ifStmt.elseBranch;
      var appendBranch := if appendElse then ifStmt.elseBranch else ifStmt.thenBranch;
      if !NotBlock(checkBranch) && !NotBlock(appendBranch) {
        BranchSetupAgrees(o, |stmts|, t, cv, initVal, checkBranch, appendBranch);
      }
    }
  }

  /** The branch checks agree with their corrected variant wherever they return. */
  lemma BranchSetupAgrees(o: Oracles, count: nat, t: Target, cv: Var, initVal: bool,
                          checkBranch: Option<Statement>, appendBranch: Option<Statement>)
    requires !NotBlock(checkBranch) && !NotBlock(appendBranch)
    requires BranchSetup(false, o, count, t, cv, initVal, checkBranch, appendBranch).Returned?
          || BranchSetup(false, o, count, t, cv, initVal, checkBranch, appendBranch) == Thrown(NullPointer)
    ensures BranchSetup(true, o, count, t, cv, initVal, checkBranch, appendBranch)
         == BranchSetup(false, o, count, t, cv, initVal, checkBranch, appendBranch)
  {
  }
}
