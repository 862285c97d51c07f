/**
 * The `StringBuilder` joining handler of the stream-migration inspection: a
 * loop over strings whose body is a single `sb.append(s)` on the loop's only
 * variable `sb` becomes a join. It also recognises a first-iteration
 * exclusion variable (`if (flag != literal) { ... }`).
 */
module StringBufferJoinHandling {
  import opened Wrappers
  import opened JavaTypes
  import opened JavaTree

  /**
   * The operand of a binary expression satisfying `p`, the right operand
   * taking precedence over the left one.
   */
  function PreferRight(b: Expr, p: Expr -> bool): (r: Option<Expr>)
    requires b.Binary?
    ensures r.Some? ==> p(r.value) && (r == b.rhs || (r == Some(b.lhs) && !(b.rhs.Some? && p(b.rhs.value))))
    ensures r.None? <==> !(b.rhs.Some? && p(b.rhs.value)) && !p(b.lhs)
  {
    if b.rhs.Some? && p(b.rhs.value) then b.rhs
    else if p(b.lhs) then Some(b.lhs)
    else None
  }

  predicate IsLiteral(e: Expr) { e.Literal? }

  predicate IsReference(e: Expr) { e.Ref? }

  /**
   * `getExclusionVar`: the local variable `v` of `if (v != c) { s1; s2; }`
   * (either operand order) leading the block, where `v` is initialized with
   * a literal of the same non-null value as `c`. As written, a `then`
   * branch that is not a block is cast to one and throws; with `fixed` it is
   * rejected.
   */
  function ExclusionVarWith(fixed: bool, stmts: seq<Statement>): Outcome<Option<Var>> {
    if |stmts| == 0 || !stmts[0].IfStmt? then Returned(None)
    else
      var ifStmt := stmts[0];
      if ifStmt.condition.None? || !ifStmt.condition.value.Binary? then Returned(None)
      else
        var b := ifStmt.condition.value;
        if b.op != Ne then Returned(None)
        else
          var checkVal := PreferRight(b, IsLiteral);
          var checkVar := PreferRight(b, IsReference);
          if checkVal.None? || checkVar.None? then Returned(None)
          else match checkVar.value.resolved
            case Some(VarElement(v)) =>
              if v.kind != LocalVar then Returned(None)
              else if v.initializer.None? || !v.initializer.value.Literal? then Returned(None)
              else if v.initializer.value.value.None? || checkVal.value.value.None? then Returned(None)
              else if v.initializer.value.value != checkVal.value.value then Returned(None)
              else if ifStmt.thenBranch.None? then Returned(None)
              else if !ifStmt.thenBranch.value.BlockStmt? then (if fixed then Returned(None) else Thrown(ClassCast))
              else if |ifStmt.thenBranch.value.statements| != 2 then Returned(None)
              else Returned(Some(v))
            case _ => Returned(None)
  }

  /** `getExclusionVar` as written. */
  function ExclusionVar(stmts: seq<Statement>): Outcome<Option<Var>> {
    ExclusionVarWith(false, stmts)
  }

  /** `getExclusionVar` with the cast of the `then` branch guarded. */
  function ExclusionVarCorrected(stmts: seq<Statement>): Outcome<Option<Var>> {
    ExclusionVarWith(true, stmts)
  }

  /**
   * The exclusion variable is the local variable compared with `!=` in the
   * leading `if`, compared with the literal it is initialized to, and the
   * `then` branch is a block of two statements.
   */
  lemma ExclusionVarSpec(fixed: bool, stmts: seq<Statement>, v: Var)
    requires ExclusionVarWith(fixed, stmts) == Returned(Some(v))
    ensures |stmts| > 0 && stmts[0].IfStmt?
    ensures var c := stmts[0].condition;
      && c.Some? && c.value.Binary? && c.value.op == Ne
      && ResolveVariable(PreferRight(c.value, IsReference)) == Some(v)
      && PreferRight(c.value, IsLiteral).Some?
      && v.kind == LocalVar && v.initializer.Some? && v.initializer.value.Literal?
      && v.initializer.value.value.Some?
      && v.initializer.value.value == PreferRight(c.value, IsLiteral).value.value
    ensures var branch := stmts[0].thenBranch;
      branch.Some? && branch.value.BlockStmt? && |branch.value.statements| == 2
  {
  }

  /** The operands may come in either order: `v != c` and `c != v` give the same exclusion variable. */
  lemma ExclusionVarSymmetric(r: Expr, c: Expr, t: Option<JType>, branch: Option<Statement>, other: Option<Statement>, rest: seq<Statement>)
    requires r.Ref? && c.Literal?
    ensures ExclusionVar([IfStmt(Some(Binary(Ne, r, Some(c), t)), branch, other)] + rest) ==
            ExclusionVar([IfStmt(Some(Binary(Ne, c, Some(r), t)), branch, other)] + rest)
  {
  }

  /**
   * `double d = a; ... if (d != b) { s1; s2; }` finds `d` exactly when the two
   * literals have the same bit pattern, as `Double.equals` decides: so `0.5`
   * against `0.50` is accepted, since both spell the same value.
   */
  lemma DoubleExclusionComparesBits(v: Var, a: bv64, b: bv64, t: Option<JType>, s1: Statement, s2: Statement, rest: seq<Statement>)
    requires v.kind == LocalVar && v.initializer == Some(Literal(Some(DoubleValue(a)), Some(Prim(Double))))
    ensures ExclusionVar([IfStmt(Some(Binary(Ne, Ref(Some(VarElement(v)), Some(Prim(Double))),
                                            Some(Literal(Some(DoubleValue(b)), Some(Prim(Double)))), t)),
                                 Some(BlockStmt([s1, s2])), None)] + rest)
         == Returned(if a == b then Some(v) else None)
  {
  }

  /**
   * `if (first != true) first = false;` (an unbraced `then` branch) with
   * `boolean first = true` throws as written and is rejected when corrected.
   */
  lemma UnbracedExclusionThrows(v: Var, r: Expr, c: Expr, t: Option<JType>, body: Statement, other: Option<Statement>, rest: seq<Statement>)
    requires r == Ref(Some(VarElement(v)), Some(Prim(Boolean))) && c == Literal(Some(BoolValue(true)), Some(Prim(Boolean)))
    requires v.kind == LocalVar && v.initializer == Some(c)
    requires !body.BlockStmt?
    ensures ExclusionVar([IfStmt(Some(Binary(Ne, r, Some(c), t)), Some(body), other)] + rest) == Thrown(ClassCast)
    ensures ExclusionVarCorrected([IfStmt(Some(Binary(Ne, r, Some(c), t)), Some(body), other)] + rest) == Returned(None)
  {
  }

  /** The only crash of `getExclusionVar`, and the corrected variant agrees otherwise. */
  lemma ExclusionVarCorrectedAgrees(stmts: seq<Statement>)
    ensures ExclusionVarCorrected(stmts).Returned?
    ensures ExclusionVar(stmts).Thrown? ==> ExclusionVar(stmts) == Thrown(ClassCast) && ExclusionVarCorrected(stmts) == Returned(None)
    ensures ExclusionVar(stmts).Returned? ==> ExclusionVarCorrected(stmts) == ExclusionVar(stmts)
  {
  }

  /**
   * `isAppendCall`: the call's first argument is the loop variable and its
   * name is `append`; an unqualified or `this`-qualified call must not sit
   * inside a method named `append` (`enclosingMethod` names the method
   * around the call), and a qualified one must not be qualified by another
   * call. As written the first argument is read before anything else is
   * checked and a call without arguments throws; with `fixed` it is rejected.
   */
  function IsAppendCallWith(fixed: bool, loopVar: Var, call: Expr, enclosingMethod: Option<string>): Outcome<bool>
    requires call.Call?
  {
    if |call.args| == 0 then (if fixed then Returned(false) else Thrown(IndexOutOfBounds))
    else if !IsReferenceTo(Some(call.args[0]), loopVar) then Returned(false)
    else if call.name != "append" then Returned(false)
    else if call.qualifier.None? || call.qualifier.value.This? then
      Returned(enclosingMethod.None? || enclosingMethod.value != "append")
    else Returned(!call.qualifier.value.Call?)
  }

  /** `isAppendCall` as written. */
  function IsAppendCall(loopVar: Var, call: Expr, enclosingMethod: Option<string>): Outcome<bool>
    requires call.Call?
  {
    IsAppendCallWith(false, loopVar, call, enclosingMethod)
  }

  /** `isAppendCall` with the argument count checked first. */
  function IsAppendCallCorrected(loopVar: Var, call: Expr, enclosingMethod: Option<string>): bool
    requires call.Call?
  {
    IsAppendCallWith(true, loopVar, call, enclosingMethod).value
  }

  /**
   * An append call is `append` applied first to the loop variable, not
   * recursively inside an `append` method and not chained on another call;
   * as written it throws exactly on a call without arguments, and the
   * corrected variant agrees everywhere else.
   */
  lemma AppendCallSpec(loopVar: Var, call: Expr, enclosingMethod: Option<string>)
    requires call.Call?
    ensures IsAppendCall(loopVar, call, enclosingMethod).Thrown? <==> |call.args| == 0
    ensures IsAppendCall(loopVar, call, enclosingMethod).Returned? ==>
      IsAppendCall(loopVar, call, enclosingMethod).value == IsAppendCallCorrected(loopVar, call, enclosingMethod)
    ensures IsAppendCallCorrected(loopVar, call, enclosingMethod) <==>
      && |call.args| > 0 && IsReferenceTo(Some(call.args[0]), loopVar) && call.name == "append"
      && (call.qualifier.None? || call.qualifier.value.This? ==> enclosingMethod != Some("append"))
      && (call.qualifier.Some? && !call.qualifier.value.This? ==> !call.qualifier.value.Call?)
  {
  }

  /** `isCallSubject`: the call's qualifier is a reference that resolves to `v`. */
  predicate IsCallSubject(v: Var, call: Expr)
    requires call.Call?
  {
    && call.qualifier.Some? && call.qualifier.value.Ref?
    && call.qualifier.value.resolved.Some? && call.qualifier.value.resolved.value == VarElement(v)
  }

  /** A call's subject is exactly the variable its qualifier resolves to. */
  lemma CallSubjectSpec(v: Var, call: Expr)
    requires call.Call?
    ensures IsCallSubject(v, call) <==> ResolveVariable(call.qualifier) == Some(v)
  {
  }

  /**
   * `getJoinedVariable`, for the loop variable, the loop's variables, which
   * variables the terminal block's operations reference, the block's single
   * method call (absent when it is not one), and the method around it. As
   * written the append check may throw; with `fixed` it uses the corrected
   * check.
   */
  function JoinedVariableWith(fixed: bool, loopVar: Var, vars: seq<Var>, referencedInOperations: Var -> bool,
                              singleCall: Option<Expr>, enclosingMethod: Option<string>): Outcome<Option<Var>>
    requires singleCall.Some? ==> singleCall.value.Call?
  {
    if !EqualsToText(loopVar.typ, JavaLangString) then Returned(None)
    else if |vars| != 1 then Returned(None)
    else
      var v := vars[0];
      if !EqualsToText(v.typ, JavaLangStringBuilder) then Returned(None)
      else if referencedInOperations(v) then Returned(None)
      else if singleCall.None? then Returned(None)
      else match IsAppendCallWith(fixed, loopVar, singleCall.value, enclosingMethod)
        case Thrown(e) => Thrown(e)
        case Returned(isAppend) =>
          if !isAppend then Returned(None)
          else if !IsCallSubject(v, singleCall.value) then Returned(None)
          else Returned(Some(v))
  }

  /** `getJoinedVariable` as written. */
  function JoinedVariable(loopVar: Var, vars: seq<Var>, referencedInOperations: Var -> bool,
                          singleCall: Option<Expr>, enclosingMethod: Option<string>): Outcome<Option<Var>>
    requires singleCall.Some? ==> singleCall.value.Call?
  {
    JoinedVariableWith(false, loopVar, vars, referencedInOperations, singleCall, enclosingMethod)
  }

  /** `getJoinedVariable` over the corrected append check. */
  function JoinedVariableCorrected(loopVar: Var, vars: seq<Var>, referencedInOperations: Var -> bool,
                                   singleCall: Option<Expr>, enclosingMethod: Option<string>): Option<Var>
    requires singleCall.Some? ==> singleCall.value.Call?
  {
    JoinedVariableWith(true, loopVar, vars, referencedInOperations, singleCall, enclosingMethod).value
  }

  /**
   * A variable is joined only when the loop variable is a `String`, the
   * loop has exactly that one variable, a `StringBuilder` unreferenced by
   * the operations, and the block's single call is `v.append(loopVar)`;
   * and then it is joined (corrected variant).
   */
  lemma JoinedVariableSpec(loopVar: Var, vars: seq<Var>, referencedInOperations: Var -> bool,
                           singleCall: Option<Expr>, enclosingMethod: Option<string>, v: Var)
    requires singleCall.Some? ==> singleCall.value.Call?
    ensures JoinedVariableCorrected(loopVar, vars, referencedInOperations, singleCall, enclosingMethod) == Some(v) <==>
      && EqualsToText(loopVar.typ, JavaLangString)
      && vars == [v] && EqualsToText(v.typ, JavaLangStringBuilder) && !referencedInOperations(v)
      && singleCall.Some? && IsAppendCallCorrected(loopVar, singleCall.value, enclosingMethod)
      && ResolveVariable(singleCall.value.qualifier) == Some(v)
    ensures |vars| != 1 ==> JoinedVariable(loopVar, vars, referencedInOperations, singleCall, enclosingMethod) == Returned(None)
  {
    if singleCall.Some? {
      CallSubjectSpec(v, singleCall.value);
      AppendCallSpec(loopVar, singleCall.value, enclosingMethod);
    }
  }

  /**
   * `StringBuilder sb = ...; for (String s : list) { sb.reverse(); }`: the
   * single call has no argument, so the append check reads past the end of
   * the argument list; corrected, the loop is simply not joined.
   */
  lemma NoArgumentCallThrows(loopVar: Var, sb: Var, referencedInOperations: Var -> bool, call: Expr, enclosingMethod: Option<string>)
    requires EqualsToText(loopVar.typ, JavaLangString) && EqualsToText(sb.typ, JavaLangStringBuilder)
    requires !referencedInOperations(sb) && call.Call? && call.args == []
    ensures JoinedVariable(loopVar, [sb], referencedInOperations, Some(call), enclosingMethod) == Thrown(IndexOutOfBounds)
    ensures JoinedVariableCorrected(loopVar, [sb], referencedInOperations, Some(call), enclosingMethod) == None
  {
  }

  /** The corrected variant never throws and returns what the code as written returns whenever that does not throw. */
  lemma JoinedVariableCorrectedAgrees(loopVar: Var, vars: seq<Var>, referencedInOperations: Var -> bool,
                                     singleCall: Option<Expr>, enclosingMethod: Option<string>)
    requires singleCall.Some? ==> singleCall.value.Call?
    ensures JoinedVariableWith(true, loopVar, vars, referencedInOperations, singleCall, enclosingMethod).Returned?
    ensures var w := JoinedVariable(loopVar, vars, referencedInOperations, singleCall, enclosingMethod);
      w.Returned? ==> w.value == JoinedVariableCorrected(loopVar, vars, referencedInOperations, singleCall, enclosingMethod)
  {
  }
}
