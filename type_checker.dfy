/**
 * Type checking (src/semantics/type_checker.rs).
 *
 * The checker walks a program of top-level declarations with one flat
 * symbol table that records, for every name, whether it is an `int` or a
 * function of a given arity, and whether a function has a body yet.
 * Parameters are entered for the body of a function and removed after it.
 *
 * The checker matches on a richer tree than src/ast.rs declares (top-level
 * declarations, function declarations with parameters, calls); that tree
 * is declared here. The functions below give the result and the new table
 * of each routine; the class methods are proved equal to them.
 */
module TypeChecking {
  import opened Wrappers
  import opened Common
  import U = UncheckedAst

  // ---------------------------------------------------------------
  // The tree the checker reads
  // ---------------------------------------------------------------

  datatype Expression =
    | Constant(value: int)
    | Var(name: string)
    | FunctionCall(name: string, args: seq<Expression>)
    | Assign(left: Expression, right: Expression)
    | Unary(operator: U.UnaryOperator, expression: Expression)
    | Binary(binop: U.BinaryOperator, left: Expression, right: Expression)
    | Conditional(condition: Expression, left: Expression, right: Expression)

  datatype Declaration =
    | FunctionDecl(name: string, params: seq<string>, body: Option<Block>)
    | Variable(name: string, init: Option<Expression>)

  datatype Statement =
    | Return(exp: Expression)
    | Expression(exp: Expression)
    | Empty
    | If(condition: Expression, thenStat: Statement, elseStat: Option<Statement>)
    | Compound(block: Block)
    | While(condition: Expression, body: Statement)
    | DoWhile(body: Statement, condition: Expression)
    | For(init: Option<BlockItem>, cond: Option<Expression>, post: Option<Expression>, body: Statement)
    | Break
    | Continue

  datatype BlockItem = S(stmt: Statement) | D(decl: Declaration)

  datatype Block = Block(blocks: seq<BlockItem>)

  datatype Program = Program(declarations: seq<Declaration>)

  // ---------------------------------------------------------------
  // Types and the symbol table
  // ---------------------------------------------------------------

  /** `CType`: only a function's arity matters at this stage. */
  datatype CType = Int | Function(paramCount: nat)

  /** `Symbol`: a type, and for a function whether it has a body yet. */
  datatype Symbol = Symbol(cType: CType, defined: bool)

  type Symbols = map<string, Symbol>

  const IntSymbol := Symbol(Int, true)

  function IncompatibleMsg(name: string): string {
    "Incompatible declaration for function '" + name + "'"
  }

  function DefinedTwiceMsg(name: string): string {
    "Function '" + name + "' is defined more than once"
  }

  function UndeclaredMsg(name: string): string {
    "Internal error: undeclared identifier '" + name + "' after validation pass"
  }

  function FunctionAsVariableMsg(name: string): string {
    "Function '" + name + "' used as a variable"
  }

  function VariableAsFunctionMsg(name: string): string {
    "Variable '" + name + "' used as a function"
  }

  function ArityMsg(name: string, given: nat, expected: nat): string {
    "Function '" + name + "' called with " + NatToString(given) + " arguments, but expects " + NatToString(expected)
  }

  // ---------------------------------------------------------------
  // Expressions: read the table only
  // ---------------------------------------------------------------

  /**
   * `check_expression`: a variable must be an `int`; a call must name a
   * function with as many parameters as there are arguments, and then its
   * arguments are checked left to right; everything else checks its
   * operands in order.
   */
  function CheckExpr(e: Expression, syms: Symbols): Result<()>
    decreases e, 1
  {
    match e
    case Constant(_) => Ok(())
    case Var(name) =>
      if name !in syms then Err(UndeclaredMsg(name))
      else if syms[name].cType.Function? then Err(FunctionAsVariableMsg(name))
      else Ok(())
    case FunctionCall(name, args) =>
      if name !in syms then Err(UndeclaredMsg(name))
      else if syms[name].cType.Int? then Err(VariableAsFunctionMsg(name))
      else if |args| != syms[name].cType.paramCount then Err(ArityMsg(name, |args|, syms[name].cType.paramCount))
      else ArgsFrom(args, 0, syms)
    case Assign(left, right) =>
      var _ :- CheckExpr(left, syms);
      CheckExpr(right, syms)
    case Unary(_, inner) => CheckExpr(inner, syms)
    case Binary(_, left, right) =>
      var _ :- CheckExpr(left, syms);
      CheckExpr(right, syms)
    case Conditional(c, left, right) =>
      var _ :- CheckExpr(c, syms);
      var _ :- CheckExpr(left, syms);
      CheckExpr(right, syms)
  }

  /** The arguments from `k` on, stopping at the first error. */
  function ArgsFrom(args: seq<Expression>, k: nat, syms: Symbols): Result<()>
    requires k <= |args|
    decreases args, |args| - k
  {
    if k == |args| then Ok(())
    else
      var _ :- CheckExpr(args[k], syms);
      ArgsFrom(args, k + 1, syms)
  }

  // ---------------------------------------------------------------
  // Parameters
  // ---------------------------------------------------------------

  /** The table after entering each parameter, in order, as an `int`. */
  function WithParams(syms: Symbols, params: seq<string>): Symbols
    decreases |params|
  {
    if |params| == 0 then syms else WithParams(syms, params[..|params| - 1])[params[|params| - 1] := IntSymbol]
  }

  /** The table after removing each parameter, in order. */
  function WithoutParams(syms: Symbols, params: seq<string>): Symbols
    decreases |params|
  {
    if |params| == 0 then syms else WithoutParams(syms, params[..|params| - 1]) - {params[|params| - 1]}
  }

  // ---------------------------------------------------------------
  // Declarations, statements and blocks: the table changes
  // ---------------------------------------------------------------

  /** The entry a function declaration records: its arity, defined if it was or if this one has a body. */
  function FunctionEntry(params: seq<string>, hasBody: bool, syms: Symbols, name: string): Symbol {
    Symbol(Function(|params|), (name in syms && syms[name].defined) || hasBody)
  }

  /** `check_declaration`. */
  function DeclAt(decl: Declaration, syms: Symbols): (Result<()>, Symbols)
    decreases decl, 1
  {
    match decl
    case FunctionDecl(name, params, body) =>
      var funType := Function(|params|);
      if name in syms && syms[name].cType != funType then (Err(IncompatibleMsg(name)), syms)
      else if name in syms && syms[name].defined && body.Some? then (Err(DefinedTwiceMsg(name)), syms)
      else
        var s1 := syms[name := FunctionEntry(params, body.Some?, syms, name)];
        if body.None? then (Ok(()), s1) else BodyAt(params, body.value, s1)
    case Variable(name, init) =>
      var s1 := syms[name := IntSymbol];
      if init.None? then (Ok(()), s1) else (CheckExpr(init.value, s1), s1)
  }

  /** A function body: parameters entered, the block checked, parameters removed on success. */
  function BodyAt(params: seq<string>, body: Block, syms: Symbols): (Result<()>, Symbols)
    decreases body, 0
  {
    var (r, s2) := BlockFrom(body.blocks, 0, WithParams(syms, params));
    if r.Err? then (r, s2) else (Ok(()), WithoutParams(s2, params))
  }

  /** `check_statement`: `Empty`, `Break` and `Continue` always pass. */
  function StmtAt(s: Statement, syms: Symbols): (Result<()>, Symbols)
    decreases s, 1
  {
    match s
    case Return(e) => (CheckExpr(e, syms), syms)
    case Expression(e) => (CheckExpr(e, syms), syms)
    case If(c, t, e) =>
      var rc := CheckExpr(c, syms);
      if rc.Err? then (rc, syms)
      else
        var (rt, s1) := StmtAt(t, syms);
        if rt.Err? || e.None? then (rt, s1) else StmtAt(e.value, s1)
    case Compound(b) => BlockFrom(b.blocks, 0, syms)
    case For(init, c, post, body) => ForAt(init, c, post, body, syms)
    case While(c, body) =>
      var rc := CheckExpr(c, syms);
      if rc.Err? then (rc, syms) else StmtAt(body, syms)
    case DoWhile(body, c) =>
      var (rb, s1) := StmtAt(body, syms);
      if rb.Err? then (rb, s1) else (CheckExpr(c, s1), s1)
    case Empty => (Ok(()), syms)
    case Break => (Ok(()), syms)
    case Continue => (Ok(()), syms)
  }

  /** A `for` loop: its init item, condition and post expression, then its body. */
  function ForAt(init: Option<BlockItem>, c: Option<Expression>, post: Option<Expression>, body: Statement,
                 syms: Symbols): (Result<()>, Symbols)
    decreases For(init, c, post, body), 0
  {
    var (ri, s1) := if init.Some? then ItemAt(init.value, syms) else (Ok(()), syms);
    if ri.Err? then (ri, s1)
    else
      var rc := if c.Some? then CheckExpr(c.value, s1) else Ok(());
      if rc.Err? then (rc, s1)
      else
        var rp := if post.Some? then CheckExpr(post.value, s1) else Ok(());
        if rp.Err? then (rp, s1) else StmtAt(body, s1)
  }

  function ItemAt(item: BlockItem, syms: Symbols): (Result<()>, Symbols)
    decreases item
  {
    match item
    case S(s) => StmtAt(s, syms)
    case D(decl) => DeclAt(decl, syms)
  }

  /** `check_block` from item `k` on, stopping at the first error. */
  function BlockFrom(items: seq<BlockItem>, k: nat, syms: Symbols): (Result<()>, Symbols)
    requires k <= |items|
    decreases items, |items| - k
  {
    if k == |items| then (Ok(()), syms)
    else
      var (r, s1) := ItemAt(items[k], syms);
      if r.Err? then (r, s1) else BlockFrom(items, k + 1, s1)
  }

  /** `check_program`: the top-level declarations from `k` on, stopping at the first error. */
  function DeclsFrom(decls: seq<Declaration>, k: nat, syms: Symbols): (Result<()>, Symbols)
    requires k <= |decls|
    decreases |decls| - k
  {
    if k == |decls| then (Ok(()), syms)
    else
      var (r, s1) := DeclAt(decls[k], syms);
      if r.Err? then (r, s1) else DeclsFrom(decls, k + 1, s1)
  }

  // ---------------------------------------------------------------
  // The checker
  // ---------------------------------------------------------------

  class TypeChecker {
    var symbols: Symbols

    constructor ()
      ensures symbols == map[]
    {
      symbols := map[];
    }

    method CheckProgram(prog: Program) returns (r: Result<()>)
      modifies this
      ensures (r, symbols) == DeclsFrom(prog.declarations, 0, old(symbols))
    {
      for k := 0 to |prog.declarations|
        invariant DeclsFrom(prog.declarations, 0, old(symbols)) == DeclsFrom(prog.declarations, k, symbols)
      {
        var d := CheckDeclaration(prog.declarations[k]);
        if d.Err? {
          return d;
        }
      }
      r := Ok(());
    }

    method CheckDeclaration(decl: Declaration) returns (r: Result<()>)
      modifies this
      decreases decl, 1
      ensures (r, symbols) == DeclAt(decl, old(symbols))
    {
      match decl {
        case FunctionDecl(name, params, body) =>
          var funType := Function(|params|);
          var hasBody := body.Some?;
          var alreadyDefined := false;
          if name in symbols {
            if symbols[name].cType != funType {
              return Err(IncompatibleMsg(name));
            }
            alreadyDefined := symbols[name].defined;
          }
          if alreadyDefined && hasBody {
            return Err(DefinedTwiceMsg(name));
          }
          symbols := symbols[name := Symbol(funType, alreadyDefined || hasBody)];
          assert symbols == old(symbols)[name := FunctionEntry(params, hasBody, old(symbols), name)];
          if body.Some? {
            ghost var entered := symbols;
            for k := 0 to |params|
              invariant symbols == WithParams(entered, params[..k])
            {
              assert params[..k + 1][..k] == params[..k];
              symbols := symbols[params[k] := IntSymbol];
            }
            assert params[..|params|] == params;
            var b := CheckBlock(body.value);
            assert (b, symbols) == BlockFrom(body.value.blocks, 0, WithParams(entered, params));
            if b.Err? {
              return b;
            }
            ghost var checked := symbols;
            for k := 0 to |params|
              invariant symbols == WithoutParams(checked, params[..k])
            {
              assert params[..k + 1][..k] == params[..k];
              symbols := symbols - {params[k]};
            }
            assert params[..|params|] == params;
            assert (Ok(()), symbols) == DeclAt(decl, old(symbols));
          } else {
            assert (Ok(()), symbols) == DeclAt(decl, old(symbols));
          }
        case Variable(name, init) =>
          symbols := symbols[name := IntSymbol];
          if init.Some? {
            var e := CheckExpression(init.value);
            if e.Err? {
              return e;
            }
            assert e.value == ();
            assert e == Ok(());
          }
      }
      r := Ok(());
    }

    method CheckBlock(b: Block) returns (r: Result<()>)
      modifies this
      decreases b.blocks, |b.blocks| + 1
      ensures (r, symbols) == BlockFrom(b.blocks, 0, old(symbols))
    {
      for k := 0 to |b.blocks|
        invariant BlockFrom(b.blocks, 0, old(symbols)) == BlockFrom(b.blocks, k, symbols)
      {
        var item := CheckBlockItem(b.blocks[k]);
        if item.Err? {
          return item;
        }
      }
      r := Ok(());
    }

    method CheckBlockItem(item: BlockItem) returns (r: Result<()>)
      modifies this
      decreases item
      ensures (r, symbols) == ItemAt(item, old(symbols))
    {
      match item {
        case S(s) => r := CheckStatement(s);
        case D(decl) => r := CheckDeclaration(decl);
      }
    }

    method CheckStatement(s: Statement) returns (r: Result<()>)
      modifies this
      decreases s, 1
      ensures (r, symbols) == StmtAt(s, old(symbols))
    {
      match s {
        case Return(e) => r := CheckExpression(e);
        case Expression(e) => r := CheckExpression(e);
        case If(c, t, e) =>
          var rc := CheckExpression(c);
          if rc.Err? {
            return rc;
          }
          r := CheckStatement(t);
          if r.Err? || e.None? {
            return;
          }
          r := CheckStatement(e.value);
        case Compound(b) => r := CheckBlock(b);
        case For(init, c, post, body) => r := CheckFor(init, c, post, body);
        case While(c, body) =>
          var rc := CheckExpression(c);
          if rc.Err? {
            return rc;
          }
          r := CheckStatement(body);
        case DoWhile(body, c) =>
          r := CheckStatement(body);
          if r.Err? {
            return;
          }
          r := CheckExpression(c);
        case Empty => r := Ok(());
        case Break => r := Ok(());
        case Continue => r := Ok(());
      }
    }

    method CheckFor(init: Option<BlockItem>, c: Option<Expression>, post: Option<Expression>, body: Statement)
      returns (r: Result<()>)
      modifies this
      decreases For(init, c, post, body), 0
      ensures (r, symbols) == ForAt(init, c, post, body, old(symbols))
    {
      if init.Some? {
        var ri := CheckBlockItem(init.value);
        if ri.Err? {
          return ri;
        }
      }
      if c.Some? {
        var rc := CheckExpression(c.value);
        if rc.Err? {
          return rc;
        }
      }
      if post.Some? {
        var rp := CheckExpression(post.value);
        if rp.Err? {
          return rp;
        }
      }
      r := CheckStatement(body);
    }

    /** `check_expression` only reads the table; the arguments of a call are checked in a loop. */
    method CheckExpression(e: Expression) returns (r: Result<()>)
      decreases e, 1
      ensures r == CheckExpr(e, symbols)
    {
      match e {
        case Constant(_) => r := Ok(());
        case Var(name) =>
          if name !in symbols {
            return Err(UndeclaredMsg(name));
          }
          if symbols[name].cType.Function? {
            return Err(FunctionAsVariableMsg(name));
          }
          r := Ok(());
        case FunctionCall(name, args) =>
          if name !in symbols {
            return Err(UndeclaredMsg(name));
          }
          match symbols[name].cType {
            case Int => r := Err(VariableAsFunctionMsg(name));
            case Function(paramCount) =>
              if |args| != paramCount {
                return Err(ArityMsg(name, |args|, paramCount));
              }
              for k := 0 to |args|
                invariant ArgsFrom(args, 0, symbols) == ArgsFrom(args, k, symbols)
              {
                var a := CheckExpression(args[k]);
                if a.Err? {
                  return a;
                }
              }
              r := Ok(());
          }
        case Assign(left, right) =>
          r := CheckExpression(left);
          if r.Err? {
            return;
          }
          r := CheckExpression(right);
        case Unary(_, inner) => r := CheckExpression(inner);
        case Binary(_, left, right) =>
          r := CheckExpression(left);
          if r.Err? {
            return;
          }
          r := CheckExpression(right);
        case Conditional(c, left, right) =>
          r := CheckExpression(c);
          if r.Err? {
            return;
          }
          r := CheckExpression(left);
          if r.Err? {
            return;
          }
          r := CheckExpression(right);
      }
    }
  }

  // ---------------------------------------------------------------
  // Expressions: what the checker accepts
  // ---------------------------------------------------------------

  /**
   * Well-typedness, stated independently of the order of the checks:
   * every variable is an `int` and every call names a function of the
   * call's arity.
   */
  predicate WellTyped(e: Expression, syms: Symbols)
    decreases e
  {
    match e
    case Constant(_) => true
    case Var(name) => name in syms && syms[name].cType == Int
    case FunctionCall(name, args) =>
      name in syms && syms[name].cType == Function(|args|) &&
      forall i :: 0 <= i < |args| ==> WellTyped(args[i], syms)
    case Assign(left, right) => WellTyped(left, syms) && WellTyped(right, syms)
    case Unary(_, inner) => WellTyped(inner, syms)
    case Binary(_, left, right) => WellTyped(left, syms) && WellTyped(right, syms)
    case Conditional(c, left, right) => WellTyped(c, syms) && WellTyped(left, syms) && WellTyped(right, syms)
  }

  /** The checker accepts an expression exactly when it is well typed. */
  lemma {:induction false} CheckExprAccepts(e: Expression, syms: Symbols)
    ensures CheckExpr(e, syms).Ok? <==> WellTyped(e, syms)
    decreases e, 1
  {
    match e
    case Constant(_) =>
    case Var(_) =>
    case FunctionCall(name, args) =>
      ArgsFromAccepts(args, 0, syms);
    case Assign(left, right) =>
      CheckExprAccepts(left, syms);
      CheckExprAccepts(right, syms);
    case Unary(_, inner) =>
      CheckExprAccepts(inner, syms);
    case Binary(_, left, right) =>
      CheckExprAccepts(left, syms);
      CheckExprAccepts(right, syms);
    case Conditional(c, left, right) =>
      CheckExprAccepts(c, syms);
      CheckExprAccepts(left, syms);
      CheckExprAccepts(right, syms);
  }

  lemma {:induction false} ArgsFromAccepts(args: seq<Expression>, k: nat, syms: Symbols)
    requires k <= |args|
    ensures ArgsFrom(args, k, syms).Ok? <==> forall i :: k <= i < |args| ==> WellTyped(args[i], syms)
    decreases args, |args| - k
  {
    if k < |args| {
      CheckExprAccepts(args[k], syms);
      ArgsFromAccepts(args, k + 1, syms);
    }
  }

  /**
   * The errors of a name: a missing name is an internal error, a function
   * used as a variable and an `int` called are rejected, and a call with
   * the wrong number of arguments reports both counts.
   */
  lemma NameErrors(name: string, args: seq<Expression>, syms: Symbols)
    ensures name !in syms ==>
      CheckExpr(Var(name), syms) == Err(UndeclaredMsg(name)) &&
      CheckExpr(FunctionCall(name, args), syms) == Err(UndeclaredMsg(name))
    ensures name in syms && syms[name].cType.Function? ==>
      CheckExpr(Var(name), syms) == Err(FunctionAsVariableMsg(name))
    ensures name in syms && syms[name].cType == Int ==>
      CheckExpr(FunctionCall(name, args), syms) == Err(VariableAsFunctionMsg(name))
    ensures name in syms && syms[name].cType.Function? && syms[name].cType.paramCount != |args| ==>
      CheckExpr(FunctionCall(name, args), syms) == Err(ArityMsg(name, |args|, syms[name].cType.paramCount))
  {
  }

  /** The first failing argument of a call is the error the call reports. */
  lemma {:induction false} FirstBadArgument(name: string, args: seq<Expression>, syms: Symbols, j: nat)
    requires name in syms && syms[name].cType == Function(|args|)
    requires j < |args| && CheckExpr(args[j], syms).Err?
    requires forall i :: 0 <= i < j ==> CheckExpr(args[i], syms).Ok?
    ensures CheckExpr(FunctionCall(name, args), syms) == CheckExpr(args[j], syms)
  {
    FirstBadFrom(args, 0, syms, j);
  }

  lemma {:induction false} FirstBadFrom(args: seq<Expression>, k: nat, syms: Symbols, j: nat)
    requires k <= j < |args| && CheckExpr(args[j], syms).Err?
    requires forall i :: k <= i < j ==> CheckExpr(args[i], syms).Ok?
    ensures ArgsFrom(args, k, syms) == CheckExpr(args[j], syms)
    decreases j - k
  {
    if k < j {
      FirstBadFrom(args, k + 1, syms, j);
    }
  }

  // ---------------------------------------------------------------
  // Parameters
  // ---------------------------------------------------------------

  /** Entering the parameters binds each to `int` and keeps every other entry. */
  lemma {:induction false} WithParamsShape(syms: Symbols, params: seq<string>)
    ensures forall n :: n in WithParams(syms, params) <==> n in syms || n in params
    ensures forall n :: n in params ==> WithParams(syms, params)[n] == IntSymbol
    ensures forall n :: n in syms && n !in params ==> WithParams(syms, params)[n] == syms[n]
    decreases |params|
  {
    if |params| > 0 {
      var front := params[..|params| - 1];
      WithParamsShape(syms, front);
      assert forall n :: n in params <==> n in front || n == params[|params| - 1] by {
        assert params == front + [params[|params| - 1]];
      }
    }
  }

  /**
   * Removing the parameters deletes every name among them, whatever it was
   * bound to before the function, and keeps every other entry.
   */
  lemma {:induction false} WithoutParamsShape(syms: Symbols, params: seq<string>)
    ensures forall n :: n in WithoutParams(syms, params) <==> n in syms && n !in params
    ensures forall n :: n in WithoutParams(syms, params) ==> WithoutParams(syms, params)[n] == syms[n]
    decreases |params|
  {
    if |params| > 0 {
      var front := params[..|params| - 1];
      WithoutParamsShape(syms, front);
      assert forall n :: n in params <==> n in front || n == params[|params| - 1] by {
        assert params == front + [params[|params| - 1]];
      }
    }
  }

  // ---------------------------------------------------------------
  // Declarations
  // ---------------------------------------------------------------

  /**
   * The two redeclaration rules: a different type is incompatible, and a
   * second body is a double definition; both leave the table as it was.
   * A compatible declaration without a body is accepted and keeps the
   * defined flag.
   */
  lemma RedeclarationRules(name: string, params: seq<string>, body: Option<Block>, syms: Symbols)
    ensures name in syms && syms[name].cType != Function(|params|) ==>
      DeclAt(FunctionDecl(name, params, body), syms) == (Err(IncompatibleMsg(name)), syms)
    ensures name in syms && syms[name] == Symbol(Function(|params|), true) && body.Some? ==>
      DeclAt(FunctionDecl(name, params, body), syms) == (Err(DefinedTwiceMsg(name)), syms)
    ensures (name !in syms || syms[name].cType == Function(|params|)) && body.None? ==>
      DeclAt(FunctionDecl(name, params, body), syms) ==
        (Ok(()), syms[name := Symbol(Function(|params|), name in syms && syms[name].defined)])
  {
  }

  /** A parameter list as the arguments of a call: `f(a, b)` for `f(int a, int b)`. */
  function ParamVars(params: seq<string>): (r: seq<Expression>)
    ensures |r| == |params|
    ensures forall i :: 0 <= i < |r| ==> r[i] == Var(params[i])
    decreases |params|
  {
    if |params| == 0 then [] else ParamVars(params[..|params| - 1]) + [Var(params[|params| - 1])]
  }

  /** Calling with the parameters themselves is well typed where the parameters are `int`s. */
  lemma {:induction false} ParamVarsWellTyped(params: seq<string>, w: Symbols)
    requires forall p :: p in params ==> p in w && w[p] == IntSymbol
    ensures forall i :: 0 <= i < |params| ==> WellTyped(ParamVars(params)[i], w)
  {
    forall i | 0 <= i < |params|
      ensures WellTyped(ParamVars(params)[i], w)
    {
      assert params[i] in params;
    }
  }

  /**
   * The function's own entry is in the table while its body is checked,
   * so a body that calls the function recursively with its parameters is
   * accepted.
   */
  lemma RecursiveCallAccepted(name: string, params: seq<string>, syms: Symbols)
    requires name !in params
    requires name !in syms || syms[name] == Symbol(Function(|params|), false)
    ensures DeclAt(FunctionDecl(name, params, Some(Block([S(Return(FunctionCall(name, ParamVars(params))))]))), syms).0 == Ok(())
  {
    var call := FunctionCall(name, ParamVars(params));
    var w := WithParams(syms[name := Symbol(Function(|params|), true)], params);
    WithParamsShape(syms[name := Symbol(Function(|params|), true)], params);
    ParamVarsWellTyped(params, w);
    CheckExprAccepts(call, w);
    ReturnBlockAccepted(call, w);
    DefinitionChecksBody(name, params, Block([S(Return(call))]), syms);
  }

  lemma ReturnBlockAccepted(e: Expression, syms: Symbols)
    requires CheckExpr(e, syms).Ok?
    ensures BlockFrom([S(Return(e))], 0, syms).0 == Ok(())
  {
    var items := [S(Return(e))];
    assert CheckExpr(e, syms).value == ();
    assert CheckExpr(e, syms) == Ok(());
    assert StmtAt(Return(e), syms) == (Ok(()), syms);
    assert ItemAt(items[0], syms) == (Ok(()), syms);
    assert BlockFrom(items, 1, syms) == (Ok(()), syms);
  }

  /** A first definition is checked by checking its body with the function and its parameters entered. */
  lemma DefinitionChecksBody(name: string, params: seq<string>, body: Block, syms: Symbols)
    requires name !in syms || syms[name] == Symbol(Function(|params|), false)
    ensures DeclAt(FunctionDecl(name, params, Some(body)), syms).0 ==
      BlockFrom(body.blocks, 0, WithParams(syms[name := Symbol(Function(|params|), true)], params)).0
  {
    assert FunctionEntry(params, true, syms, name) == Symbol(Function(|params|), true);
    var r := BlockFrom(body.blocks, 0, WithParams(syms[name := Symbol(Function(|params|), true)], params)).0;
    if r.Ok? {
      assert r.value == ();
      assert r == Ok(());
    }
    assert BodyAt(params, body, syms[name := Symbol(Function(|params|), true)]).0 == r;
  }

  /** After a definition is accepted none of its parameters is in the table. */
  lemma ParamsRemoved(name: string, params: seq<string>, body: Block, syms: Symbols)
    requires DeclAt(FunctionDecl(name, params, Some(body)), syms).0.Ok?
    ensures forall p :: p in params ==> p !in DeclAt(FunctionDecl(name, params, Some(body)), syms).1
  {
    var s1 := syms[name := FunctionEntry(params, true, syms, name)];
    var s2 := BlockFrom(body.blocks, 0, WithParams(s1, params)).1;
    WithoutParamsShape(s2, params);
  }

  /**
   * A variable declaration binds its name to `int`, replacing whatever was
   * there, and its initializer is checked with that binding in place.
   */
  lemma VariableBinds(name: string, init: Option<Expression>, syms: Symbols)
    ensures DeclAt(Variable(name, init), syms).1 == syms[name := IntSymbol]
    ensures DeclAt(Variable(name, init), syms).0.Ok? <==>
      init.None? || WellTyped(init.value, syms[name := IntSymbol])
  {
    if init.Some? {
      CheckExprAccepts(init.value, syms[name := IntSymbol]);
    }
  }

  // ---------------------------------------------------------------
  // Which entries a declaration can change
  // ---------------------------------------------------------------

  function ParamSet(params: seq<string>): set<string> {
    set p | p in params
  }

  /** The names a declaration may bind or remove: its own, its parameters', its body's. */
  function DeclNames(decl: Declaration): set<string>
    decreases decl, 1
  {
    match decl
    case FunctionDecl(name, params, body) =>
      {name} + ParamSet(params) + (if body.Some? then BlockNamesFrom(body.value.blocks, 0) else {})
    case Variable(name, _) => {name}
  }

  function StmtNames(s: Statement): set<string>
    decreases s, 1
  {
    match s
    case If(_, t, e) => StmtNames(t) + (if e.Some? then StmtNames(e.value) else {})
    case Compound(b) => BlockNamesFrom(b.blocks, 0)
    case For(init, _, _, body) => (if init.Some? then ItemNames(init.value) else {}) + StmtNames(body)
    case While(_, body) => StmtNames(body)
    case DoWhile(body, _) => StmtNames(body)
    case _ => {}
  }

  function ItemNames(item: BlockItem): set<string>
    decreases item
  {
    match item
    case S(s) => StmtNames(s)
    case D(decl) => DeclNames(decl)
  }

  function BlockNamesFrom(items: seq<BlockItem>, k: nat): set<string>
    requires k <= |items|
    decreases items, |items| - k
  {
    if k == |items| then {} else ItemNames(items[k]) + BlockNamesFrom(items, k + 1)
  }

  /** Two tables agree outside `names`. */
  ghost predicate Agree(a: Symbols, b: Symbols, names: set<string>) {
    forall n :: n !in names ==> (n in a <==> n in b) && (n in a ==> a[n] == b[n])
  }

  lemma AgreeTrans(a: Symbols, b: Symbols, c: Symbols, n1: set<string>, n2: set<string>)
    requires Agree(a, b, n1) && Agree(b, c, n2)
    ensures Agree(a, c, n1 + n2)
  {
  }

  /** Checking a declaration changes no entry outside the names it declares. */
  lemma {:induction false} DeclFrame(decl: Declaration, syms: Symbols)
    ensures Agree(syms, DeclAt(decl, syms).1, DeclNames(decl))
    decreases decl, 1
  {
    match decl
    case FunctionDecl(name, params, body) =>
      if (name in syms && syms[name].cType != Function(|params|)) || (name in syms && syms[name].defined && body.Some?) {
      } else if body.Some? {
        var s1 := syms[name := FunctionEntry(params, true, syms, name)];
        var w := WithParams(s1, params);
        WithParamsShape(s1, params);
        BlockFrame(body.value.blocks, 0, w);
        var s2 := BlockFrom(body.value.blocks, 0, w).1;
        WithoutParamsShape(s2, params);
        AgreeTrans(syms, s1, w, {name}, ParamSet(params));
        AgreeTrans(syms, w, s2, {name} + ParamSet(params), BlockNamesFrom(body.value.blocks, 0));
        AgreeTrans(syms, s2, WithoutParams(s2, params), {name} + ParamSet(params) + BlockNamesFrom(body.value.blocks, 0), ParamSet(params));
      }
    case Variable(_, _) =>
  }

  lemma {:induction false} StmtFrame(s: Statement, syms: Symbols)
    ensures Agree(syms, StmtAt(s, syms).1, StmtNames(s))
    decreases s, 1
  {
    match s
    case If(c, t, e) =>
      if CheckExpr(c, syms).Ok? {
        StmtFrame(t, syms);
        var s1 := StmtAt(t, syms).1;
        if StmtAt(t, syms).0.Ok? && e.Some? {
          StmtFrame(e.value, s1);
          AgreeTrans(syms, s1, StmtAt(e.value, s1).1, StmtNames(t), StmtNames(e.value));
        }
      }
    case Compound(b) => BlockFrame(b.blocks, 0, syms);
    case For(init, c, post, body) => ForFrame(init, c, post, body, syms);
    case While(c, body) => StmtFrame(body, syms);
    case DoWhile(body, c) => StmtFrame(body, syms);
    case _ =>
  }

  lemma {:induction false} ForFrame(init: Option<BlockItem>, c: Option<Expression>, post: Option<Expression>,
                                    body: Statement, syms: Symbols)
    ensures Agree(syms, ForAt(init, c, post, body, syms).1, StmtNames(For(init, c, post, body)))
    decreases For(init, c, post, body), 0
  {
    var names := if init.Some? then ItemNames(init.value) else {};
    var s1 := if init.Some? then ItemAt(init.value, syms).1 else syms;
    if init.Some? {
      ItemFrame(init.value, syms);
    }
    assert Agree(syms, s1, names);
    StmtFrame(body, s1);
    AgreeTrans(syms, s1, StmtAt(body, s1).1, names, StmtNames(body));
  }

  lemma {:induction false} ItemFrame(item: BlockItem, syms: Symbols)
    ensures Agree(syms, ItemAt(item, syms).1, ItemNames(item))
    decreases item
  {
    match item
    case S(s) => StmtFrame(s, syms);
    case D(decl) => DeclFrame(decl, syms);
  }

  lemma {:induction false} BlockFrame(items: seq<BlockItem>, k: nat, syms: Symbols)
    requires k <= |items|
    ensures Agree(syms, BlockFrom(items, k, syms).1, BlockNamesFrom(items, k))
    decreases items, |items| - k
  {
    if k < |items| {
      ItemFrame(items[k], syms);
      var s1 := ItemAt(items[k], syms).1;
      if ItemAt(items[k], syms).0.Ok? {
        BlockFrame(items, k + 1, s1);
        AgreeTrans(syms, s1, BlockFrom(items, k + 1, s1).1, ItemNames(items[k]), BlockNamesFrom(items, k + 1));
      }
    }
  }

  /**
   * After a definition is accepted, the function is recorded as defined
   * with its arity, unless a parameter or a declaration in its body reused
   * its name.
   */
  lemma DefinitionRecorded(name: string, params: seq<string>, body: Block, syms: Symbols)
    requires name !in params && name !in BlockNamesFrom(body.blocks, 0)
    requires DeclAt(FunctionDecl(name, params, Some(body)), syms).0.Ok?
    ensures name in DeclAt(FunctionDecl(name, params, Some(body)), syms).1
    ensures DeclAt(FunctionDecl(name, params, Some(body)), syms).1[name] == Symbol(Function(|params|), true)
  {
    var s1 := syms[name := FunctionEntry(params, true, syms, name)];
    var w := WithParams(s1, params);
    WithParamsShape(s1, params);
    BlockFrame(body.blocks, 0, w);
    var s2 := BlockFrom(body.blocks, 0, w).1;
    WithoutParamsShape(s2, params);
  }

  /** A second definition of a function in a program is rejected. */
  lemma SecondDefinitionRejected(name: string, params: seq<string>, body: Block,
                                 params': seq<string>, body': Block, syms: Symbols)
    requires |params'| == |params|
    requires name !in params && name !in BlockNamesFrom(body.blocks, 0)
    requires DeclAt(FunctionDecl(name, params, Some(body)), syms).0.Ok?
    ensures DeclsFrom([FunctionDecl(name, params, Some(body)), FunctionDecl(name, params', Some(body'))], 0, syms).0
         == Err(DefinedTwiceMsg(name))
  {
    var decls := [FunctionDecl(name, params, Some(body)), FunctionDecl(name, params', Some(body'))];
    DefinitionRecorded(name, params, body, syms);
    var s1 := DeclAt(decls[0], syms).1;
    assert DeclAt(decls[1], s1) == (Err(DefinedTwiceMsg(name)), s1);
  }

  /** A prototype followed by the definition: the body is checked as if there had been no prototype. */
  lemma PrototypeThenDefinition(name: string, params: seq<string>, params': seq<string>, body: Block, syms: Symbols)
    requires |params'| == |params|
    requires name !in syms
    ensures DeclsFrom([FunctionDecl(name, params, None), FunctionDecl(name, params', Some(body))], 0, syms)
         == DeclAt(FunctionDecl(name, params', Some(body)), syms)
  {
    var decls := [FunctionDecl(name, params, None), FunctionDecl(name, params', Some(body))];
    var s1 := syms[name := Symbol(Function(|params|), false)];
    assert DeclAt(decls[0], syms) == (Ok(()), s1);
    assert s1[name := FunctionEntry(params', true, s1, name)] == syms[name := FunctionEntry(params', true, syms, name)];
    assert DeclAt(decls[1], s1) == DeclAt(decls[1], syms);
    var (r, s2) := DeclAt(decls[1], s1);
    if r.Ok? {
      assert r == Ok(());
      assert DeclsFrom(decls, 2, s2) == (Ok(()), s2);
    }
  }

  /** `Empty`, `break` and `continue` are always accepted and change nothing. */
  lemma TrivialStatements(syms: Symbols)
    ensures StmtAt(Empty, syms) == (Ok(()), syms)
    ensures StmtAt(Break, syms) == (Ok(()), syms)
    ensures StmtAt(Continue, syms) == (Ok(()), syms)
  {
  }

  /** A statement that declares nothing leaves the table as it was. */
  lemma NoDeclarationsNoChange(s: Statement, syms: Symbols)
    requires StmtNames(s) == {}
    ensures StmtAt(s, syms).1 == syms
  {
    StmtFrame(s, syms);
    var s1 := StmtAt(s, syms).1;
    assert s1.Keys == syms.Keys;
  }
}
