/**
 * Variable resolution (src/semantics/validator.rs).
 *
 * Every declaration is renamed to `<name>.<id>` with an id from the shared
 * generator and recorded in one flat map from source names to unique
 * names; every use is looked up in that map. The map is never popped, so a
 * second declaration of a name anywhere in the function is a duplicate.
 *
 * Resolving expressions and statements only reads the map and is modelled
 * by functions; declarations, block items and the function body change the
 * map and the generator and are modelled by a class whose methods are
 * proved equal to the state-threading functions below.
 */
module Validation {
  import opened Wrappers
  import opened Common
  import U = UncheckedAst

  function DuplicateMsg(name: string): string {
    "Duplicate variable declaration for '" + name + "'"
  }

  function UndeclaredMsg(name: string): string {
    "Use of undeclared variable '" + name + "'"
  }

  const InvalidLvaluePrefix := "Invalid l-value for assignment: "

  // ---------------------------------------------------------------
  // Rust's derived `Debug` rendering of an expression, used in the
  // invalid l-value message
  // ---------------------------------------------------------------

  function DebugUnop(op: U.UnaryOperator): string {
    match op
    case Negate => "Negate"
    case Complement => "Complement"
    case Not => "Not"
  }

  function DebugBinop(op: U.BinaryOperator): string {
    match op
    case Add => "Add"
    case Subtract => "Subtract"
    case Multiply => "Multiply"
    case Divide => "Divide"
    case Remainder => "Remainder"
    case And => "And"
    case Or => "Or"
    case Equal => "Equal"
    case NotEqual => "NotEqual"
    case LessThan => "LessThan"
    case LessOrEqual => "LessOrEqual"
    case GreaterThan => "GreaterThan"
    case GreaterOrEqual => "GreaterOrEqual"
  }

  /** `{:?}` of an expression; variable names are identifiers, which `Debug` quotes without escapes. */
  function DebugExpression(e: U.Expression): string {
    match e
    case Constant(i) => "Constant(" + IntToString(i) + ")"
    case Unary(op, x) => "Unary { operator: " + DebugUnop(op) + ", expression: " + DebugExpression(x) + " }"
    case Binary(op, l, r) =>
      "Binary { operator: " + DebugBinop(op) + ", left: " + DebugExpression(l)
      + ", right: " + DebugExpression(r) + " }"
    case Var(n) => "Var(\"" + n + "\")"
    case Assign(l, r) => "Assign { left: " + DebugExpression(l) + ", right: " + DebugExpression(r) + " }"
    case Conditional(c, l, r) =>
      "Conditional { condition: " + DebugExpression(c) + ", left: " + DebugExpression(l)
      + ", right: " + DebugExpression(r) + " }"
  }

  // ---------------------------------------------------------------
  // Expressions and statements: read the map only
  // ---------------------------------------------------------------

  /**
   * `validate_expression`: a use becomes its unique name; an assignment
   * whose target is not a variable is rejected before either side is
   * looked at; sub-expressions are resolved left to right.
   */
  function ResolveExpr(e: U.Expression, m: map<string, string>): Result<U.Expression> {
    match e
    case Constant(_) => Ok(e)
    case Var(name) => if name in m then Ok(U.Var(m[name])) else Err(UndeclaredMsg(name))
    case Assign(left, right) =>
      if !left.Var? then Err(InvalidLvaluePrefix + DebugExpression(left))
      else
        var l :- ResolveExpr(left, m);
        var r :- ResolveExpr(right, m);
        Ok(U.Assign(l, r))
    case Unary(op, inner) =>
      var x :- ResolveExpr(inner, m);
      Ok(U.Unary(op, x))
    case Binary(op, left, right) =>
      var l :- ResolveExpr(left, m);
      var r :- ResolveExpr(right, m);
      Ok(U.Binary(op, l, r))
    case Conditional(condition, left, right) =>
      var c :- ResolveExpr(condition, m);
      var l :- ResolveExpr(left, m);
      var r :- ResolveExpr(right, m);
      Ok(U.Conditional(c, l, r))
  }

  /** The statements `validate_statement` handles; the others make it panic. */
  predicate Handled(s: U.Statement) {
    match s
    case Return(_) => true
    case Expression(_) => true
    case Empty => true
    case If(_, t, e) => Handled(t) && (e.Some? ==> Handled(e.value))
    case _ => false
  }

  predicate HandledItem(item: U.BlockItem) {
    item.S? ==> Handled(item.stmt)
  }

  predicate AllHandled(items: seq<U.BlockItem>) {
    forall i :: 0 <= i < |items| ==> HandledItem(items[i])
  }

  /** `validate_statement`: resolves the condition, then the branches. */
  function ResolveStmt(s: U.Statement, m: map<string, string>): (r: Result<U.Statement>)
    requires Handled(s)
    ensures r.Ok? ==> Handled(r.value)
  {
    match s
    case Return(e) =>
      var x :- ResolveExpr(e, m);
      Ok(U.Return(x))
    case Expression(e) =>
      var x :- ResolveExpr(e, m);
      Ok(U.Expression(x))
    case Empty => Ok(U.Empty)
    case If(condition, thenStat, elseStat) =>
      var c :- ResolveExpr(condition, m);
      var t :- ResolveStmt(thenStat, m);
      if elseStat.None? then Ok(U.If(c, t, None))
      else
        var e :- ResolveStmt(elseStat.value, m);
        Ok(U.If(c, t, Some(e)))
  }

  // ---------------------------------------------------------------
  // Declarations, block items and functions: the map and the counter
  // ---------------------------------------------------------------

  /** The variable map and the shared generator's counter. */
  datatype Scope = Scope(names: map<string, string>, nextId: nat)

  /**
   * `validate_declaration`: a name already in the map is a duplicate;
   * otherwise the unique name is drawn and bound before the initializer is
   * resolved, so the initializer sees the new binding.
   */
  function DeclAt(decl: U.Declaration, sc: Scope): (Result<U.Declaration>, Scope) {
    if decl.name in sc.names then (Err(DuplicateMsg(decl.name)), sc)
    else
      var unique := DottedName(decl.name, sc.nextId);
      var sc' := Scope(sc.names[decl.name := unique], sc.nextId + 1);
      if decl.init.None? then (Ok(U.Declaration(unique, None)), sc')
      else
        var init := ResolveExpr(decl.init.value, sc'.names);
        if init.Err? then (Err(init.msg), sc') else (Ok(U.Declaration(unique, Some(init.value))), sc')
  }

  /** `validate_block_item`. */
  function ItemAt(item: U.BlockItem, sc: Scope): (Result<U.BlockItem>, Scope)
    requires HandledItem(item)
  {
    match item
    case S(s) =>
      var r := ResolveStmt(s, sc.names);
      (if r.Err? then Err(r.msg) else Ok(U.S(r.value)), sc)
    case D(decl) =>
      var (r, sc') := DeclAt(decl, sc);
      (if r.Err? then Err(r.msg) else Ok(U.D(r.value)), sc')
  }

  /** The items from `k` on, in order, stopping at the first error. */
  function ItemsFrom(items: seq<U.BlockItem>, k: nat, sc: Scope): (Result<seq<U.BlockItem>>, Scope)
    requires k <= |items| && AllHandled(items)
    decreases |items| - k
  {
    if k == |items| then (Ok([]), sc)
    else
      var (r, sc1) := ItemAt(items[k], sc);
      if r.Err? then (Err(r.msg), sc1)
      else
        var (rest, sc2) := ItemsFrom(items, k + 1, sc1);
        if rest.Err? then (rest, sc2) else (Ok([r.value] + rest.value), sc2)
  }

  /** `validate_function`: the name is kept, the body's items are validated in order. */
  function FunctionAt(f: U.Function, sc: Scope): (Result<U.Function>, Scope)
    requires AllHandled(f.body.blocks)
  {
    var (r, sc') := ItemsFrom(f.body.blocks, 0, sc);
    (if r.Err? then Err(r.msg) else Ok(U.Function(f.name, U.Block(r.value))), sc')
  }

  function ProgramAt(p: U.Program, sc: Scope): (Result<U.Program>, Scope)
    requires AllHandled(p.func.body.blocks)
  {
    var (r, sc') := FunctionAt(p.func, sc);
    (if r.Err? then Err(r.msg) else Ok(U.Program(r.value)), sc')
  }

  // ---------------------------------------------------------------
  // The validator
  // ---------------------------------------------------------------

  class Validator {
    var variableMap: map<string, string>
    const idGenerator: UniqueIdGenerator

    constructor (idGenerator: UniqueIdGenerator)
      ensures this.idGenerator == idGenerator && variableMap == map[]
    {
      this.idGenerator := idGenerator;
      variableMap := map[];
    }

    ghost function Current(): Scope
      reads this, idGenerator
    {
      Scope(variableMap, idGenerator.counter)
    }

    /** `<original>.<id>` with the generator's next id. */
    method GenerateUniqueName(originalName: string) returns (name: string)
      modifies idGenerator
      ensures name == DottedName(originalName, old(idGenerator.counter))
      ensures idGenerator.counter == old(idGenerator.counter) + 1
    {
      var uniqueId := idGenerator.Next();
      name := originalName + "." + NatToString(uniqueId);
    }

    method ValidateDeclaration(decl: U.Declaration) returns (r: Result<U.Declaration>)
      modifies this, idGenerator
      ensures (r, Current()) == DeclAt(decl, old(Current()))
    {
      if decl.name in variableMap {
        return Err(DuplicateMsg(decl.name));
      }
      var uniqueName := GenerateUniqueName(decl.name);
      variableMap := variableMap[decl.name := uniqueName];
      var validatedInit := None;
      if decl.init.Some? {
        var init := ResolveExpr(decl.init.value, variableMap);
        if init.Err? {
          return Err(init.msg);
        }
        validatedInit := Some(init.value);
      }
      r := Ok(U.Declaration(uniqueName, validatedInit));
    }

    method ValidateBlockItem(item: U.BlockItem) returns (r: Result<U.BlockItem>)
      requires HandledItem(item)
      modifies this, idGenerator
      ensures (r, Current()) == ItemAt(item, old(Current()))
    {
      match item {
        case S(stmt) =>
          var validated := ResolveStmt(stmt, variableMap);
          if validated.Err? {
            return Err(validated.msg);
          }
          r := Ok(U.S(validated.value));
        case D(decl) =>
          var validated := ValidateDeclaration(decl);
          if validated.Err? {
            return Err(validated.msg);
          }
          r := Ok(U.D(validated.value));
      }
    }

    method ValidateFunction(f: U.Function) returns (r: Result<U.Function>)
      requires AllHandled(f.body.blocks)
      modifies this, idGenerator
      ensures (r, Current()) == FunctionAt(f, old(Current()))
    {
      var items := f.body.blocks;
      var validatedBody := [];
      assert Glue([], ItemsFrom(items, 0, Current())) == ItemsFrom(items, 0, Current()) by {
        if ItemsFrom(items, 0, Current()).0.Ok? {
          assert [] + ItemsFrom(items, 0, Current()).0.value == ItemsFrom(items, 0, Current()).0.value;
        }
      }
      for k := 0 to |items|
        invariant ItemsFrom(items, 0, old(Current())) == Glue(validatedBody, ItemsFrom(items, k, Current()))
      {
        var item := ValidateBlockItem(items[k]);
        if item.Err? {
          return Err(item.msg);
        }
        ghost var rest := ItemsFrom(items, k + 1, Current());
        GlueGlue(validatedBody, [item.value], rest);
        validatedBody := validatedBody + [item.value];
      }
      assert validatedBody + [] == validatedBody;
      r := Ok(U.Function(f.name, U.Block(validatedBody)));
    }

    method ValidateProgram(p: U.Program) returns (r: Result<U.Program>)
      requires AllHandled(p.func.body.blocks)
      modifies this, idGenerator
      ensures (r, Current()) == ProgramAt(p, old(Current()))
    {
      var validatedFunction :- ValidateFunction(p.func);
      r := Ok(U.Program(validatedFunction));
    }
  }

  // ---------------------------------------------------------------
  // What resolution accepts and what it changes
  // ---------------------------------------------------------------

  /** The variable names an expression uses. */
  function Vars(e: U.Expression): set<string> {
    match e
    case Constant(_) => {}
    case Var(name) => {name}
    case Assign(left, right) => Vars(left) + Vars(right)
    case Unary(_, inner) => Vars(inner)
    case Binary(_, left, right) => Vars(left) + Vars(right)
    case Conditional(c, left, right) => Vars(c) + Vars(left) + Vars(right)
  }

  /** Every assignment in `e` assigns to a variable. */
  predicate LvaluesOk(e: U.Expression) {
    match e
    case Constant(_) => true
    case Var(_) => true
    case Assign(left, right) => left.Var? && LvaluesOk(right)
    case Unary(_, inner) => LvaluesOk(inner)
    case Binary(_, left, right) => LvaluesOk(left) && LvaluesOk(right)
    case Conditional(c, left, right) => LvaluesOk(c) && LvaluesOk(left) && LvaluesOk(right)
  }

  /** `e` with every variable name blanked out: its shape, constants and operators. */
  function Erase(e: U.Expression): U.Expression {
    match e
    case Constant(_) => e
    case Var(_) => U.Var("")
    case Assign(left, right) => U.Assign(Erase(left), Erase(right))
    case Unary(op, inner) => U.Unary(op, Erase(inner))
    case Binary(op, left, right) => U.Binary(op, Erase(left), Erase(right))
    case Conditional(c, left, right) => U.Conditional(Erase(c), Erase(left), Erase(right))
  }

  /** The unique names `m` gives to `names`. */
  function Image(names: set<string>, m: map<string, string>): set<string> {
    set n | n in names && n in m :: m[n]
  }

  lemma ImageUnion(a: set<string>, b: set<string>, m: map<string, string>)
    ensures Image(a + b, m) == Image(a, m) + Image(b, m)
  {
  }

  /**
   * Resolving an expression succeeds exactly when every variable it uses
   * is declared and every assignment targets a variable.
   */
  lemma {:induction false} ResolveExprSucceeds(e: U.Expression, m: map<string, string>)
    ensures ResolveExpr(e, m).Ok? <==> Vars(e) <= m.Keys && LvaluesOk(e)
  {
    match e {
      case Constant(_) =>
      case Var(_) =>
      case Assign(left, right) =>
        ResolveExprSucceeds(left, m);
        ResolveExprSucceeds(right, m);
      case Unary(_, inner) =>
        ResolveExprSucceeds(inner, m);
      case Binary(_, left, right) =>
        ResolveExprSucceeds(left, m);
        ResolveExprSucceeds(right, m);
      case Conditional(c, left, right) =>
        ResolveExprSucceeds(c, m);
        ResolveExprSucceeds(left, m);
        ResolveExprSucceeds(right, m);
    }
  }

  /**
   * A resolved expression keeps the shape, constants and operators of the
   * original; its variables are exactly the unique names of the original's.
   */
  lemma {:induction false} ResolveExprShape(e: U.Expression, m: map<string, string>)
    ensures ResolveExpr(e, m).Ok? ==>
      Erase(ResolveExpr(e, m).value) == Erase(e) && Vars(ResolveExpr(e, m).value) == Image(Vars(e), m)
  {
    match e {
      case Constant(_) =>
      case Var(_) =>
      case Assign(left, right) =>
        ResolveExprShape(left, m);
        ResolveExprShape(right, m);
        ImageUnion(Vars(left), Vars(right), m);
      case Unary(_, inner) =>
        ResolveExprShape(inner, m);
      case Binary(_, left, right) =>
        ResolveExprShape(left, m);
        ResolveExprShape(right, m);
        ImageUnion(Vars(left), Vars(right), m);
      case Conditional(c, left, right) =>
        ResolveExprShape(c, m);
        ResolveExprShape(left, m);
        ResolveExprShape(right, m);
        ImageUnion(Vars(c), Vars(left), m);
        ImageUnion(Vars(c) + Vars(left), Vars(right), m);
    }
  }

  /** An assignment to a non-variable is reported before either side is resolved. */
  lemma AssignTargetCheckedFirst(left: U.Expression, right: U.Expression, m: map<string, string>)
    requires !left.Var?
    ensures ResolveExpr(U.Assign(left, right), m) == Err(InvalidLvaluePrefix + DebugExpression(left))
  {
  }

  function StmtVars(s: U.Statement): set<string>
    requires Handled(s)
  {
    match s
    case Return(e) => Vars(e)
    case Expression(e) => Vars(e)
    case Empty => {}
    case If(c, t, e) => Vars(c) + StmtVars(t) + (if e.Some? then StmtVars(e.value) else {})
  }

  predicate StmtLvaluesOk(s: U.Statement)
    requires Handled(s)
  {
    match s
    case Return(e) => LvaluesOk(e)
    case Expression(e) => LvaluesOk(e)
    case Empty => true
    case If(c, t, e) => LvaluesOk(c) && StmtLvaluesOk(t) && (e.Some? ==> StmtLvaluesOk(e.value))
  }

  function EraseStmt(s: U.Statement): U.Statement
    requires Handled(s)
  {
    match s
    case Return(e) => U.Return(Erase(e))
    case Expression(e) => U.Expression(Erase(e))
    case Empty => U.Empty
    case If(c, t, e) => U.If(Erase(c), EraseStmt(t), if e.Some? then Some(EraseStmt(e.value)) else None)
  }

  /** A statement resolves exactly when its expressions do. */
  lemma {:induction false} ResolveStmtSucceeds(s: U.Statement, m: map<string, string>)
    requires Handled(s)
    ensures ResolveStmt(s, m).Ok? <==> StmtVars(s) <= m.Keys && StmtLvaluesOk(s)
  {
    match s {
      case Return(e) => ResolveExprSucceeds(e, m);
      case Expression(e) => ResolveExprSucceeds(e, m);
      case Empty =>
      case If(c, t, e) =>
        ResolveExprSucceeds(c, m);
        ResolveStmtSucceeds(t, m);
        if e.Some? {
          ResolveStmtSucceeds(e.value, m);
        }
    }
  }

  /** A resolved statement has the original's shape; only names change. */
  lemma {:induction false} ResolveStmtShape(s: U.Statement, m: map<string, string>)
    requires Handled(s)
    ensures ResolveStmt(s, m).Ok? ==> EraseStmt(ResolveStmt(s, m).value) == EraseStmt(s)
  {
    match s {
      case Return(e) => ResolveExprShape(e, m);
      case Expression(e) => ResolveExprShape(e, m);
      case Empty =>
      case If(c, t, e) =>
        ResolveExprShape(c, m);
        ResolveStmtShape(t, m);
        if e.Some? {
          ResolveStmtShape(e.value, m);
        }
    }
  }

  /** `e` with each variable use replaced, in place, by the unique name `m` gives it. */
  function Rename(e: U.Expression, m: map<string, string>): U.Expression
    requires Vars(e) <= m.Keys
  {
    match e
    case Constant(_) => e
    case Var(name) => U.Var(m[name])
    case Assign(left, right) => U.Assign(Rename(left, m), Rename(right, m))
    case Unary(op, inner) => U.Unary(op, Rename(inner, m))
    case Binary(op, left, right) => U.Binary(op, Rename(left, m), Rename(right, m))
    case Conditional(c, left, right) => U.Conditional(Rename(c, m), Rename(left, m), Rename(right, m))
  }

  /** `s` with every expression in it renamed under `m`. */
  function RenameStmt(s: U.Statement, m: map<string, string>): U.Statement
    requires Handled(s) && StmtVars(s) <= m.Keys
  {
    match s
    case Return(e) => U.Return(Rename(e, m))
    case Expression(e) => U.Expression(Rename(e, m))
    case Empty => U.Empty
    case If(c, t, e) => U.If(Rename(c, m), RenameStmt(t, m), if e.Some? then Some(RenameStmt(e.value, m)) else None)
  }

  /**
   * A successful resolution is the renaming of the expression: every use
   * of a variable becomes, at its own position, the unique name the map
   * holds for it; and whenever the names are declared and the targets are
   * variables, resolution succeeds with exactly that renaming.
   */
  lemma {:induction false} ResolveExprRenames(e: U.Expression, m: map<string, string>)
    ensures ResolveExpr(e, m).Ok? ==> Vars(e) <= m.Keys && ResolveExpr(e, m).value == Rename(e, m)
    ensures Vars(e) <= m.Keys && LvaluesOk(e) ==> ResolveExpr(e, m) == Ok(Rename(e, m))
  {
    ResolveExprSucceeds(e, m);
    match e {
      case Constant(_) =>
      case Var(_) =>
      case Assign(left, right) =>
        ResolveExprRenames(left, m);
        ResolveExprRenames(right, m);
      case Unary(_, inner) =>
        ResolveExprRenames(inner, m);
      case Binary(_, left, right) =>
        ResolveExprRenames(left, m);
        ResolveExprRenames(right, m);
      case Conditional(c, left, right) =>
        ResolveExprRenames(c, m);
        ResolveExprRenames(left, m);
        ResolveExprRenames(right, m);
    }
  }

  /** The same for statements: a successful resolution renames every expression in place. */
  lemma {:induction false} ResolveStmtRenames(s: U.Statement, m: map<string, string>)
    requires Handled(s)
    ensures ResolveStmt(s, m).Ok? ==> StmtVars(s) <= m.Keys && ResolveStmt(s, m).value == RenameStmt(s, m)
    ensures StmtVars(s) <= m.Keys && StmtLvaluesOk(s) ==> ResolveStmt(s, m) == Ok(RenameStmt(s, m))
  {
    ResolveStmtSucceeds(s, m);
    match s {
      case Return(e) => ResolveExprRenames(e, m);
      case Expression(e) => ResolveExprRenames(e, m);
      case Empty =>
      case If(c, t, e) =>
        ResolveExprRenames(c, m);
        ResolveStmtRenames(t, m);
        if e.Some? {
          ResolveStmtRenames(e.value, m);
        }
    }
  }

  /** A block item with its names blanked out. */
  function EraseItem(item: U.BlockItem): U.BlockItem
    requires HandledItem(item)
  {
    match item
    case S(s) => U.S(EraseStmt(s))
    case D(decl) => U.D(U.Declaration("", if decl.init.Some? then Some(Erase(decl.init.value)) else None))
  }

  /**
   * A new declaration is renamed to `<name>.<id>` with the generator's next
   * id, and the binding is made before the initializer is resolved: a
   * successful initializer is the renaming under the extended map, so in
   * `int a = a;` the right-hand `a` is the new variable.
   */
  lemma DeclarationRenames(name: string, init: Option<U.Expression>, sc: Scope)
    requires name !in sc.names
    ensures var unique := DottedName(name, sc.nextId);
      DeclAt(U.Declaration(name, init), sc).1 == Scope(sc.names[name := unique], sc.nextId + 1) &&
      (init.None? ==> DeclAt(U.Declaration(name, init), sc).0 == Ok(U.Declaration(unique, None))) &&
      (init.Some? && DeclAt(U.Declaration(name, init), sc).0.Ok? ==>
        Vars(init.value) <= sc.names[name := unique].Keys &&
        DeclAt(U.Declaration(name, init), sc).0 ==
          Ok(U.Declaration(unique, Some(Rename(init.value, sc.names[name := unique]))))) &&
      (init == Some(U.Var(name)) ==>
        DeclAt(U.Declaration(name, init), sc).0 == Ok(U.Declaration(unique, Some(U.Var(unique)))))
  {
    if init.Some? {
      ResolveExprRenames(init.value, sc.names[name := DottedName(name, sc.nextId)]);
    }
  }

  /**
   * The unique names in the map are pairwise different and each is its
   * source name followed by an id the generator has already handed out.
   */
  ghost predicate UniqueNames(sc: Scope) {
    (forall n :: n in sc.names ==> exists k: nat :: k < sc.nextId && sc.names[n] == DottedName(n, k)) &&
    (forall a, b :: a in sc.names && b in sc.names && a != b ==> sc.names[a] != sc.names[b])
  }

  /** Each declaration keeps the unique names unique. */
  lemma DeclKeepsNamesUnique(decl: U.Declaration, sc: Scope)
    requires UniqueNames(sc)
    ensures UniqueNames(DeclAt(decl, sc).1)
  {
    if decl.name !in sc.names {
      var unique := DottedName(decl.name, sc.nextId);
      var sc' := DeclAt(decl, sc).1;
      forall n | n in sc.names
        ensures sc.names[n] != unique
      {
        var k: nat :| k < sc.nextId && sc.names[n] == DottedName(n, k);
        DottedNameInjective(n, k, decl.name, sc.nextId);
      }
      forall n | n in sc'.names
        ensures exists k: nat :: k < sc'.nextId && sc'.names[n] == DottedName(n, k)
      {
        if n == decl.name {
          assert sc'.names[n] == DottedName(n, sc.nextId);
        } else {
          var k: nat :| k < sc.nextId && sc.names[n] == DottedName(n, k);
          assert sc'.names[n] == DottedName(n, k);
        }
      }
    }
  }

  lemma {:induction false} ItemsKeepNamesUnique(items: seq<U.BlockItem>, k: nat, sc: Scope)
    requires k <= |items| && AllHandled(items) && UniqueNames(sc)
    ensures UniqueNames(ItemsFrom(items, k, sc).1)
    decreases |items| - k
  {
    if k < |items| {
      if items[k].D? {
        DeclKeepsNamesUnique(items[k].decl, sc);
      }
      var (r, sc1) := ItemAt(items[k], sc);
      if r.Ok? {
        ItemsKeepNamesUnique(items, k + 1, sc1);
      }
    }
  }

  /** The map only grows. */
  lemma {:induction false} ItemsGrowMap(items: seq<U.BlockItem>, k: nat, sc: Scope)
    requires k <= |items| && AllHandled(items)
    ensures sc.names.Keys <= ItemsFrom(items, k, sc).1.names.Keys
    decreases |items| - k
  {
    if k < |items| {
      var (r, sc1) := ItemAt(items[k], sc);
      if r.Ok? {
        ItemsGrowMap(items, k + 1, sc1);
      }
    }
  }

  /** `out` is `items[k..]` one for one, with the same kind and shape. */
  predicate SameShapeFrom(items: seq<U.BlockItem>, k: nat, out: seq<U.BlockItem>)
    requires k <= |items| && AllHandled(items)
  {
    |out| == |items| - k &&
    forall i :: 0 <= i < |out| ==> HandledItem(out[i]) && EraseItem(out[i]) == EraseItem(items[k + i])
  }

  /** No declaration in `items[k..]` names something in `bound`, and no two of them share a name. */
  predicate DeclaredOnce(items: seq<U.BlockItem>, k: nat, bound: map<string, string>) {
    (forall i :: k <= i < |items| && items[i].D? ==> items[i].decl.name !in bound) &&
    (forall i, j :: k <= i < j < |items| && items[i].D? && items[j].D? ==> items[i].decl.name != items[j].decl.name)
  }

  /**
   * On success, the validated items are the originals one for one, with
   * the same kind and shape, and no name is declared twice: not one that
   * was already bound, and not the same one in two items.
   */
  lemma {:induction false} ItemsFromOk(items: seq<U.BlockItem>, k: nat, sc: Scope)
    requires k <= |items| && AllHandled(items)
    ensures ItemsFrom(items, k, sc).0.Ok? ==>
      SameShapeFrom(items, k, ItemsFrom(items, k, sc).0.value) && DeclaredOnce(items, k, sc.names)
    decreases |items| - k
  {
    if k < |items| {
      var (r, sc1) := ItemAt(items[k], sc);
      if r.Ok? {
        ItemsFromOk(items, k + 1, sc1);
        ItemsGrowMap(items, k + 1, sc1);
        match items[k] {
          case S(s) =>
            ResolveStmtShape(s, sc.names);
          case D(decl) =>
            if decl.init.Some? {
              ResolveExprShape(decl.init.value, sc1.names);
            }
        }
        assert HandledItem(r.value) && EraseItem(r.value) == EraseItem(items[k]);
        var rest := ItemsFrom(items, k + 1, sc1).0;
        if rest.Ok? {
          assert SameShapeFrom(items, k + 1, rest.value);
          var out := [r.value] + rest.value;
          assert ItemsFrom(items, k, sc).0 == Ok(out);
          forall i | 0 <= i < |out|
            ensures HandledItem(out[i]) && EraseItem(out[i]) == EraseItem(items[k + i])
          {
            if i > 0 {
              assert out[i] == rest.value[i - 1];
            }
          }
        }
      }
    }
  }

  /** Declaring the same name twice anywhere in a function body fails, since the map is never popped. */
  lemma RedeclarationFails(f: U.Function, sc: Scope, i: nat, j: nat)
    requires AllHandled(f.body.blocks)
    requires i < j < |f.body.blocks|
    requires f.body.blocks[i].D? && f.body.blocks[j].D?
    requires f.body.blocks[i].decl.name == f.body.blocks[j].decl.name
    ensures FunctionAt(f, sc).0.Err?
  {
    ItemsFromOk(f.body.blocks, 0, sc);
  }

  /** A validated function keeps its name and its body's shape; only variable names change. */
  lemma FunctionShape(f: U.Function, sc: Scope)
    requires AllHandled(f.body.blocks)
    ensures FunctionAt(f, sc).0.Ok? ==>
      FunctionAt(f, sc).0.value.name == f.name &&
      SameShapeFrom(f.body.blocks, 0, FunctionAt(f, sc).0.value.body.blocks)
  {
    ItemsFromOk(f.body.blocks, 0, sc);
  }
}
