/**
 * The syntax trees of the compiler's front end: the parser-shaped
 * ("unchecked") tree and the loop-labelled ("checked") tree, as declared
 * in src/ast.rs.
 */
module UncheckedAst {
  import opened Wrappers

  datatype UnaryOperator = Negate | Complement | Not

  datatype BinaryOperator =
    | Add | Subtract | Multiply | Divide | Remainder
    | And | Or
    | Equal | NotEqual | LessThan | LessOrEqual | GreaterThan | GreaterOrEqual

  /** Expressions are shared unchanged by the checked tree. Constants are `i32`. */
  datatype Expression =
    | Constant(value: int)
    | Unary(operator: UnaryOperator, expression: Expression)
    | Binary(binop: BinaryOperator, left: Expression, right: Expression)
    | Var(name: string)
    | Assign(left: Expression, right: Expression)
    | Conditional(condition: Expression, left: Expression, right: Expression)

  datatype Declaration = Declaration(name: string, init: Option<Expression>)

  datatype Statement =
    | Return(exp: Expression)
    | Expression(exp: Expression)
    | Empty
    | If(condition: Expression, thenStat: Statement, elseStat: Option<Statement>)
    | Compound(block: Block)
    | While(condition: Expression, body: Statement)
    | DoWhile(body: Statement, condition: Expression)
    | For(init: Option<BlockItem>, cond: Option<Expression>, post: Option<Expression>, body: Statement)
    | Break
    | Continue

  datatype BlockItem = S(stmt: Statement) | D(decl: Declaration)

  datatype Block = Block(blocks: seq<BlockItem>)

  datatype Function = Function(name: string, body: Block)

  datatype Program = Program(func: Function)
}

module CheckedAst {
  import opened Wrappers
  import U = UncheckedAst

  /** `LoopId` is a `usize` in the source. */
  type LoopId = nat

  datatype Statement =
    | Return(exp: U.Expression)
    | Expression(exp: U.Expression)
    | Empty
    | If(condition: U.Expression, thenStat: Statement, elseStat: Option<Statement>)
    | Compound(block: Block)
    | While(condition: U.Expression, body: Statement, id: LoopId)
    | DoWhile(body: Statement, condition: U.Expression, id: LoopId)
    | For(init: Option<BlockItem>, cond: Option<U.Expression>, post: Option<U.Expression>,
          body: Statement, id: LoopId)
    | Break(targetId: LoopId)
    | Continue(targetId: LoopId)

  /** Declarations contain no statements and are reused from the unchecked tree. */
  datatype BlockItem = S(stmt: Statement) | D(decl: U.Declaration)

  datatype Block = Block(blocks: seq<BlockItem>)

  datatype Function = Function(name: string, body: Block)

  datatype Program = Program(func: Function)

  /**
   * Every `break`/`continue` names a loop from `enclosing` or a loop that
   * syntactically surrounds it: the invariant the loop labeler establishes.
   */
  predicate WellLabeled(s: Statement, enclosing: set<LoopId>) {
    match s
    case If(_, t, e) => WellLabeled(t, enclosing) && (e.Some? ==> WellLabeled(e.value, enclosing))
    case Compound(b) => WellLabeledBlock(b, enclosing)
    case While(_, body, id) => WellLabeled(body, enclosing + {id})
    case DoWhile(body, _, id) => WellLabeled(body, enclosing + {id})
    case For(init, _, _, body, id) =>
      (init.Some? ==> WellLabeledItem(init.value, enclosing + {id})) && WellLabeled(body, enclosing + {id})
    case Break(t) => t in enclosing
    case Continue(t) => t in enclosing
    case _ => true
  }

  predicate WellLabeledItem(item: BlockItem, enclosing: set<LoopId>) {
    match item
    case S(s) => WellLabeled(s, enclosing)
    case D(_) => true
  }

  predicate WellLabeledBlock(b: Block, enclosing: set<LoopId>) {
    forall i :: 0 <= i < |b.blocks| ==> WellLabeledItem(b.blocks[i], enclosing)
  }
}
