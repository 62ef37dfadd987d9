/**
 * Lowering of the checked syntax tree to TACKY (src/backend/tacky_gen.rs).
 *
 * The generator owns a label counter and shares the compiler-wide id
 * generator; every lowering routine appends to an instruction list the
 * caller passes in. The functions below state, for each routine, the
 * result and the new generator state (both counters and the list) as a
 * function of the old one; the class methods are proved equal to them.
 */
module TackyGen {
  import opened Wrappers
  import opened Common
  import U = UncheckedAst
  import C = CheckedAst
  import T = Tacky

  const LoopStartPrefix := "loop_start"
  const ContinueLabelPrefix := "continue"
  const BreakLabelPrefix := "break"

  const InvalidAssignMsg := "Invalid left-hand side in assignment."
  const LogicalOperatorMsg := "Logical AND/OR should be handled separately and not converted directly."

  /** The name `make_temporary` builds for id `id`: `tmp.<id>`. */
  function TempName(id: nat): string {
    DottedName("tmp", id)
  }

  /** `_<prefix>_<n>`: the label both label makers build. */
  function LabelName(prefix: string, n: nat): string {
    "_" + Suffixed(prefix, '_', n)
  }

  /** A label determines its prefix and its number, so labels made from different numbers differ. */
  lemma LabelNameInjective(p: string, n: nat, q: string, m: nat)
    ensures LabelName(p, n) == LabelName(q, m) ==> p == q && n == m
  {
    if LabelName(p, n) == LabelName(q, m) {
      assert Suffixed(p, '_', n) == LabelName(p, n)[1..] == LabelName(q, m)[1..] == Suffixed(q, '_', m);
      SuffixedInjective(p, n, q, m, '_');
    }
  }

  /** A temporary (`tmp.<id>`) never starts with '_', so it is never a label name. */
  lemma TempIsNotLabel(id: nat, p: string, n: nat)
    ensures TempName(id) != LabelName(p, n)
  {
    assert TempName(id)[0] == 't';
  }

  function ConvertUnop(op: U.UnaryOperator): T.UnaryOperator {
    match op
    case Negate => T.Negate
    case Complement => T.Complement
    case Not => T.Not
  }

  /** Every operator but the short-circuit ones has its TACKY counterpart. */
  function ConvertBinaryop(op: U.BinaryOperator): (r: Result<T.BinaryOperator>)
    ensures r.Err? <==> op == U.And || op == U.Or
    ensures r.Err? ==> r.msg == LogicalOperatorMsg
  {
    match op
    case Add => Ok(T.Add)
    case Subtract => Ok(T.Subtract)
    case Multiply => Ok(T.Multiply)
    case Divide => Ok(T.Divide)
    case Remainder => Ok(T.Remainder)
    case Equal => Ok(T.Equal)
    case NotEqual => Ok(T.NotEqual)
    case LessThan => Ok(T.LessThan)
    case LessOrEqual => Ok(T.LessOrEqual)
    case GreaterThan => Ok(T.GreaterThan)
    case GreaterOrEqual => Ok(T.GreaterEqual)
    case And => Err(LogicalOperatorMsg)
    case Or => Err(LogicalOperatorMsg)
  }

  /** Both conversions are one-to-one. */
  lemma ConvertOneToOne(a: U.BinaryOperator, b: U.BinaryOperator, x: U.UnaryOperator, y: U.UnaryOperator)
    ensures ConvertBinaryop(a).Ok? && ConvertBinaryop(a) == ConvertBinaryop(b) ==> a == b
    ensures ConvertUnop(x) == ConvertUnop(y) ==> x == y
  {
  }

  /** The generator's counters and the instruction list being appended to. */
  datatype GenState = GenState(labelCounter: nat, nextId: nat, instrs: seq<T.Instruction>)

  function Emit(st: GenState, code: seq<T.Instruction>): GenState {
    st.(instrs := st.instrs + code)
  }

  /** `st` after one temporary and `labels` labels have been made. */
  function Take(st: GenState, labels: nat): GenState {
    st.(nextId := st.nextId + 1, labelCounter := st.labelCounter + labels)
  }

  // ---------------------------------------------------------------
  // Expressions
  // ---------------------------------------------------------------

  /** `generate_tacky_for_expression`: the value of `e` and the state after lowering it. */
  function ExprAt(e: U.Expression, st: GenState): (Result<T.Val>, GenState)
    decreases e, 1
  {
    match e
    case Var(name) => (Ok(T.Var(name)), st)
    case Assign(left, right) =>
      var (rhs, s1) := ExprAt(right, st);
      if rhs.Err? then (rhs, s1)
      else if left.Var? then (rhs, Emit(s1, [T.Copy(rhs.value, T.Var(left.name))]))
      else (Err(InvalidAssignMsg), s1)
    case Constant(i) => (Ok(T.Constant(i)), st)
    case Unary(op, inner) =>
      var (src, s1) := ExprAt(inner, st);
      if src.Err? then (src, s1)
      else
        var dst := T.Var(TempName(s1.nextId));
        (Ok(dst), Emit(Take(s1, 0), [T.Unary(ConvertUnop(op), src.value, dst)]))
    case Binary(op, left, right) =>
      if op == U.And || op == U.Or then ShortCircuitAt(op, left, right, st)
      else
        var (src1, s1) := ExprAt(left, st);
        if src1.Err? then (src1, s1)
        else
          var (src2, s2) := ExprAt(right, s1);
          if src2.Err? then (src2, s2)
          else
            var dst := T.Var(TempName(s2.nextId));
            // `&&` and `||` were handled above, so the conversion cannot fail here
            var tackyOp := ConvertBinaryop(op).value;
            (Ok(dst), Emit(Take(s2, 0), [T.Binary(tackyOp, src1.value, src2.value, dst)]))
    case Conditional(condition, left, right) => ConditionalAt(condition, left, right, st)
  }

  /**
   * `&&` and `||`: a result temporary, the label the deciding operand jumps
   * to (`and_false`/`or_true`), the end label, then each operand followed
   * by its test (jump when 0 for `&&`, when not 0 for `||`), the
   * non-short-circuit constant, the jump to the end, the deciding label
   * and the other constant.
   */
  function ShortCircuitAt(op: U.BinaryOperator, left: U.Expression, right: U.Expression, st: GenState)
    : (Result<T.Val>, GenState)
    requires op == U.And || op == U.Or
    decreases U.Binary(op, left, right), 0
  {
    var isAnd := op == U.And;
    var result := T.Var(TempName(st.nextId));
    var decided := LabelName(if isAnd then "and_false" else "or_true", st.labelCounter);
    var endLabel := LabelName(if isAnd then "and_end" else "or_end", st.labelCounter + 1);
    var (v1, s1) := ExprAt(left, Take(st, 2));
    if v1.Err? then (v1, s1)
    else
      var (v2, s2) := ExprAt(right, Emit(s1, [ShortCircuitTest(isAnd, v1.value, decided)]));
      if v2.Err? then (v2, s2)
      else
        (Ok(result), Emit(s2, ShortCircuitTail(isAnd, v2.value, result, decided, endLabel)))
  }

  function ShortCircuitTest(isAnd: bool, v: T.Val, target: string): T.Instruction {
    if isAnd then T.JumpIfZero(v, target) else T.JumpIfNotZero(v, target)
  }

  function ShortCircuitTail(isAnd: bool, v2: T.Val, result: T.Val, decided: string, endLabel: string)
    : seq<T.Instruction>
  {
    [ShortCircuitTest(isAnd, v2, decided), T.Copy(T.Constant(if isAnd then 1 else 0), result),
     T.Jump(endLabel), T.Label(decided), T.Copy(T.Constant(if isAnd then 0 else 1), result), T.Label(endLabel)]
  }

  function ConditionalAt(condition: U.Expression, left: U.Expression, right: U.Expression, st: GenState)
    : (Result<T.Val>, GenState)
    decreases U.Conditional(condition, left, right), 0
  {
    var result := T.Var(TempName(st.nextId));
    var elseLabel := LabelName("cond_else", st.labelCounter);
    var endLabel := LabelName("cond_end", st.labelCounter + 1);
    var (c, s1) := ExprAt(condition, Take(st, 2));
    if c.Err? then (c, s1)
    else
      var (t, s2) := ExprAt(left, Emit(s1, [T.JumpIfZero(c.value, elseLabel)]));
      if t.Err? then (t, s2)
      else
        var (f, s3) := ExprAt(right, Emit(s2, [T.Copy(t.value, result), T.Jump(endLabel), T.Label(elseLabel)]));
        if f.Err? then (f, s3)
        else (Ok(result), Emit(s3, [T.Copy(f.value, result), T.Label(endLabel)]))
  }

  // ---------------------------------------------------------------
  // Statements, block items and blocks
  // ---------------------------------------------------------------

  /** `generate_tacky_for_statement`. */
  function StmtAt(s: C.Statement, st: GenState): (Result<()>, GenState)
    decreases s, 1
  {
    match s
    case Return(e) =>
      var (v, s1) := ExprAt(e, st);
      if v.Err? then (Err(v.msg), s1) else (Ok(()), Emit(s1, [T.Return(v.value)]))
    case Expression(e) =>
      var (v, s1) := ExprAt(e, st);
      if v.Err? then (Err(v.msg), s1) else (Ok(()), s1)
    case Empty => (Ok(()), st)
    case If(condition, thenStat, elseStat) =>
      if elseStat.Some? then
        var elseLabel := LabelName("else", st.labelCounter);
        var endLabel := LabelName("if_end", st.labelCounter + 1);
        var (c, s1) := ExprAt(condition, st.(labelCounter := st.labelCounter + 2));
        if c.Err? then (Err(c.msg), s1)
        else
          var (r2, s2) := StmtAt(thenStat, Emit(s1, [T.JumpIfZero(c.value, elseLabel)]));
          if r2.Err? then (r2, s2)
          else
            var (r3, s3) := StmtAt(elseStat.value, Emit(s2, [T.Jump(endLabel), T.Label(elseLabel)]));
            if r3.Err? then (r3, s3) else (Ok(()), Emit(s3, [T.Label(endLabel)]))
      else
        var endLabel := LabelName("if_end", st.labelCounter);
        var (c, s1) := ExprAt(condition, st.(labelCounter := st.labelCounter + 1));
        if c.Err? then (Err(c.msg), s1)
        else
          var (r2, s2) := StmtAt(thenStat, Emit(s1, [T.JumpIfZero(c.value, endLabel)]));
          if r2.Err? then (r2, s2) else (Ok(()), Emit(s2, [T.Label(endLabel)]))
    case Compound(b) => BlockFrom(b.blocks, 0, st)
    case Break(id) => (Ok(()), Emit(st, [T.Jump(LabelName(BreakLabelPrefix, id))]))
    case Continue(id) => (Ok(()), Emit(st, [T.Jump(LabelName(ContinueLabelPrefix, id))]))
    case DoWhile(body, condition, id) =>
      var startLabel := LabelName(LoopStartPrefix, id);
      var (r1, s1) := StmtAt(body, Emit(st, [T.Label(startLabel)]));
      if r1.Err? then (r1, s1)
      else
        var (c, s2) := ExprAt(condition, Emit(s1, [T.Label(LabelName(ContinueLabelPrefix, id))]));
        if c.Err? then (Err(c.msg), s2)
        else (Ok(()), Emit(s2, [T.JumpIfNotZero(c.value, startLabel), T.Label(LabelName(BreakLabelPrefix, id))]))
    case While(condition, body, id) =>
      var continueLabel := LabelName(ContinueLabelPrefix, id);
      var breakLabel := LabelName(BreakLabelPrefix, id);
      var (c, s1) := ExprAt(condition, Emit(st, [T.Label(continueLabel)]));
      if c.Err? then (Err(c.msg), s1)
      else
        var (r2, s2) := StmtAt(body, Emit(s1, [T.JumpIfZero(c.value, breakLabel)]));
        if r2.Err? then (r2, s2)
        else (Ok(()), Emit(s2, [T.Jump(continueLabel), T.Label(breakLabel)]))
    case For(init, condition, post, body, id) =>
      var (r1, s1) := if init.Some? then ItemAt(init.value, st) else (Ok(()), st);
      if r1.Err? then (r1, s1)
      else ForLoopAt(condition, post, body, id, Emit(s1, [T.Label(LabelName(LoopStartPrefix, id))]))
  }

  /** A `for` loop after its init and start label: the test when there is a condition, then the rest. */
  function ForLoopAt(condition: Option<U.Expression>, post: Option<U.Expression>, body: C.Statement, id: C.LoopId,
                     st: GenState): (Result<()>, GenState)
    decreases body, 3
  {
    var (c, s1) := if condition.Some? then ForTestAt(condition.value, LabelName(BreakLabelPrefix, id), st)
                   else (Ok(()), st);
    if c.Err? then (c, s1) else ForBodyAt(post, body, id, s1)
  }

  /** The body, the continue label, the post expression, the jump back and the break label. */
  function ForBodyAt(post: Option<U.Expression>, body: C.Statement, id: C.LoopId, st: GenState): (Result<()>, GenState)
    decreases body, 2
  {
    var (r1, s1) := StmtAt(body, st);
    if r1.Err? then (r1, s1)
    else
      var s2 := Emit(s1, [T.Label(LabelName(ContinueLabelPrefix, id))]);
      var (v, s3) := if post.Some? then ExprAt(post.value, s2) else (Ok(T.Constant(0)), s2);
      if v.Err? then (Err(v.msg), s3)
      else (Ok(()), Emit(s3, [T.Jump(LabelName(LoopStartPrefix, id)), T.Label(LabelName(BreakLabelPrefix, id))]))
  }

  /** A `for` loop's test: the condition, then a jump to the break label when it is 0. */
  function ForTestAt(condition: U.Expression, breakLabel: string, st: GenState): (Result<()>, GenState) {
    var (c, s1) := ExprAt(condition, st);
    if c.Err? then (Err(c.msg), s1) else (Ok(()), Emit(s1, [T.JumpIfZero(c.value, breakLabel)]))
  }

  /** `generate_tacky_for_block_item`: a declaration with an initializer is a copy into the variable. */
  function ItemAt(item: C.BlockItem, st: GenState): (Result<()>, GenState)
    decreases item
  {
    match item
    case D(decl) =>
      if decl.init.Some? then
        var (v, s1) := ExprAt(decl.init.value, st);
        if v.Err? then (Err(v.msg), s1) else (Ok(()), Emit(s1, [T.Copy(v.value, T.Var(decl.name))]))
      else (Ok(()), st)
    case S(s) => StmtAt(s, st)
  }

  /** `generate_tacky_for_block` from item `k` on, stopping at the first error. */
  function BlockFrom(items: seq<C.BlockItem>, k: nat, st: GenState): (Result<()>, GenState)
    requires k <= |items|
    decreases items, |items| - k
  {
    if k == |items| then (Ok(()), st)
    else
      var (r, s1) := ItemAt(items[k], st);
      if r.Err? then (r, s1) else BlockFrom(items, k + 1, s1)
  }

  // ---------------------------------------------------------------
  // Functions and programs
  // ---------------------------------------------------------------

  /** The body with the implicit `return 0` added unless it already ends in a return. */
  function WithImplicitReturn(instrs: seq<T.Instruction>): (r: seq<T.Instruction>)
    ensures |r| > 0 && r[|r| - 1].Return?
    ensures |instrs| <= |r| <= |instrs| + 1 && r[..|instrs|] == instrs
    ensures r == instrs <==> |instrs| > 0 && instrs[|instrs| - 1].Return?
    ensures r != instrs ==> r[|instrs|] == T.Return(T.Constant(0))
  {
    if |instrs| > 0 && instrs[|instrs| - 1].Return? then instrs else instrs + [T.Return(T.Constant(0))]
  }

  /** `generate_tacky_for_function`: the body starts from an empty list. */
  function FunctionAt(f: C.Function, labelCounter: nat, nextId: nat): (Result<T.Function>, GenState) {
    var (r, s1) := BlockFrom(f.body.blocks, 0, GenState(labelCounter, nextId, []));
    if r.Err? then (Err(r.msg), s1)
    else (Ok(T.Function(f.name, WithImplicitReturn(s1.instrs))), s1.(instrs := WithImplicitReturn(s1.instrs)))
  }

  function ProgramAt(p: C.Program, labelCounter: nat, nextId: nat): (Result<T.Program>, GenState) {
    var (r, s1) := FunctionAt(p.func, labelCounter, nextId);
    if r.Err? then (Err(r.msg), s1) else (Ok(T.Program(r.value)), s1)
  }

  // ---------------------------------------------------------------
  // Lowering only appends, and what it appends does not depend on the list
  // ---------------------------------------------------------------

  function Prepend(p: seq<T.Instruction>, st: GenState): GenState {
    st.(instrs := p + st.instrs)
  }

  lemma EmitPrepend(p: seq<T.Instruction>, st: GenState, code: seq<T.Instruction>)
    ensures Emit(Prepend(p, st), code) == Prepend(p, Emit(st, code))
  {
    assert p + st.instrs + code == p + (st.instrs + code);
  }

  /**
   * Lowering an expression after extra instructions `p` gives the same value
   * and counters, and the same instructions after `p`.
   */
  lemma {:induction false} ExprPrepend(e: U.Expression, st: GenState, p: seq<T.Instruction>)
    ensures ExprAt(e, Prepend(p, st)) == (ExprAt(e, st).0, Prepend(p, ExprAt(e, st).1))
    decreases e, 1
  {
    match e {
      case Var(_) =>
      case Constant(_) =>
      case Assign(left, right) =>
        ExprPrepend(right, st, p);
        var (rhs, s1) := ExprAt(right, st);
        if rhs.Ok? && left.Var? {
          EmitPrepend(p, s1, [T.Copy(rhs.value, T.Var(left.name))]);
        }
      case Unary(op, inner) =>
        ExprPrepend(inner, st, p);
        var (src, s1) := ExprAt(inner, st);
        if src.Ok? {
          EmitPrepend(p, Take(s1, 0), [T.Unary(ConvertUnop(op), src.value, T.Var(TempName(s1.nextId)))]);
        }
      case Binary(op, left, right) =>
        if op == U.And || op == U.Or {
          ShortCircuitPrepend(op, left, right, st, p);
        } else {
          ExprPrepend(left, st, p);
          var (src1, s1) := ExprAt(left, st);
          if src1.Ok? {
            ExprPrepend(right, s1, p);
            var (src2, s2) := ExprAt(right, s1);
            if src2.Ok? {
              EmitPrepend(p, Take(s2, 0),
                [T.Binary(ConvertBinaryop(op).value, src1.value, src2.value, T.Var(TempName(s2.nextId)))]);
            }
          }
        }
      case Conditional(condition, left, right) =>
        ConditionalPrepend(condition, left, right, st, p);
    }
  }

  lemma {:induction false} ShortCircuitPrepend(op: U.BinaryOperator, left: U.Expression, right: U.Expression,
                                               st: GenState, p: seq<T.Instruction>)
    requires op == U.And || op == U.Or
    ensures ShortCircuitAt(op, left, right, Prepend(p, st))
      == (ShortCircuitAt(op, left, right, st).0, Prepend(p, ShortCircuitAt(op, left, right, st).1))
    decreases U.Binary(op, left, right), 0
  {
    var isAnd := op == U.And;
    var result := T.Var(TempName(st.nextId));
    var decided := LabelName(if isAnd then "and_false" else "or_true", st.labelCounter);
    var endLabel := LabelName(if isAnd then "and_end" else "or_end", st.labelCounter + 1);
    assert Take(Prepend(p, st), 2) == Prepend(p, Take(st, 2));
    ExprPrepend(left, Take(st, 2), p);
    var (v1, s1) := ExprAt(left, Take(st, 2));
    if v1.Ok? {
      var jump1 := ShortCircuitTest(isAnd, v1.value, decided);
      EmitPrepend(p, s1, [jump1]);
      ExprPrepend(right, Emit(s1, [jump1]), p);
      var (v2, s2) := ExprAt(right, Emit(s1, [jump1]));
      if v2.Ok? {
        var tail := ShortCircuitTail(isAnd, v2.value, result, decided, endLabel);
        EmitPrepend(p, s2, tail);
        assert ShortCircuitAt(op, left, right, st) == (Ok(result), Emit(s2, tail));
        assert ShortCircuitAt(op, left, right, Prepend(p, st)) == (Ok(result), Emit(Prepend(p, s2), tail));
      }
    }
  }

  lemma {:induction false} ConditionalPrepend(condition: U.Expression, left: U.Expression, right: U.Expression,
                                              st: GenState, p: seq<T.Instruction>)
    ensures ConditionalAt(condition, left, right, Prepend(p, st))
      == (ConditionalAt(condition, left, right, st).0, Prepend(p, ConditionalAt(condition, left, right, st).1))
    decreases U.Conditional(condition, left, right), 0
  {
    var result := T.Var(TempName(st.nextId));
    var elseLabel := LabelName("cond_else", st.labelCounter);
    var endLabel := LabelName("cond_end", st.labelCounter + 1);
    ExprPrepend(condition, Take(st, 2), p);
    var (c, s1) := ExprAt(condition, Take(st, 2));
    if c.Ok? {
      var s1' := Emit(s1, [T.JumpIfZero(c.value, elseLabel)]);
      EmitPrepend(p, s1, [T.JumpIfZero(c.value, elseLabel)]);
      ExprPrepend(left, s1', p);
      var (t, s2) := ExprAt(left, s1');
      if t.Ok? {
        var s2' := Emit(s2, [T.Copy(t.value, result), T.Jump(endLabel), T.Label(elseLabel)]);
        EmitPrepend(p, s2, [T.Copy(t.value, result), T.Jump(endLabel), T.Label(elseLabel)]);
        ExprPrepend(right, s2', p);
        var (f, s3) := ExprAt(right, s2');
        if f.Ok? {
          EmitPrepend(p, s3, [T.Copy(f.value, result), T.Label(endLabel)]);
        }
      }
    }
  }

  /** The same for statements: lowering does not look at the instructions already in the list. */
  lemma {:induction false} StmtPrepend(s: C.Statement, st: GenState, p: seq<T.Instruction>)
    ensures StmtAt(s, Prepend(p, st)) == (StmtAt(s, st).0, Prepend(p, StmtAt(s, st).1))
    decreases s, 1
  {
    match s {
      case Return(e) =>
        ExprPrepend(e, st, p);
        var (v, s1) := ExprAt(e, st);
        if v.Ok? {
          EmitPrepend(p, s1, [T.Return(v.value)]);
        }
      case Expression(e) =>
        ExprPrepend(e, st, p);
      case Empty =>
      case If(condition, thenStat, elseStat) =>
        IfPrepend(condition, thenStat, elseStat, st, p);
      case Compound(b) =>
        BlockPrepend(b.blocks, 0, st, p);
      case Break(id) =>
        EmitPrepend(p, st, [T.Jump(LabelName(BreakLabelPrefix, id))]);
      case Continue(id) =>
        EmitPrepend(p, st, [T.Jump(LabelName(ContinueLabelPrefix, id))]);
      case DoWhile(body, condition, id) =>
        var startLabel := LabelName(LoopStartPrefix, id);
        EmitPrepend(p, st, [T.Label(startLabel)]);
        StmtPrepend(body, Emit(st, [T.Label(startLabel)]), p);
        var (r1, s1) := StmtAt(body, Emit(st, [T.Label(startLabel)]));
        if r1.Ok? {
          var s1' := Emit(s1, [T.Label(LabelName(ContinueLabelPrefix, id))]);
          EmitPrepend(p, s1, [T.Label(LabelName(ContinueLabelPrefix, id))]);
          ExprPrepend(condition, s1', p);
          var (c, s2) := ExprAt(condition, s1');
          if c.Ok? {
            EmitPrepend(p, s2, [T.JumpIfNotZero(c.value, startLabel), T.Label(LabelName(BreakLabelPrefix, id))]);
          }
        }
      case While(condition, body, id) =>
        var continueLabel := LabelName(ContinueLabelPrefix, id);
        var breakLabel := LabelName(BreakLabelPrefix, id);
        EmitPrepend(p, st, [T.Label(continueLabel)]);
        ExprPrepend(condition, Emit(st, [T.Label(continueLabel)]), p);
        var (c, s1) := ExprAt(condition, Emit(st, [T.Label(continueLabel)]));
        if c.Ok? {
          EmitPrepend(p, s1, [T.JumpIfZero(c.value, breakLabel)]);
          StmtPrepend(body, Emit(s1, [T.JumpIfZero(c.value, breakLabel)]), p);
          var (r2, s2) := StmtAt(body, Emit(s1, [T.JumpIfZero(c.value, breakLabel)]));
          if r2.Ok? {
            EmitPrepend(p, s2, [T.Jump(continueLabel), T.Label(breakLabel)]);
          }
        }
      case For(init, condition, post, body, id) =>
        ForPrepend(init, condition, post, body, id, st, p);
    }
  }

  lemma {:induction false} IfPrepend(condition: U.Expression, thenStat: C.Statement, elseStat: Option<C.Statement>,
                                     st: GenState, p: seq<T.Instruction>)
    ensures StmtAt(C.If(condition, thenStat, elseStat), Prepend(p, st))
      == (StmtAt(C.If(condition, thenStat, elseStat), st).0, Prepend(p, StmtAt(C.If(condition, thenStat, elseStat), st).1))
    decreases C.If(condition, thenStat, elseStat), 0
  {
    var n := if elseStat.Some? then 2 else 1;
    var falseLabel := LabelName(if elseStat.Some? then "else" else "if_end", st.labelCounter);
    var endLabel := LabelName("if_end", if elseStat.Some? then st.labelCounter + 1 else st.labelCounter);
    var s0 := st.(labelCounter := st.labelCounter + n);
    ExprPrepend(condition, s0, p);
    var (c, s1) := ExprAt(condition, s0);
    if c.Ok? {
      EmitPrepend(p, s1, [T.JumpIfZero(c.value, falseLabel)]);
      StmtPrepend(thenStat, Emit(s1, [T.JumpIfZero(c.value, falseLabel)]), p);
      var (r2, s2) := StmtAt(thenStat, Emit(s1, [T.JumpIfZero(c.value, falseLabel)]));
      if r2.Ok? {
        if elseStat.Some? {
          EmitPrepend(p, s2, [T.Jump(endLabel), T.Label(falseLabel)]);
          StmtPrepend(elseStat.value, Emit(s2, [T.Jump(endLabel), T.Label(falseLabel)]), p);
          var (r3, s3) := StmtAt(elseStat.value, Emit(s2, [T.Jump(endLabel), T.Label(falseLabel)]));
          if r3.Ok? {
            EmitPrepend(p, s3, [T.Label(endLabel)]);
          }
        } else {
          EmitPrepend(p, s2, [T.Label(endLabel)]);
        }
      }
    }
  }

  lemma {:induction false} ForPrepend(init: Option<C.BlockItem>, condition: Option<U.Expression>,
                                      post: Option<U.Expression>, body: C.Statement, id: C.LoopId,
                                      st: GenState, p: seq<T.Instruction>)
    ensures StmtAt(C.For(init, condition, post, body, id), Prepend(p, st))
      == (StmtAt(C.For(init, condition, post, body, id), st).0,
          Prepend(p, StmtAt(C.For(init, condition, post, body, id), st).1))
    decreases C.For(init, condition, post, body, id), 0
  {
    var startLabel := LabelName(LoopStartPrefix, id);
    if init.Some? {
      ItemPrepend(init.value, st, p);
    }
    var (r1, s1) := if init.Some? then ItemAt(init.value, st) else (Ok(()), st);
    if r1.Ok? {
      EmitPrepend(p, s1, [T.Label(startLabel)]);
      ForLoopPrepend(condition, post, body, id, Emit(s1, [T.Label(startLabel)]), p);
    }
  }

  lemma {:induction false} ForLoopPrepend(condition: Option<U.Expression>, post: Option<U.Expression>,
                                          body: C.Statement, id: C.LoopId, st: GenState, p: seq<T.Instruction>)
    ensures ForLoopAt(condition, post, body, id, Prepend(p, st))
      == (ForLoopAt(condition, post, body, id, st).0, Prepend(p, ForLoopAt(condition, post, body, id, st).1))
    decreases body, 3
  {
    var breakLabel := LabelName(BreakLabelPrefix, id);
    if condition.Some? {
      ExprPrepend(condition.value, st, p);
      var (c, sc) := ExprAt(condition.value, st);
      if c.Ok? {
        EmitPrepend(p, sc, [T.JumpIfZero(c.value, breakLabel)]);
      }
    }
    var (c, s1) := if condition.Some? then ForTestAt(condition.value, breakLabel, st) else (Ok(()), st);
    if c.Ok? {
      ForBodyPrepend(post, body, id, s1, p);
    }
  }

  lemma {:induction false} ForBodyPrepend(post: Option<U.Expression>, body: C.Statement, id: C.LoopId,
                                          st: GenState, p: seq<T.Instruction>)
    ensures ForBodyAt(post, body, id, Prepend(p, st))
      == (ForBodyAt(post, body, id, st).0, Prepend(p, ForBodyAt(post, body, id, st).1))
    decreases body, 2
  {
    var continueLabel := LabelName(ContinueLabelPrefix, id);
    StmtPrepend(body, st, p);
    var (r1, s1) := StmtAt(body, st);
    if r1.Ok? {
      EmitPrepend(p, s1, [T.Label(continueLabel)]);
      var s2 := Emit(s1, [T.Label(continueLabel)]);
      if post.Some? {
        ExprPrepend(post.value, s2, p);
      }
      var (v, s3) := if post.Some? then ExprAt(post.value, s2) else (Ok(T.Constant(0)), s2);
      if v.Ok? {
        EmitPrepend(p, s3, [T.Jump(LabelName(LoopStartPrefix, id)), T.Label(LabelName(BreakLabelPrefix, id))]);
      }
    }
  }

  lemma {:induction false} ItemPrepend(item: C.BlockItem, st: GenState, p: seq<T.Instruction>)
    ensures ItemAt(item, Prepend(p, st)) == (ItemAt(item, st).0, Prepend(p, ItemAt(item, st).1))
    decreases item
  {
    match item {
      case D(decl) =>
        if decl.init.Some? {
          ExprPrepend(decl.init.value, st, p);
          var (v, s1) := ExprAt(decl.init.value, st);
          if v.Ok? {
            EmitPrepend(p, s1, [T.Copy(v.value, T.Var(decl.name))]);
          }
        }
      case S(s) =>
        StmtPrepend(s, st, p);
    }
  }

  lemma {:induction false} BlockPrepend(items: seq<C.BlockItem>, k: nat, st: GenState, p: seq<T.Instruction>)
    requires k <= |items|
    ensures BlockFrom(items, k, Prepend(p, st)) == (BlockFrom(items, k, st).0, Prepend(p, BlockFrom(items, k, st).1))
    decreases items, |items| - k
  {
    if k < |items| {
      ItemPrepend(items[k], st, p);
      var (r, s1) := ItemAt(items[k], st);
      if r.Ok? {
        BlockPrepend(items, k + 1, s1, p);
      }
    }
  }

  // ---------------------------------------------------------------
  // The counters only grow, and every temporary is new
  // ---------------------------------------------------------------

  predicate Advances(before: GenState, after: GenState) {
    before.nextId <= after.nextId && before.labelCounter <= after.labelCounter
  }

  /** A successful value is a temporary whose id was handed out between `before` and `after`. */
  predicate NewTemporary(v: Result<T.Val>, before: GenState, after: GenState) {
    v.Ok? ==> exists k :: before.nextId <= k < after.nextId && v.value == T.Var(TempName(k))
  }

  /**
   * Lowering an expression never moves a counter back, and the value of a
   * unary, binary or conditional expression is a temporary with an id no
   * earlier lowering used.
   */
  lemma {:induction false} ExprAdvances(e: U.Expression, st: GenState)
    ensures Advances(st, ExprAt(e, st).1)
    ensures e.Unary? || e.Binary? || e.Conditional? ==> NewTemporary(ExprAt(e, st).0, st, ExprAt(e, st).1)
    decreases e, 1
  {
    match e {
      case Var(_) =>
      case Constant(_) =>
      case Assign(left, right) =>
        ExprAdvances(right, st);
      case Unary(op, inner) =>
        ExprAdvances(inner, st);
        var (src, s1) := ExprAt(inner, st);
        if src.Ok? {
          assert ExprAt(e, st).0.value == T.Var(TempName(s1.nextId));
        }
      case Binary(op, left, right) =>
        if op == U.And || op == U.Or {
          ShortCircuitAdvances(op, left, right, st);
        } else {
          ExprAdvances(left, st);
          var (src1, s1) := ExprAt(left, st);
          if src1.Ok? {
            ExprAdvances(right, s1);
            var (src2, s2) := ExprAt(right, s1);
            if src2.Ok? {
              assert ExprAt(e, st).0.value == T.Var(TempName(s2.nextId));
            }
          }
        }
      case Conditional(condition, left, right) =>
        ConditionalAdvances(condition, left, right, st);
    }
  }

  lemma {:induction false} ShortCircuitAdvances(op: U.BinaryOperator, left: U.Expression, right: U.Expression,
                                                st: GenState)
    requires op == U.And || op == U.Or
    ensures Advances(st, ShortCircuitAt(op, left, right, st).1)
    ensures NewTemporary(ShortCircuitAt(op, left, right, st).0, st, ShortCircuitAt(op, left, right, st).1)
    decreases U.Binary(op, left, right), 0
  {
    var isAnd := op == U.And;
    var decided := LabelName(if isAnd then "and_false" else "or_true", st.labelCounter);
    ExprAdvances(left, Take(st, 2));
    var (v1, s1) := ExprAt(left, Take(st, 2));
    if v1.Ok? {
      ExprAdvances(right, Emit(s1, [ShortCircuitTest(isAnd, v1.value, decided)]));
      var r := ShortCircuitAt(op, left, right, st);
      if r.0.Ok? {
        assert r.0.value == T.Var(TempName(st.nextId));
      }
    }
  }

  lemma {:induction false} ConditionalAdvances(condition: U.Expression, left: U.Expression, right: U.Expression,
                                               st: GenState)
    ensures Advances(st, ConditionalAt(condition, left, right, st).1)
    ensures NewTemporary(ConditionalAt(condition, left, right, st).0, st, ConditionalAt(condition, left, right, st).1)
    decreases U.Conditional(condition, left, right), 0
  {
    var result := T.Var(TempName(st.nextId));
    var elseLabel := LabelName("cond_else", st.labelCounter);
    var endLabel := LabelName("cond_end", st.labelCounter + 1);
    ExprAdvances(condition, Take(st, 2));
    var (c, s1) := ExprAt(condition, Take(st, 2));
    if c.Ok? {
      var s1' := Emit(s1, [T.JumpIfZero(c.value, elseLabel)]);
      ExprAdvances(left, s1');
      var (t, s2) := ExprAt(left, s1');
      if t.Ok? {
        var s2' := Emit(s2, [T.Copy(t.value, result), T.Jump(endLabel), T.Label(elseLabel)]);
        ExprAdvances(right, s2');
        var r := ConditionalAt(condition, left, right, st);
        if r.0.Ok? {
          assert r.0.value == result;
        }
      }
    }
  }

  /** Lowering a statement never moves a counter back, so labels and temporaries are not handed out twice. */
  lemma {:induction false} StmtAdvances(s: C.Statement, st: GenState)
    ensures Advances(st, StmtAt(s, st).1)
    decreases s, 1
  {
    match s {
      case Return(e) =>
        ExprAdvances(e, st);
      case Expression(e) =>
        ExprAdvances(e, st);
      case Empty =>
      case If(condition, thenStat, elseStat) =>
        IfAdvances(condition, thenStat, elseStat, st);
      case Compound(b) =>
        BlockAdvances(b.blocks, 0, st);
      case Break(id) =>
      case Continue(id) =>
      case DoWhile(body, condition, id) =>
        var startLabel := LabelName(LoopStartPrefix, id);
        StmtAdvances(body, Emit(st, [T.Label(startLabel)]));
        var (r1, s1) := StmtAt(body, Emit(st, [T.Label(startLabel)]));
        if r1.Ok? {
          ExprAdvances(condition, Emit(s1, [T.Label(LabelName(ContinueLabelPrefix, id))]));
        }
      case While(condition, body, id) =>
        var continueLabel := LabelName(ContinueLabelPrefix, id);
        var breakLabel := LabelName(BreakLabelPrefix, id);
        ExprAdvances(condition, Emit(st, [T.Label(continueLabel)]));
        var (c, s1) := ExprAt(condition, Emit(st, [T.Label(continueLabel)]));
        if c.Ok? {
          StmtAdvances(body, Emit(s1, [T.JumpIfZero(c.value, breakLabel)]));
        }
      case For(init, condition, post, body, id) =>
        ForAdvances(init, condition, post, body, id, st);
    }
  }

  lemma {:induction false} IfAdvances(condition: U.Expression, thenStat: C.Statement, elseStat: Option<C.Statement>,
                                      st: GenState)
    ensures Advances(st, StmtAt(C.If(condition, thenStat, elseStat), st).1)
    decreases C.If(condition, thenStat, elseStat), 0
  {
    var n := if elseStat.Some? then 2 else 1;
    var falseLabel := LabelName(if elseStat.Some? then "else" else "if_end", st.labelCounter);
    var endLabel := LabelName("if_end", if elseStat.Some? then st.labelCounter + 1 else st.labelCounter);
    var s0 := st.(labelCounter := st.labelCounter + n);
    ExprAdvances(condition, s0);
    var (c, s1) := ExprAt(condition, s0);
    if c.Ok? {
      StmtAdvances(thenStat, Emit(s1, [T.JumpIfZero(c.value, falseLabel)]));
      var (r2, s2) := StmtAt(thenStat, Emit(s1, [T.JumpIfZero(c.value, falseLabel)]));
      if r2.Ok? && elseStat.Some? {
        StmtAdvances(elseStat.value, Emit(s2, [T.Jump(endLabel), T.Label(falseLabel)]));
      }
    }
  }

  lemma {:induction false} ForAdvances(init: Option<C.BlockItem>, condition: Option<U.Expression>,
                                       post: Option<U.Expression>, body: C.Statement, id: C.LoopId, st: GenState)
    ensures Advances(st, StmtAt(C.For(init, condition, post, body, id), st).1)
    decreases C.For(init, condition, post, body, id), 0
  {
    if init.Some? {
      ItemAdvances(init.value, st);
    }
    var (r1, s1) := if init.Some? then ItemAt(init.value, st) else (Ok(()), st);
    if r1.Ok? {
      ForLoopAdvances(condition, post, body, id, Emit(s1, [T.Label(LabelName(LoopStartPrefix, id))]));
    }
  }

  lemma {:induction false} ForLoopAdvances(condition: Option<U.Expression>, post: Option<U.Expression>,
                                           body: C.Statement, id: C.LoopId, st: GenState)
    ensures Advances(st, ForLoopAt(condition, post, body, id, st).1)
    decreases body, 3
  {
    if condition.Some? {
      ExprAdvances(condition.value, st);
    }
    var (c, s1) := if condition.Some? then ForTestAt(condition.value, LabelName(BreakLabelPrefix, id), st)
                   else (Ok(()), st);
    if c.Ok? {
      ForBodyAdvances(post, body, id, s1);
    }
  }

  lemma {:induction false} ForBodyAdvances(post: Option<U.Expression>, body: C.Statement, id: C.LoopId,
                                           st: GenState)
    ensures Advances(st, ForBodyAt(post, body, id, st).1)
    decreases body, 2
  {
    StmtAdvances(body, st);
    var (r1, s1) := StmtAt(body, st);
    if r1.Ok? && post.Some? {
      ExprAdvances(post.value, Emit(s1, [T.Label(LabelName(ContinueLabelPrefix, id))]));
    }
  }

  lemma {:induction false} ItemAdvances(item: C.BlockItem, st: GenState)
    ensures Advances(st, ItemAt(item, st).1)
    decreases item
  {
    match item {
      case D(decl) =>
        if decl.init.Some? {
          ExprAdvances(decl.init.value, st);
        }
      case S(s) =>
        StmtAdvances(s, st);
    }
  }

  lemma {:induction false} BlockAdvances(items: seq<C.BlockItem>, k: nat, st: GenState)
    requires k <= |items|
    ensures Advances(st, BlockFrom(items, k, st).1)
    decreases items, |items| - k
  {
    if k < |items| {
      ItemAdvances(items[k], st);
      var (r, s1) := ItemAt(items[k], st);
      if r.Ok? {
        BlockAdvances(items, k + 1, s1);
      }
    }
  }

  /** `st` with an empty instruction list: where the code of a construct is read off. */
  function Fresh(st: GenState): GenState {
    st.(instrs := [])
  }

  /** The instructions lowering `e` appends, its value, and the counters after it. */
  function ExprCode(e: U.Expression, st: GenState): seq<T.Instruction> {
    ExprAt(e, Fresh(st)).1.instrs
  }

  function ExprVal(e: U.Expression, st: GenState): Result<T.Val> {
    ExprAt(e, Fresh(st)).0
  }

  function ExprNext(e: U.Expression, st: GenState): GenState {
    Fresh(ExprAt(e, Fresh(st)).1)
  }

  function StmtCode(s: C.Statement, st: GenState): seq<T.Instruction> {
    StmtAt(s, Fresh(st)).1.instrs
  }

  function StmtNext(s: C.Statement, st: GenState): GenState {
    Fresh(StmtAt(s, Fresh(st)).1)
  }

  /**
   * Lowering an expression keeps the list it is given as a prefix and
   * appends its own code, which depends only on the counters.
   */
  lemma ExprAppends(e: U.Expression, st: GenState)
    ensures ExprAt(e, st).0 == ExprVal(e, st)
    ensures ExprAt(e, st).1 == ExprNext(e, st).(instrs := st.instrs + ExprCode(e, st))
  {
    ExprPrepend(e, Fresh(st), st.instrs);
    assert Prepend(st.instrs, Fresh(st)) == st;
  }

  lemma StmtAppends(s: C.Statement, st: GenState)
    ensures StmtAt(s, st).0 == StmtAt(s, Fresh(st)).0
    ensures StmtAt(s, st).1 == StmtNext(s, st).(instrs := st.instrs + StmtCode(s, st))
  {
    StmtPrepend(s, Fresh(st), st.instrs);
    assert Prepend(st.instrs, Fresh(st)) == st;
  }

  /** Reading code off a fresh state does not depend on which fresh state it is. */
  lemma FreshIdempotent(st: GenState, code: seq<T.Instruction>)
    ensures Fresh(Fresh(st)) == Fresh(st) && Fresh(Emit(st, code)) == Fresh(st)
  {
  }

  /**
   * `e1 && e2` and `e1 || e2`: e1's code, its test, e2's code, then the
   * tail: e2's test, the non-short-circuit constant into the result, a
   * jump to the end, the deciding label, the other constant and the end
   * label. The two labels differ.
   */
  lemma ShortCircuitLayout(op: U.BinaryOperator, left: U.Expression, right: U.Expression, st: GenState)
    requires op == U.And || op == U.Or
    requires ExprAt(U.Binary(op, left, right), st).0.Ok?
    ensures var isAnd := op == U.And;
      var s0 := Take(Fresh(st), 2);
      var decided := LabelName(if isAnd then "and_false" else "or_true", st.labelCounter);
      var endLabel := LabelName(if isAnd then "and_end" else "or_end", st.labelCounter + 1);
      var result := T.Var(TempName(st.nextId));
      ExprVal(left, s0).Ok? && ExprVal(right, ExprNext(left, s0)).Ok? &&
      ExprVal(U.Binary(op, left, right), st) == Ok(result) &&
      ExprCode(U.Binary(op, left, right), st)
        == ExprCode(left, s0) + [ShortCircuitTest(isAnd, ExprVal(left, s0).value, decided)]
           + ExprCode(right, ExprNext(left, s0))
           + ShortCircuitTail(isAnd, ExprVal(right, ExprNext(left, s0)).value, result, decided, endLabel) &&
      decided != endLabel
  {
    var isAnd := op == U.And;
    var s0 := Take(Fresh(st), 2);
    var decided := LabelName(if isAnd then "and_false" else "or_true", st.labelCounter);
    var endLabel := LabelName(if isAnd then "and_end" else "or_end", st.labelCounter + 1);
    var result := T.Var(TempName(st.nextId));
    ExprAppends(U.Binary(op, left, right), st);
    assert ExprAt(U.Binary(op, left, right), Fresh(st)) == ShortCircuitAt(op, left, right, Fresh(st));
    assert Fresh(s0) == s0;
    var (v1, s1) := ExprAt(left, s0);
    var j1 := ShortCircuitTest(isAnd, v1.value, decided);
    FreshIdempotent(s1, [j1]);
    ExprAppends(right, Emit(s1, [j1]));
    var (v2, s2) := ExprAt(right, Emit(s1, [j1]));
    assert ExprAt(U.Binary(op, left, right), Fresh(st)) == (Ok(result), Emit(s2, ShortCircuitTail(isAnd, v2.value, result, decided, endLabel)));
    LabelNameInjective(if isAnd then "and_false" else "or_true", st.labelCounter,
                       if isAnd then "and_end" else "or_end", st.labelCounter + 1);
  }

  /** `&&` jumps to `and_false` on a zero operand and yields 1 only when both are non-zero. */
  lemma AndLayout(left: U.Expression, right: U.Expression, st: GenState)
    requires ExprAt(U.Binary(U.And, left, right), st).0.Ok?
    ensures var s0 := Take(Fresh(st), 2);
      var falseLabel := LabelName("and_false", st.labelCounter);
      var endLabel := LabelName("and_end", st.labelCounter + 1);
      var result := T.Var(TempName(st.nextId));
      ExprVal(left, s0).Ok? && ExprVal(right, ExprNext(left, s0)).Ok? &&
      ExprCode(U.Binary(U.And, left, right), st)
        == ExprCode(left, s0) + [T.JumpIfZero(ExprVal(left, s0).value, falseLabel)]
           + ExprCode(right, ExprNext(left, s0))
           + [T.JumpIfZero(ExprVal(right, ExprNext(left, s0)).value, falseLabel),
              T.Copy(T.Constant(1), result), T.Jump(endLabel), T.Label(falseLabel),
              T.Copy(T.Constant(0), result), T.Label(endLabel)]
  {
    ShortCircuitLayout(U.And, left, right, st);
  }

  /** `||` mirrors `&&`: jumps to `or_true` on a non-zero operand, with the constants swapped. */
  lemma OrLayout(left: U.Expression, right: U.Expression, st: GenState)
    requires ExprAt(U.Binary(U.Or, left, right), st).0.Ok?
    ensures var s0 := Take(Fresh(st), 2);
      var trueLabel := LabelName("or_true", st.labelCounter);
      var endLabel := LabelName("or_end", st.labelCounter + 1);
      var result := T.Var(TempName(st.nextId));
      ExprVal(left, s0).Ok? && ExprVal(right, ExprNext(left, s0)).Ok? &&
      ExprCode(U.Binary(U.Or, left, right), st)
        == ExprCode(left, s0) + [T.JumpIfNotZero(ExprVal(left, s0).value, trueLabel)]
           + ExprCode(right, ExprNext(left, s0))
           + [T.JumpIfNotZero(ExprVal(right, ExprNext(left, s0)).value, trueLabel),
              T.Copy(T.Constant(0), result), T.Jump(endLabel), T.Label(trueLabel),
              T.Copy(T.Constant(1), result), T.Label(endLabel)]
  {
    ShortCircuitLayout(U.Or, left, right, st);
  }

  /**
   * `c ? e1 : e2`: the condition, a jump to the else label when it is 0,
   * e1 copied into the result, a jump to the end, the else label, e2
   * copied into the result and the end label.
   */
  lemma ConditionalLayout(condition: U.Expression, left: U.Expression, right: U.Expression, st: GenState)
    requires ExprAt(U.Conditional(condition, left, right), st).0.Ok?
    ensures var s0 := Take(Fresh(st), 2);
      var elseLabel := LabelName("cond_else", st.labelCounter);
      var endLabel := LabelName("cond_end", st.labelCounter + 1);
      var result := T.Var(TempName(st.nextId));
      var s1 := ExprNext(condition, s0);
      var s2 := ExprNext(left, s1);
      ExprVal(condition, s0).Ok? && ExprVal(left, s1).Ok? && ExprVal(right, s2).Ok? &&
      ExprVal(U.Conditional(condition, left, right), st) == Ok(result) &&
      ExprCode(U.Conditional(condition, left, right), st)
        == ExprCode(condition, s0) + [T.JumpIfZero(ExprVal(condition, s0).value, elseLabel)]
           + ExprCode(left, s1)
           + [T.Copy(ExprVal(left, s1).value, result), T.Jump(endLabel), T.Label(elseLabel)]
           + ExprCode(right, s2)
           + [T.Copy(ExprVal(right, s2).value, result), T.Label(endLabel)] &&
      elseLabel != endLabel
  {
    var s0 := Take(Fresh(st), 2);
    var elseLabel := LabelName("cond_else", st.labelCounter);
    var endLabel := LabelName("cond_end", st.labelCounter + 1);
    var result := T.Var(TempName(st.nextId));
    ExprAppends(U.Conditional(condition, left, right), st);
    assert Fresh(s0) == s0;
    assert ExprAt(U.Conditional(condition, left, right), Fresh(st)).0.Ok?;
    assert ExprAt(U.Conditional(condition, left, right), Fresh(st)) == ConditionalAt(condition, left, right, Fresh(st));
    var (c, s1) := ExprAt(condition, s0);
    assert c.Ok?;
    var mid1 := [T.JumpIfZero(c.value, elseLabel)];
    FreshIdempotent(s1, mid1);
    ExprAppends(left, Emit(s1, mid1));
    var (t, s2) := ExprAt(left, Emit(s1, mid1));
    var mid2 := [T.Copy(t.value, result), T.Jump(endLabel), T.Label(elseLabel)];
    FreshIdempotent(s2, mid2);
    FreshIdempotent(ExprNext(condition, s0), []);
    ExprAppends(right, Emit(s2, mid2));
    var (f, s3) := ExprAt(right, Emit(s2, mid2));
    assert ExprAt(U.Conditional(condition, left, right), Fresh(st))
      == (Ok(result), Emit(s3, [T.Copy(f.value, result), T.Label(endLabel)]));
    LabelNameInjective("cond_else", st.labelCounter, "cond_end", st.labelCounter + 1);
  }

  /** An assignment evaluates to its right-hand side, after copying it into the variable. */
  lemma AssignLayout(name: string, right: U.Expression, st: GenState)
    requires ExprAt(U.Assign(U.Var(name), right), st).0.Ok?
    ensures ExprVal(right, st).Ok?
    ensures ExprVal(U.Assign(U.Var(name), right), st) == ExprVal(right, st)
    ensures ExprCode(U.Assign(U.Var(name), right), st)
      == ExprCode(right, st) + [T.Copy(ExprVal(right, st).value, T.Var(name))]
  {
    ExprAppends(U.Assign(U.Var(name), right), st);
    assert Fresh(Fresh(st)) == Fresh(st);
  }

  function ItemCode(item: C.BlockItem, st: GenState): seq<T.Instruction> {
    ItemAt(item, Fresh(st)).1.instrs
  }

  function ItemNext(item: C.BlockItem, st: GenState): GenState {
    Fresh(ItemAt(item, Fresh(st)).1)
  }

  lemma ItemAppends(item: C.BlockItem, st: GenState)
    ensures ItemAt(item, st).0 == ItemAt(item, Fresh(st)).0
    ensures ItemAt(item, st).1 == ItemNext(item, st).(instrs := st.instrs + ItemCode(item, st))
  {
    ItemPrepend(item, Fresh(st), st.instrs);
    assert Prepend(st.instrs, Fresh(st)) == st;
  }

  /**
   * `while (c) body` with loop id `id`: the continue label, the condition,
   * a jump to the break label when it is 0, the body, a jump back to the
   * continue label and the break label.
   */
  lemma WhileLayout(condition: U.Expression, body: C.Statement, id: C.LoopId, st: GenState)
    requires StmtAt(C.While(condition, body, id), st).0.Ok?
    ensures var continueLabel := LabelName(ContinueLabelPrefix, id);
      var breakLabel := LabelName(BreakLabelPrefix, id);
      ExprVal(condition, st).Ok? &&
      StmtCode(C.While(condition, body, id), st)
        == [T.Label(continueLabel)] + ExprCode(condition, st)
           + [T.JumpIfZero(ExprVal(condition, st).value, breakLabel)]
           + StmtCode(body, ExprNext(condition, st))
           + [T.Jump(continueLabel), T.Label(breakLabel)]
  {
    var continueLabel := LabelName(ContinueLabelPrefix, id);
    var breakLabel := LabelName(BreakLabelPrefix, id);
    StmtAppends(C.While(condition, body, id), st);
    var f0 := Fresh(st);
    var e0 := Emit(f0, [T.Label(continueLabel)]);
    FreshIdempotent(f0, [T.Label(continueLabel)]);
    FreshIdempotent(st, []);
    ExprAppends(condition, e0);
    var (c, s1) := ExprAt(condition, e0);
    var jump := [T.JumpIfZero(c.value, breakLabel)];
    FreshIdempotent(s1, jump);
    FreshIdempotent(ExprNext(condition, st), []);
    StmtAppends(body, Emit(s1, jump));
    var (r2, s2) := StmtAt(body, Emit(s1, jump));
    assert StmtAt(C.While(condition, body, id), f0) == (Ok(()), Emit(s2, [T.Jump(continueLabel), T.Label(breakLabel)]));
  }

  /**
   * `do body while (c)` with loop id `id`: the start label, the body, the
   * continue label, the condition, a jump back to the start when it is
   * not 0 and the break label.
   */
  lemma DoWhileLayout(body: C.Statement, condition: U.Expression, id: C.LoopId, st: GenState)
    requires StmtAt(C.DoWhile(body, condition, id), st).0.Ok?
    ensures var startLabel := LabelName(LoopStartPrefix, id);
      ExprVal(condition, StmtNext(body, st)).Ok? &&
      StmtCode(C.DoWhile(body, condition, id), st)
        == [T.Label(startLabel)] + StmtCode(body, st)
           + [T.Label(LabelName(ContinueLabelPrefix, id))]
           + ExprCode(condition, StmtNext(body, st))
           + [T.JumpIfNotZero(ExprVal(condition, StmtNext(body, st)).value, startLabel),
              T.Label(LabelName(BreakLabelPrefix, id))]
  {
    var startLabel := LabelName(LoopStartPrefix, id);
    var continueLabel := LabelName(ContinueLabelPrefix, id);
    StmtAppends(C.DoWhile(body, condition, id), st);
    var f0 := Fresh(st);
    var e0 := Emit(f0, [T.Label(startLabel)]);
    FreshIdempotent(f0, [T.Label(startLabel)]);
    FreshIdempotent(st, []);
    StmtAppends(body, e0);
    var (r1, s1) := StmtAt(body, e0);
    var mid := [T.Label(continueLabel)];
    FreshIdempotent(s1, mid);
    FreshIdempotent(StmtNext(body, st), []);
    ExprAppends(condition, Emit(s1, mid));
    var (c, s2) := ExprAt(condition, Emit(s1, mid));
    assert StmtAt(C.DoWhile(body, condition, id), f0)
      == (Ok(()), Emit(s2, [T.JumpIfNotZero(c.value, startLabel), T.Label(LabelName(BreakLabelPrefix, id))]));
  }

  /** The code of a `for` loop after its init: the test, then the body part. */
  function ForLoopCode(condition: Option<U.Expression>, post: Option<U.Expression>, body: C.Statement,
                       id: C.LoopId, st: GenState): seq<T.Instruction> {
    ForLoopAt(condition, post, body, id, Fresh(st)).1.instrs
  }

  function ForBodyCode(post: Option<U.Expression>, body: C.Statement, id: C.LoopId, st: GenState)
    : seq<T.Instruction> {
    ForBodyAt(post, body, id, Fresh(st)).1.instrs
  }

  /** `for (init; c; post) body`: the init item's code, the start label, then the rest of the loop. */
  lemma ForLayout(init: Option<C.BlockItem>, condition: Option<U.Expression>, post: Option<U.Expression>,
                  body: C.Statement, id: C.LoopId, st: GenState)
    requires StmtAt(C.For(init, condition, post, body, id), st).0.Ok?
    ensures var afterInit := if init.Some? then ItemNext(init.value, st) else Fresh(st);
      StmtCode(C.For(init, condition, post, body, id), st)
        == (if init.Some? then ItemCode(init.value, st) else [])
           + [T.Label(LabelName(LoopStartPrefix, id))]
           + ForLoopCode(condition, post, body, id, afterInit)
  {
    var startLabel := LabelName(LoopStartPrefix, id);
    var f0 := Fresh(st);
    FreshIdempotent(st, []);
    StmtAppends(C.For(init, condition, post, body, id), st);
    var (r1, s1) := if init.Some? then ItemAt(init.value, f0) else (Ok(()), f0);
    if init.Some? {
      ItemAppends(init.value, f0);
    }
    var afterInit := if init.Some? then ItemNext(init.value, st) else Fresh(st);
    assert Fresh(s1) == afterInit;
    FreshIdempotent(s1, [T.Label(startLabel)]);
    ForLoopPrepend(condition, post, body, id, Fresh(s1), s1.instrs + [T.Label(startLabel)]);
    assert Prepend(s1.instrs + [T.Label(startLabel)], Fresh(s1)) == Emit(s1, [T.Label(startLabel)]);
  }

  /**
   * The test of a `for` loop: with a condition, its code and a jump to the
   * break label when it is 0; without one, nothing, so the loop only ends
   * by `break`.
   */
  lemma ForTestLayout(condition: Option<U.Expression>, post: Option<U.Expression>, body: C.Statement,
                      id: C.LoopId, st: GenState)
    requires ForLoopAt(condition, post, body, id, Fresh(st)).0.Ok?
    ensures condition.None? ==> ForLoopCode(condition, post, body, id, st) == ForBodyCode(post, body, id, st)
    ensures condition.Some? ==>
      ExprVal(condition.value, st).Ok? &&
      ForLoopCode(condition, post, body, id, st)
        == ExprCode(condition.value, st)
           + [T.JumpIfZero(ExprVal(condition.value, st).value, LabelName(BreakLabelPrefix, id))]
           + ForBodyCode(post, body, id, ExprNext(condition.value, st))
  {
    var f0 := Fresh(st);
    FreshIdempotent(st, []);
    if condition.Some? {
      var breakLabel := LabelName(BreakLabelPrefix, id);
      var (c, s1) := ExprAt(condition.value, f0);
      var s2 := Emit(s1, [T.JumpIfZero(c.value, breakLabel)]);
      FreshIdempotent(s1, [T.JumpIfZero(c.value, breakLabel)]);
      ForBodyPrepend(post, body, id, Fresh(s2), s2.instrs);
      assert Prepend(s2.instrs, Fresh(s2)) == s2;
    }
  }

  /**
   * The rest of a `for` loop: the body, the continue label (so `continue`
   * runs the post expression), the post expression's code, a jump back to
   * the start and the break label.
   */
  lemma ForBodyLayout(post: Option<U.Expression>, body: C.Statement, id: C.LoopId, st: GenState)
    requires ForBodyAt(post, body, id, Fresh(st)).0.Ok?
    ensures ForBodyCode(post, body, id, st)
      == StmtCode(body, st) + [T.Label(LabelName(ContinueLabelPrefix, id))]
         + (if post.Some? then ExprCode(post.value, StmtNext(body, st)) else [])
         + [T.Jump(LabelName(LoopStartPrefix, id)), T.Label(LabelName(BreakLabelPrefix, id))]
  {
    var f0 := Fresh(st);
    FreshIdempotent(st, []);
    var (r1, s1) := StmtAt(body, f0);
    var continueLabel := LabelName(ContinueLabelPrefix, id);
    var s2 := Emit(s1, [T.Label(continueLabel)]);
    FreshIdempotent(s1, [T.Label(continueLabel)]);
    if post.Some? {
      ExprAppends(post.value, s2);
    }
  }

  /**
   * `if (c) s1 else s2`: the condition, a jump to the else label when it
   * is 0, s1, a jump to the end label, the else label, s2 and the end
   * label. Both labels come from the label counter and differ.
   */
  lemma IfElseLayout(condition: U.Expression, thenStat: C.Statement, elseStat: C.Statement, st: GenState)
    requires StmtAt(C.If(condition, thenStat, Some(elseStat)), st).0.Ok?
    ensures var s0 := Fresh(st).(labelCounter := st.labelCounter + 2);
      var elseLabel := LabelName("else", st.labelCounter);
      var endLabel := LabelName("if_end", st.labelCounter + 1);
      var s1 := ExprNext(condition, s0);
      ExprVal(condition, s0).Ok? &&
      StmtCode(C.If(condition, thenStat, Some(elseStat)), st)
        == ExprCode(condition, s0) + [T.JumpIfZero(ExprVal(condition, s0).value, elseLabel)]
           + StmtCode(thenStat, s1) + [T.Jump(endLabel), T.Label(elseLabel)]
           + StmtCode(elseStat, StmtNext(thenStat, s1)) + [T.Label(endLabel)] &&
      elseLabel != endLabel
  {
    var s0 := Fresh(st).(labelCounter := st.labelCounter + 2);
    var elseLabel := LabelName("else", st.labelCounter);
    var endLabel := LabelName("if_end", st.labelCounter + 1);
    StmtAppends(C.If(condition, thenStat, Some(elseStat)), st);
    assert Fresh(s0) == s0;
    var (c, s1) := ExprAt(condition, s0);
    var jump := [T.JumpIfZero(c.value, elseLabel)];
    FreshIdempotent(s1, jump);
    FreshIdempotent(ExprNext(condition, s0), []);
    StmtAppends(thenStat, Emit(s1, jump));
    var (r2, s2) := StmtAt(thenStat, Emit(s1, jump));
    var mid := [T.Jump(endLabel), T.Label(elseLabel)];
    FreshIdempotent(s2, mid);
    FreshIdempotent(StmtNext(thenStat, ExprNext(condition, s0)), []);
    StmtAppends(elseStat, Emit(s2, mid));
    LabelNameInjective("else", st.labelCounter, "if_end", st.labelCounter + 1);
  }

  /**
   * `if (c) s1` without an else branch: the condition, a jump to the end
   * label when it is 0, s1 and the end label.
   */
  lemma IfThenLayout(condition: U.Expression, thenStat: C.Statement, st: GenState)
    requires StmtAt(C.If(condition, thenStat, None), st).0.Ok?
    ensures var s0 := Fresh(st).(labelCounter := st.labelCounter + 1);
      var endLabel := LabelName("if_end", st.labelCounter);
      ExprVal(condition, s0).Ok? &&
      StmtCode(C.If(condition, thenStat, None), st)
        == ExprCode(condition, s0) + [T.JumpIfZero(ExprVal(condition, s0).value, endLabel)]
           + StmtCode(thenStat, ExprNext(condition, s0)) + [T.Label(endLabel)]
  {
    var s0 := Fresh(st).(labelCounter := st.labelCounter + 1);
    var endLabel := LabelName("if_end", st.labelCounter);
    StmtAppends(C.If(condition, thenStat, None), st);
    assert Fresh(s0) == s0;
    var (c, s1) := ExprAt(condition, s0);
    var jump := [T.JumpIfZero(c.value, endLabel)];
    FreshIdempotent(s1, jump);
    FreshIdempotent(ExprNext(condition, s0), []);
    StmtAppends(thenStat, Emit(s1, jump));
  }

  /** `break` and `continue` jump to the break and continue labels their loop emits. */
  lemma JumpLayout(id: C.LoopId, st: GenState)
    ensures StmtCode(C.Break(id), st) == [T.Jump(LabelName(BreakLabelPrefix, id))]
    ensures StmtCode(C.Continue(id), st) == [T.Jump(LabelName(ContinueLabelPrefix, id))]
  {
  }

  /** Only a variable can be assigned to; anything else is the lowering's one error. */
  lemma AssignToNonVariable(left: U.Expression, right: U.Expression, st: GenState)
    requires !left.Var? && ExprAt(right, st).0.Ok?
    ensures ExprAt(U.Assign(left, right), st).0 == Err(InvalidAssignMsg)
  {
  }

  // ---------------------------------------------------------------
  // The generator
  // ---------------------------------------------------------------

  class TackyGenerator {
    var labelCounter: nat
    const idGenerator: UniqueIdGenerator

    constructor (idGenerator: UniqueIdGenerator)
      ensures this.idGenerator == idGenerator && labelCounter == 0
    {
      this.idGenerator := idGenerator;
      labelCounter := 0;
    }

    /** The generator's counters together with the list being appended to. */
    ghost function State(instrs: seq<T.Instruction>): GenState
      reads this, idGenerator
    {
      GenState(labelCounter, idGenerator.counter, instrs)
    }

    method MakeTemporary() returns (name: string)
      modifies idGenerator
      ensures name == TempName(old(idGenerator.counter))
      ensures idGenerator.counter == old(idGenerator.counter) + 1
    {
      var id := idGenerator.Next();
      name := DottedName("tmp", id);
    }

    method MakeLabelWithPrefix(prefix: string) returns (lbl: string)
      modifies this
      ensures lbl == LabelName(prefix, old(labelCounter))
      ensures labelCounter == old(labelCounter) + 1
    {
      lbl := "_" + prefix + "_" + NatToString(labelCounter);
      labelCounter := labelCounter + 1;
    }

    method GenerateExpression(e: U.Expression, instrs: seq<T.Instruction>)
      returns (r: Result<T.Val>, instrs': seq<T.Instruction>)
      modifies this, idGenerator
      decreases e, 1
      ensures (r, State(instrs')) == ExprAt(e, old(State(instrs)))
    {
      match e {
        case Var(name) =>
          r, instrs' := Ok(T.Var(name)), instrs;
        case Assign(left, right) =>
          var rhs;
          rhs, instrs' := GenerateExpression(right, instrs);
          if rhs.Err? {
            return rhs, instrs';
          }
          if left.Var? {
            instrs' := instrs' + [T.Copy(rhs.value, T.Var(left.name))];
            r := rhs;
          } else {
            r := Err(InvalidAssignMsg);
          }
        case Constant(i) =>
          r, instrs' := Ok(T.Constant(i)), instrs;
        case Unary(op, inner) =>
          var src;
          src, instrs' := GenerateExpression(inner, instrs);
          if src.Err? {
            return src, instrs';
          }
          var dstName := MakeTemporary();
          var dst := T.Var(dstName);
          instrs' := instrs' + [T.Unary(ConvertUnop(op), src.value, dst)];
          r := Ok(dst);
        case Binary(op, left, right) =>
          if op == U.And || op == U.Or {
            r, instrs' := GenerateShortCircuit(op, left, right, instrs);
          } else {
            var src1, src2;
            src1, instrs' := GenerateExpression(left, instrs);
            if src1.Err? {
              return src1, instrs';
            }
            src2, instrs' := GenerateExpression(right, instrs');
            if src2.Err? {
              return src2, instrs';
            }
            var dstName := MakeTemporary();
            var dst := T.Var(dstName);
            // `&&` and `||` took the other branch, so the conversion cannot fail here
            var tackyOp := ConvertBinaryop(op).value;
            instrs' := instrs' + [T.Binary(tackyOp, src1.value, src2.value, dst)];
            r := Ok(dst);
          }
        case Conditional(condition, left, right) =>
          r, instrs' := GenerateConditional(condition, left, right, instrs);
      }
    }

    /** The `&&` and `||` arms: evaluation stops at the first operand that decides the result. */
    method GenerateShortCircuit(op: U.BinaryOperator, left: U.Expression, right: U.Expression,
                                instrs: seq<T.Instruction>)
      returns (r: Result<T.Val>, instrs': seq<T.Instruction>)
      requires op == U.And || op == U.Or
      modifies this, idGenerator
      decreases U.Binary(op, left, right), 0
      ensures (r, State(instrs')) == ShortCircuitAt(op, left, right, old(State(instrs)))
    {
      ghost var st := State(instrs);
      var resultName := MakeTemporary();
      var result := T.Var(resultName);
      var isAnd := op == U.And;
      var decidedLabel := MakeLabelWithPrefix(if isAnd then "and_false" else "or_true");
      var endLabel := MakeLabelWithPrefix(if isAnd then "and_end" else "or_end");
      var v1, v2;
      assert State(instrs) == Take(st, 2);
      v1, instrs' := GenerateExpression(left, instrs);
      if v1.Err? {
        return v1, instrs';
      }
      instrs' := instrs' + [if isAnd then T.JumpIfZero(v1.value, decidedLabel) else T.JumpIfNotZero(v1.value, decidedLabel)];
      v2, instrs' := GenerateExpression(right, instrs');
      if v2.Err? {
        return v2, instrs';
      }
      ghost var afterRight := instrs';
      instrs' := instrs' + [if isAnd then T.JumpIfZero(v2.value, decidedLabel) else T.JumpIfNotZero(v2.value, decidedLabel)];
      instrs' := instrs' + [T.Copy(T.Constant(if isAnd then 1 else 0), result), T.Jump(endLabel)];
      instrs' := instrs' + [T.Label(decidedLabel), T.Copy(T.Constant(if isAnd then 0 else 1), result)];
      instrs' := instrs' + [T.Label(endLabel)];
      assert instrs' == afterRight + ShortCircuitTail(isAnd, v2.value, result, decidedLabel, endLabel);
      r := Ok(result);
    }

    method GenerateConditional(condition: U.Expression, left: U.Expression, right: U.Expression,
                               instrs: seq<T.Instruction>)
      returns (r: Result<T.Val>, instrs': seq<T.Instruction>)
      modifies this, idGenerator
      decreases U.Conditional(condition, left, right), 0
      ensures (r, State(instrs')) == ExprAt(U.Conditional(condition, left, right), old(State(instrs)))
    {
      var resultName := MakeTemporary();
      var result := T.Var(resultName);
      var elseLabel := MakeLabelWithPrefix("cond_else");
      var endLabel := MakeLabelWithPrefix("cond_end");
      var c, t, f;
      c, instrs' := GenerateExpression(condition, instrs);
      if c.Err? {
        return c, instrs';
      }
      instrs' := instrs' + [T.JumpIfZero(c.value, elseLabel)];
      t, instrs' := GenerateExpression(left, instrs');
      if t.Err? {
        return t, instrs';
      }
      ghost var afterThen := instrs';
      instrs' := instrs' + [T.Copy(t.value, result), T.Jump(endLabel)];
      instrs' := instrs' + [T.Label(elseLabel)];
      assert instrs' == afterThen + [T.Copy(t.value, result), T.Jump(endLabel), T.Label(elseLabel)];
      f, instrs' := GenerateExpression(right, instrs');
      if f.Err? {
        return f, instrs';
      }
      ghost var afterElse := instrs';
      instrs' := instrs' + [T.Copy(f.value, result)];
      instrs' := instrs' + [T.Label(endLabel)];
      assert instrs' == afterElse + [T.Copy(f.value, result), T.Label(endLabel)];
      r := Ok(result);
    }
  
    method GenerateBlockItem(item: C.BlockItem, instrs: seq<T.Instruction>)
      returns (r: Result<()>, instrs': seq<T.Instruction>)
      modifies this, idGenerator
      decreases item
      ensures (r, State(instrs')) == ItemAt(item, old(State(instrs)))
    {
      match item {
        case D(decl) =>
          instrs' := instrs;
          if decl.init.Some? {
            var rhs;
            rhs, instrs' := GenerateExpression(decl.init.value, instrs);
            if rhs.Err? {
              return Err(rhs.msg), instrs';
            }
            instrs' := instrs' + [T.Copy(rhs.value, T.Var(decl.name))];
          }
          r := Ok(());
        case S(s) =>
          r, instrs' := GenerateStatement(s, instrs);
      }
    }

    method GenerateBlock(b: C.Block, instrs: seq<T.Instruction>)
      returns (r: Result<()>, instrs': seq<T.Instruction>)
      modifies this, idGenerator
      decreases b
      ensures (r, State(instrs')) == BlockFrom(b.blocks, 0, old(State(instrs)))
    {
      instrs' := instrs;
      for k := 0 to |b.blocks|
        invariant BlockFrom(b.blocks, 0, old(State(instrs))) == BlockFrom(b.blocks, k, State(instrs'))
      {
        var rk;
        rk, instrs' := GenerateBlockItem(b.blocks[k], instrs');
        if rk.Err? {
          return rk, instrs';
        }
      }
      r := Ok(());
    }

    method GenerateStatement(s: C.Statement, instrs: seq<T.Instruction>)
      returns (r: Result<()>, instrs': seq<T.Instruction>)
      modifies this, idGenerator
      decreases s, 1
      ensures (r, State(instrs')) == StmtAt(s, old(State(instrs)))
    {
      match s {
        case Return(e) =>
          var v;
          v, instrs' := GenerateExpression(e, instrs);
          if v.Err? {
            return Err(v.msg), instrs';
          }
          instrs' := instrs' + [T.Return(v.value)];
          r := Ok(());
        case Expression(e) =>
          var v;
          v, instrs' := GenerateExpression(e, instrs);
          if v.Err? {
            return Err(v.msg), instrs';
          }
          r := Ok(());
        case Empty =>
          r, instrs' := Ok(()), instrs;
        case If(condition, thenStat, elseStat) =>
          r, instrs' := GenerateIf(condition, thenStat, elseStat, instrs);
        case Compound(b) =>
          r, instrs' := GenerateBlock(b, instrs);
        case Break(id) =>
          r, instrs' := Ok(()), instrs + [T.Jump(LabelName(BreakLabelPrefix, id))];
        case Continue(id) =>
          r, instrs' := Ok(()), instrs + [T.Jump(LabelName(ContinueLabelPrefix, id))];
        case DoWhile(body, condition, id) =>
          var startLabel := LabelName(LoopStartPrefix, id);
          var continueLabel := LabelName(ContinueLabelPrefix, id);
          var breakLabel := LabelName(BreakLabelPrefix, id);
          instrs' := instrs + [T.Label(startLabel)];
          r, instrs' := GenerateStatement(body, instrs');
          if r.Err? {
            return;
          }
          instrs' := instrs' + [T.Label(continueLabel)];
          var c;
          c, instrs' := GenerateExpression(condition, instrs');
          if c.Err? {
            return Err(c.msg), instrs';
          }
          ghost var afterCondition := instrs';
          instrs' := instrs' + [T.JumpIfNotZero(c.value, startLabel)];
          instrs' := instrs' + [T.Label(breakLabel)];
          assert instrs' == afterCondition + [T.JumpIfNotZero(c.value, startLabel), T.Label(breakLabel)];
          r := Ok(());
        case While(condition, body, id) =>
          var continueLabel := LabelName(ContinueLabelPrefix, id);
          var breakLabel := LabelName(BreakLabelPrefix, id);
          instrs' := instrs + [T.Label(continueLabel)];
          var c;
          c, instrs' := GenerateExpression(condition, instrs');
          if c.Err? {
            return Err(c.msg), instrs';
          }
          instrs' := instrs' + [T.JumpIfZero(c.value, breakLabel)];
          r, instrs' := GenerateStatement(body, instrs');
          if r.Err? {
            return;
          }
          ghost var afterBody := instrs';
          instrs' := instrs' + [T.Jump(continueLabel)];
          instrs' := instrs' + [T.Label(breakLabel)];
          assert instrs' == afterBody + [T.Jump(continueLabel), T.Label(breakLabel)];
          r := Ok(());
        case For(init, condition, post, body, id) =>
          r, instrs' := GenerateFor(init, condition, post, body, id, instrs);
      }
    }

    method GenerateIf(condition: U.Expression, thenStat: C.Statement, elseStat: Option<C.Statement>,
                      instrs: seq<T.Instruction>)
      returns (r: Result<()>, instrs': seq<T.Instruction>)
      modifies this, idGenerator
      decreases C.If(condition, thenStat, elseStat), 0
      ensures (r, State(instrs')) == StmtAt(C.If(condition, thenStat, elseStat), old(State(instrs)))
    {
      var c;
      if elseStat.Some? {
        var elseLabel := MakeLabelWithPrefix("else");
        var endLabel := MakeLabelWithPrefix("if_end");
        c, instrs' := GenerateExpression(condition, instrs);
        if c.Err? {
          return Err(c.msg), instrs';
        }
        instrs' := instrs' + [T.JumpIfZero(c.value, elseLabel)];
        r, instrs' := GenerateStatement(thenStat, instrs');
        if r.Err? {
          return;
        }
        ghost var afterThen := instrs';
        instrs' := instrs' + [T.Jump(endLabel)];
        instrs' := instrs' + [T.Label(elseLabel)];
        assert instrs' == afterThen + [T.Jump(endLabel), T.Label(elseLabel)];
        r, instrs' := GenerateStatement(elseStat.value, instrs');
        if r.Err? {
          return;
        }
        instrs' := instrs' + [T.Label(endLabel)];
        r := Ok(());
      } else {
        var endLabel := MakeLabelWithPrefix("if_end");
        c, instrs' := GenerateExpression(condition, instrs);
        if c.Err? {
          return Err(c.msg), instrs';
        }
        instrs' := instrs' + [T.JumpIfZero(c.value, endLabel)];
        r, instrs' := GenerateStatement(thenStat, instrs');
        if r.Err? {
          return;
        }
        instrs' := instrs' + [T.Label(endLabel)];
        r := Ok(());
      }
    }

    method GenerateFor(init: Option<C.BlockItem>, condition: Option<U.Expression>, post: Option<U.Expression>,
                       body: C.Statement, id: C.LoopId, instrs: seq<T.Instruction>)
      returns (r: Result<()>, instrs': seq<T.Instruction>)
      modifies this, idGenerator
      decreases C.For(init, condition, post, body, id), 0
      ensures (r, State(instrs')) == StmtAt(C.For(init, condition, post, body, id), old(State(instrs)))
    {
      var startLabel := LabelName(LoopStartPrefix, id);
      var continueLabel := LabelName(ContinueLabelPrefix, id);
      var breakLabel := LabelName(BreakLabelPrefix, id);
      instrs' := instrs;
      if init.Some? {
        r, instrs' := GenerateBlockItem(init.value, instrs');
        if r.Err? {
          return;
        }
      }
      instrs' := instrs' + [T.Label(startLabel)];
      ghost var loopStart := State(instrs');
      assert StmtAt(C.For(init, condition, post, body, id), old(State(instrs)))
        == ForLoopAt(condition, post, body, id, loopStart);
      if condition.Some? {
        var c;
        c, instrs' := GenerateExpression(condition.value, instrs');
        if c.Err? {
          return Err(c.msg), instrs';
        }
        instrs' := instrs' + [T.JumpIfZero(c.value, breakLabel)];
      }
      assert ForLoopAt(condition, post, body, id, loopStart) == ForBodyAt(post, body, id, State(instrs'));
      r, instrs' := GenerateStatement(body, instrs');
      if r.Err? {
        return;
      }
      instrs' := instrs' + [T.Label(continueLabel)];
      if post.Some? {
        var p;
        p, instrs' := GenerateExpression(post.value, instrs');
        if p.Err? {
          return Err(p.msg), instrs';
        }
      }
      ghost var afterPost := instrs';
      instrs' := instrs' + [T.Jump(startLabel)];
      instrs' := instrs' + [T.Label(breakLabel)];
      assert instrs' == afterPost + [T.Jump(startLabel), T.Label(breakLabel)];
      r := Ok(());
    }

    method GenerateFunction(f: C.Function) returns (r: Result<T.Function>)
      modifies this, idGenerator
      ensures var (spec, st) := FunctionAt(f, old(labelCounter), old(idGenerator.counter));
        r == spec && labelCounter == st.labelCounter && idGenerator.counter == st.nextId
    {
      var instructions: seq<T.Instruction> := [];
      var blockResult;
      blockResult, instructions := GenerateBlock(f.body, instructions);
      if blockResult.Err? {
        return Err(blockResult.msg);
      }
      if !(|instructions| > 0 && instructions[|instructions| - 1].Return?) {
        instructions := instructions + [T.Return(T.Constant(0))];
      }
      r := Ok(T.Function(f.name, instructions));
    }

    method GenerateTacky(p: C.Program) returns (r: Result<T.Program>)
      modifies this, idGenerator
      ensures var (spec, st) := ProgramAt(p, old(labelCounter), old(idGenerator.counter));
        r == spec && labelCounter == st.labelCounter && idGenerator.counter == st.nextId
    {
      var tackyFunction :- GenerateFunction(p.func);
      r := Ok(T.Program(tackyFunction));
    }
  }
}
