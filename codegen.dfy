/**
 * The first-chapter code generator: `return <constant>` becomes a move of
 * the constant into EAX followed by `ret`.
 */
module CodeGen {
  import opened Wrappers
  import P = Parser
  import L = Lexer

  datatype RegisterKind = EAX
  datatype Operand = Imm(value: int) | Reg(kind: RegisterKind)
  datatype AsmInstruction = Mov(src: Operand, dst: Operand) | Ret
  datatype AsmFunction = AsmFunction(name: string, instructions: seq<AsmInstruction>)
  datatype AsmProgram = AsmProgram(func: AsmFunction)

  /**
   * Selects the two instructions for the function's one statement. The
   * error arm of the source cannot be reached: constants are the only
   * expressions.
   */
  function GenerateFunction(f: P.Function): (r: Result<AsmFunction>)
    ensures r.Ok?
    ensures r.value.name == f.name
    ensures |r.value.instructions| == 2 && r.value.instructions[1] == Ret
    ensures r.value.instructions[0] == Mov(Imm(f.body.expression.value), Reg(EAX))
  {
    match f.body
    case Return(e) =>
      match e
      case Constant(i) =>
        var instructions := [Mov(Imm(i), Reg(EAX))] + [Ret];
        Ok(AsmFunction(f.name, instructions))
  }

  /** The output program wraps exactly the one generated function. */
  function Generate(ast: P.Program): (r: Result<AsmProgram>)
    ensures r.Ok? && r.value.func == GenerateFunction(ast.func).value
  {
    Ok(AsmProgram(GenerateFunction(ast.func).value))
  }

  /**
   * Parsing then generating: a well-formed token list `int f ( void ) {
   * return N ; }` becomes `mov $N, %eax; ret` under the name `f`.
   */
  lemma ParseThenGenerate(ts: seq<L.Token>)
    requires P.IsReturnProgram(ts)
    ensures P.ParseAt(ts, 0).0.Ok?
    ensures Generate(P.ParseAt(ts, 0).0.value).value ==
      AsmProgram(AsmFunction(ts[1].tokenType.name, [Mov(Imm(ts[7].tokenType.value), Reg(EAX)), Ret]))
  {
    P.ParseAcceptsExactly(ts);
  }
}
