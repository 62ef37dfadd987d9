/**
 * TACKY, the three-address intermediate representation of src/ir/tacky.rs.
 * The program and function records follow their users (the lowering and
 * the assembly generator): one function, without a parameter list.
 */
module Tacky {

  datatype UnaryOperator = Complement | Negate | Not

  datatype BinaryOperator =
    | Add | Subtract | Multiply | Divide | Remainder
    | Equal | NotEqual | LessThan | LessOrEqual | GreaterThan | GreaterEqual

  /** A constant (`i32`) or a named temporary/variable. */
  datatype Val = Constant(value: int) | Var(name: string)

  datatype Instruction =
    | Return(val: Val)
    | Unary(unop: UnaryOperator, src: Val, dst: Val)
    | Binary(binop: BinaryOperator, src1: Val, src2: Val, dst: Val)
    | Copy(src: Val, dst: Val)
    | Jump(target: string)
    | JumpIfZero(condition: Val, target: string)
    | JumpIfNotZero(condition: Val, target: string)
    | Label(name: string)
    | FunCall(callee: string, args: seq<Val>, dst: Val)

  datatype Function = Function(name: string, body: seq<Instruction>)

  datatype Program = Program(func: Function)
}
