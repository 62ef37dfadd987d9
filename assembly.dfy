/**
 * The assembly IR of the back end. src/ir/assembly.rs declares only part
 * of it (AX and R10; Mov, Unary, AllocateStack and Ret); the assembly
 * generator and the back-end emitter also match on DX and R11, the
 * arithmetic Binary instruction, Idiv and Cdq, comparisons, jumps, labels
 * and condition codes, so this module holds the union, with the names of
 * src/ir/assembly.rs where the two agree.
 */
module Assembly {

  datatype Register = AX | DX | R10 | R11

  datatype UnaryOperator = Neg | Not

  datatype BinaryOperator = Add | Subtract | Multiply

  datatype CondCode = E | NE | L | LE | G | GE

  /** `Imm` holds an `i32`; `Stack` an `i32` offset from `%rbp`. */
  datatype Operand = Imm(value: int) | Reg(reg: Register) | Pseudo(name: string) | Stack(offset: int)

  datatype Instruction =
    | Mov(src: Operand, dst: Operand)
    | Unary(unop: UnaryOperator, operand: Operand)
    | Binary(binop: BinaryOperator, src: Operand, dst: Operand)
    | Idiv(operand: Operand)
    | Cdq
    | AllocateStack(bytes: nat)
    | Ret
    | Cmp(src1: Operand, src2: Operand)
    | Jmp(target: string)
    | JmpCC(cc: CondCode, target: string)
    | SetCC(cc: CondCode, operand: Operand)
    | Label(name: string)

  datatype Function = Function(name: string, instructions: seq<Instruction>)

  datatype Program = Program(func: Function)

  /** No operand of the instruction is a pseudo-register. */
  predicate NoPseudo(i: Instruction) {
    match i
    case Mov(src, dst) => !src.Pseudo? && !dst.Pseudo?
    case Unary(_, operand) => !operand.Pseudo?
    case Binary(_, src, dst) => !src.Pseudo? && !dst.Pseudo?
    case Idiv(operand) => !operand.Pseudo?
    case Cmp(src1, src2) => !src1.Pseudo? && !src2.Pseudo?
    case SetCC(_, operand) => !operand.Pseudo?
    case _ => true
  }

  predicate AllNoPseudo(instrs: seq<Instruction>) {
    forall k :: 0 <= k < |instrs| ==> NoPseudo(instrs[k])
  }
}
