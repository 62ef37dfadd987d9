/**
 * The back-end emitter (kept as commented-out text in the repository):
 * assembler text for an `Assembly` program whose pseudo-registers have all
 * been replaced, with a frame prologue, a three-line epilogue per `Ret`
 * and platform-dependent symbol and local-label prefixes.
 */
module BackendEmitter {
  import opened Wrappers
  import opened Common
  import opened Assembly

  datatype PlatformConfig = PlatformConfig(localLabelPrefix: string, globalLabelPrefix: string)

  /** macOS uses `L` for local labels and `_` for symbols; other systems `.L` and nothing. */
  function NewConfig(platform: Platform): (c: PlatformConfig)
    ensures platform == MacOS ==> c.localLabelPrefix == "L" && c.globalLabelPrefix == "_"
    ensures platform != MacOS ==> c.localLabelPrefix == ".L" && c.globalLabelPrefix == ""
  {
    if platform == MacOS then PlatformConfig("L", "_") else PlatformConfig(".L", "")
  }

  function FormatLocalLabel(config: PlatformConfig, lbl: string): string {
    config.localLabelPrefix + lbl
  }

  function FormatGlobalLabel(config: PlatformConfig, lbl: string): string {
    config.globalLabelPrefix + lbl
  }

  /** Distinct labels stay distinct once prefixed. */
  lemma LocalLabelInjective(config: PlatformConfig, a: string, b: string)
    ensures FormatLocalLabel(config, a) == FormatLocalLabel(config, b) ==> a == b
  {
    var n := |config.localLabelPrefix|;
    if FormatLocalLabel(config, a) == FormatLocalLabel(config, b) {
      assert a == FormatLocalLabel(config, a)[n..] == FormatLocalLabel(config, b)[n..] == b;
    }
  }

  /** The condition-code suffixes: distinct codes get distinct suffixes. */
  function FormatCondCode(cc: CondCode): string {
    match cc
    case E => "e"
    case NE => "ne"
    case L => "l"
    case LE => "le"
    case G => "g"
    case GE => "ge"
  }

  lemma CondCodeInjective(a: CondCode, b: CondCode)
    ensures FormatCondCode(a) == FormatCondCode(b) ==> a == b
  {
  }

  /** Register names: 1-byte names for `SetCC`, 4-byte names otherwise. */
  function RegisterName(r: Register, isByteOperand: bool): (s: string)
    ensures |s| >= 3 && s[0] == '%'
  {
    if isByteOperand then
      match r
      case AX => "%al"
      case DX => "%dl"
      case R10 => "%r10b"
      case R11 => "%r11b"
    else
      match r
      case AX => "%eax"
      case DX => "%edx"
      case R10 => "%r10d"
      case R11 => "%r11d"
  }

  /**
   * An operand in AT&T syntax. A pseudo-register here is a fatal
   * invariant violation in the source, so it is excluded.
   */
  function FormatOperand(op: Operand, isByteOperand: bool): (s: string)
    requires !op.Pseudo?
    ensures |s| >= 2
    ensures s[0] == '$' <==> op.Imm?
    ensures s[0] == '%' <==> op.Reg?
    ensures op.Imm? ==> s[1..] == IntToString(op.value)
    ensures op.Stack? ==> s == IntToString(op.offset) + "(%rbp)"
  {
    match op
    case Imm(value) => "$" + IntToString(value)
    case Reg(r) => RegisterName(r, isByteOperand)
    case Stack(offset) => IntToString(offset) + "(%rbp)"
  }

  /** At a given width, the text of an operand determines the operand. */
  lemma FormatOperandInjective(a: Operand, b: Operand, isByteOperand: bool)
    requires !a.Pseudo? && !b.Pseudo?
    ensures FormatOperand(a, isByteOperand) == FormatOperand(b, isByteOperand) ==> a == b
  {
    var s := FormatOperand(a, isByteOperand);
    if s == FormatOperand(b, isByteOperand) {
      if a.Imm? && b.Imm? {
        IntToStringInjective(a.value, b.value);
      } else if a.Stack? && b.Stack? {
        assert IntToString(a.offset) == s[..|s| - 6] == IntToString(b.offset);
        IntToStringInjective(a.offset, b.offset);
      }
    }
  }

  function FormatUnaryOperator(op: UnaryOperator): string {
    match op
    case Neg => "negl"
    case Not => "notl"
  }

  function FormatBinaryOperator(op: BinaryOperator): string {
    match op
    case Add => "addl"
    case Subtract => "subl"
    case Multiply => "imull"
  }

  /**
   * The lines one instruction writes, each ending in a line break. `Ret`
   * is the only instruction with more than one line: it tears the frame
   * down before returning.
   */
  function InstructionLines(config: PlatformConfig, i: Instruction): (ls: seq<string>)
    requires NoPseudo(i)
    ensures |ls| == if i.Ret? then 3 else 1
  {
    match i
    case Mov(src, dst) => ["    movl " + FormatOperand(src, false) + ", " + FormatOperand(dst, false) + "\n"]
    case Unary(op, operand) => ["    " + FormatUnaryOperator(op) + " " + FormatOperand(operand, false) + "\n"]
    case Binary(op, src, dst) =>
      ["    " + FormatBinaryOperator(op) + " " + FormatOperand(src, false) + ", " + FormatOperand(dst, false) + "\n"]
    case Idiv(operand) => ["    idivl " + FormatOperand(operand, false) + "\n"]
    case Cdq => ["    cdq" + "\n"]
    case AllocateStack(bytes) => ["    subq $" + NatToString(bytes) + ", %rsp" + "\n"]
    case Ret => ["    movq %rbp, %rsp" + "\n", "    popq %rbp" + "\n", "    ret" + "\n"]
    case Cmp(src1, src2) => ["    cmpl " + FormatOperand(src1, false) + ", " + FormatOperand(src2, false) + "\n"]
    case Label(name) => [FormatLocalLabel(config, name) + ":" + "\n"]
    case Jmp(target) => ["    jmp " + FormatLocalLabel(config, target) + "\n"]
    case JmpCC(cc, target) => ["    j" + FormatCondCode(cc) + " " + FormatLocalLabel(config, target) + "\n"]
    case SetCC(cc, operand) => ["    set" + FormatCondCode(cc) + " " + FormatOperand(operand, true) + "\n"]
  }

  /** The lines of a body, instruction by instruction. */
  function BodyLines(config: PlatformConfig, instrs: seq<Instruction>): seq<string>
    requires AllNoPseudo(instrs)
  {
    if instrs == [] then []
    else BodyLines(config, instrs[..|instrs| - 1]) + InstructionLines(config, instrs[|instrs| - 1])
  }

  /** Every function opens with its symbol directive, its label and the frame set-up. */
  function PrologueLines(name: string): seq<string> {
    [".globl " + name + "\n", name + ":" + "\n", "    pushq %rbp" + "\n", "    movq %rsp, %rbp" + "\n"]
  }

  function FunctionLines(platform: Platform, func: Function): seq<string>
    requires AllNoPseudo(func.instructions)
  {
    var config := NewConfig(platform);
    PrologueLines(FormatGlobalLabel(config, func.name)) + BodyLines(config, func.instructions)
  }

  /** The GNU-stack note a Linux object needs (this emitter does not indent it). */
  const NoteGnuStack: string := ".section .note.GNU-stack,\"\",@progbits"

  function AssemblyLines(platform: Platform, asm: Program): seq<string>
    requires AllNoPseudo(asm.func.instructions)
  {
    FunctionLines(platform, asm.func) + (if platform == Linux then [NoteGnuStack + "\n"] else [])
  }

  function RetCount(instrs: seq<Instruction>): nat {
    if instrs == [] then 0
    else RetCount(instrs[..|instrs| - 1]) + (if instrs[|instrs| - 1].Ret? then 1 else 0)
  }

  /** One line per instruction, plus two more for each `Ret`. */
  lemma {:induction false} BodyLineCount(config: PlatformConfig, instrs: seq<Instruction>)
    requires AllNoPseudo(instrs)
    ensures |BodyLines(config, instrs)| == |instrs| + 2 * RetCount(instrs)
  {
    if instrs != [] {
      BodyLineCount(config, instrs[..|instrs| - 1]);
    }
  }

  method EmitInstruction(config: PlatformConfig, i: Instruction, output: string) returns (out: string)
    requires NoPseudo(i)
    ensures out == output + Join(InstructionLines(config, i))
  {
    var lines := InstructionLines(config, i);
    var line: string;
    match i {
      case Ret =>
        AppendLine(output, [], "    movq %rbp, %rsp" + "\n");
        out := output + ("    movq %rbp, %rsp" + "\n");
        AppendLine(output, lines[..1], "    popq %rbp" + "\n");
        out := out + ("    popq %rbp" + "\n");
        AppendLine(output, lines[..2], "    ret" + "\n");
        out := out + ("    ret" + "\n");
        assert lines[..2] + [lines[2]] == lines;
        return;
      case Mov(src, dst) =>
        line := "    movl " + FormatOperand(src, false) + ", " + FormatOperand(dst, false) + "\n";
      case Unary(op, operand) =>
        line := "    " + FormatUnaryOperator(op) + " " + FormatOperand(operand, false) + "\n";
      case Binary(op, src, dst) =>
        line := "    " + FormatBinaryOperator(op) + " " + FormatOperand(src, false) + ", " +
                FormatOperand(dst, false) + "\n";
      case Idiv(operand) =>
        line := "    idivl " + FormatOperand(operand, false) + "\n";
      case Cdq =>
        line := "    cdq" + "\n";
      case AllocateStack(bytes) =>
        line := "    subq $" + NatToString(bytes) + ", %rsp" + "\n";
      case Cmp(src1, src2) =>
        line := "    cmpl " + FormatOperand(src1, false) + ", " + FormatOperand(src2, false) + "\n";
      case Label(name) =>
        line := FormatLocalLabel(config, name) + ":" + "\n";
      case Jmp(target) =>
        line := "    jmp " + FormatLocalLabel(config, target) + "\n";
      case JmpCC(cc, target) =>
        line := "    j" + FormatCondCode(cc) + " " + FormatLocalLabel(config, target) + "\n";
      case SetCC(cc, operand) =>
        line := "    set" + FormatCondCode(cc) + " " + FormatOperand(operand, true) + "\n";
    }
    assert lines == [line];
    JoinSingle(line);
    out := output + line;
  }

  method EmitPrologue(name: string, output: string) returns (out: string)
    ensures out == output + Join(PrologueLines(name))
  {
    ghost var lines: seq<string> := [];
    out := output;
    assert out == output + Join(lines);
    AppendLine(output, lines, ".globl " + name + "\n");
    out := out + (".globl " + name + "\n");
    lines := lines + [".globl " + name + "\n"];
    AppendLine(output, lines, name + ":" + "\n");
    out := out + (name + ":" + "\n");
    lines := lines + [name + ":" + "\n"];
    AppendLine(output, lines, "    pushq %rbp" + "\n");
    out := out + ("    pushq %rbp" + "\n");
    lines := lines + ["    pushq %rbp" + "\n"];
    AppendLine(output, lines, "    movq %rsp, %rbp" + "\n");
    out := out + ("    movq %rsp, %rbp" + "\n");
    lines := lines + ["    movq %rsp, %rbp" + "\n"];
    assert lines == PrologueLines(name);
  }

  /** The loop over the body's instructions, in order. */
  method EmitBody(config: PlatformConfig, instrs: seq<Instruction>, output: string) returns (out: string)
    requires AllNoPseudo(instrs)
    ensures out == output + Join(BodyLines(config, instrs))
  {
    out := output;
    for k := 0 to |instrs|
      invariant AllNoPseudo(instrs[..k])
      invariant out == output + Join(BodyLines(config, instrs[..k]))
    {
      BodyStep(config, instrs, k, output);
      out := EmitInstruction(config, instrs[k], out);
    }
    assert instrs[..|instrs|] == instrs;
  }

  /** One more instruction of the body: its lines follow the earlier ones. */
  lemma BodyStep(config: PlatformConfig, instrs: seq<Instruction>, k: nat, output: string)
    requires AllNoPseudo(instrs) && k < |instrs|
    ensures AllNoPseudo(instrs[..k]) && AllNoPseudo(instrs[..k + 1])
    ensures output + Join(BodyLines(config, instrs[..k + 1]))
         == output + Join(BodyLines(config, instrs[..k])) + Join(InstructionLines(config, instrs[k]))
  {
    assert forall j :: 0 <= j < k + 1 ==> instrs[..k + 1][j] == instrs[j];
    assert instrs[..k + 1][..k] == instrs[..k];
    var done, next := BodyLines(config, instrs[..k]), InstructionLines(config, instrs[k]);
    assert BodyLines(config, instrs[..k + 1]) == done + next;
    JoinConcat(done, next);
  }

  /** Appends the function's text to `output`; writing to a `String` cannot fail. */
  method EmitFunction(platform: Platform, output: string, func: Function) returns (r: Result<string>)
    requires AllNoPseudo(func.instructions)
    ensures r == Ok(output + Join(FunctionLines(platform, func)))
  {
    var config := NewConfig(platform);
    var name := FormatGlobalLabel(config, func.name);
    var out := EmitPrologue(name, output);
    out := EmitBody(config, func.instructions, out);
    ghost var header, body := PrologueLines(name), BodyLines(config, func.instructions);
    JoinConcat(header, body);
    assert output + Join(header) + Join(body) == output + (Join(header) + Join(body));
    r := Ok(out);
  }

  method EmitAssembly(platform: Platform, asm: Program) returns (r: Result<string>)
    requires AllNoPseudo(asm.func.instructions)
    ensures r == Ok(Join(AssemblyLines(platform, asm)))
  {
    var output := "";
    var fr := EmitFunction(platform, output, asm.func);
    output := fr.value;
    ghost var lines := FunctionLines(platform, asm.func);
    assert output == "" + Join(lines) == Join(lines);
    if platform == Linux {
      AppendLine("", lines, NoteGnuStack + "\n");
      output := output + (NoteGnuStack + "\n");
      assert AssemblyLines(platform, asm) == lines + [NoteGnuStack + "\n"];
    } else {
      assert AssemblyLines(platform, asm) == lines;
    }
    r := Ok(output);
  }
}
