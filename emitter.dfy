/** The first-chapter emitter: assembler text for a `CodeGen` program. */
module Emitter {
  import opened Wrappers
  import opened Common
  import opened CodeGen

  /** The GNU-stack note a Linux object needs (this emitter indents it). */
  const NoteGnuStack: string := "    .section .note.GNU-stack,\"\",@progbits"

  /** Function symbols carry a leading `_` on macOS only. */
  function SymbolName(platform: Platform, name: string): (s: string)
    ensures platform == MacOS ==> s == "_" + name
    ensures platform != MacOS ==> s == name
  {
    if platform == MacOS then "_" + name else name
  }

  /** An immediate is `$` and its decimal value; EAX is `%eax`. */
  function FormatOperand(op: Operand): (s: string)
    ensures |s| >= 2
    ensures s[0] == '$' <==> op.Imm?
    ensures op.Imm? ==> s[1..] == IntToString(op.value)
  {
    match op
    case Imm(value) => "$" + IntToString(value)
    case Reg(EAX) => "%eax"
  }

  /** Distinct operands print differently. */
  lemma FormatOperandInjective(a: Operand, b: Operand)
    ensures FormatOperand(a) == FormatOperand(b) ==> a == b
  {
    if FormatOperand(a) == FormatOperand(b) && a.Imm? && b.Imm? {
      IntToStringInjective(a.value, b.value);
    }
  }

  /** One indented line per instruction. */
  function InstructionLine(i: AsmInstruction): string {
    match i
    case Mov(src, dst) => "    movl " + FormatOperand(src) + ", " + FormatOperand(dst) + "\n"
    case Ret => "    ret\n"
  }

  /** The lines of `instrs`, one per instruction, in order. */
  function Lines(instrs: seq<AsmInstruction>): (ls: seq<string>)
    ensures |ls| == |instrs|
    ensures forall k :: 0 <= k < |instrs| ==> ls[k] == InstructionLine(instrs[k])
  {
    seq(|instrs|, k requires 0 <= k < |instrs| => InstructionLine(instrs[k]))
  }

  /** The output lines: symbol directive, label, one line per instruction, and the Linux note. */
  function EmitLines(platform: Platform, asm: AsmProgram): seq<string> {
    var name := SymbolName(platform, asm.func.name);
    [".globl " + name + "\n", name + ":" + "\n"] + Lines(asm.func.instructions) +
    (if platform == Linux then [NoteGnuStack + "\n"] else [])
  }

  function EmitText(platform: Platform, asm: AsmProgram): string {
    Join(EmitLines(platform, asm))
  }

  /** Instruction `k` is printed after the ones before it and before the ones after it. */
  lemma InstructionsInOrder(instrs: seq<AsmInstruction>, k: nat)
    requires k < |instrs|
    ensures Join(Lines(instrs)) ==
      Join(Lines(instrs[..k])) + InstructionLine(instrs[k]) + Join(Lines(instrs[k + 1..]))
  {
    JoinInOrder(Lines(instrs), k);
    assert Lines(instrs)[..k] == Lines(instrs[..k]);
    assert Lines(instrs)[k + 1..] == Lines(instrs[k + 1..]);
  }

  lemma FormatOperandOneLine(op: Operand)
    ensures '\n' !in FormatOperand(op)
  {
    if op.Imm? {
      IntToStringOneLine(op.value);
    }
  }

  lemma InstructionLineIsOneLine(i: AsmInstruction)
    ensures CountNewlines(InstructionLine(i)) == 1
  {
    var text := if i.Mov? then "    movl " + FormatOperand(i.src) + ", " + FormatOperand(i.dst) else "    ret";
    if i.Mov? {
      FormatOperandOneLine(i.src);
      FormatOperandOneLine(i.dst);
    }
    NoNewlines(text);
    CountNewlinesConcat(text, "\n");
    assert InstructionLine(i) == text + "\n";
  }

  lemma LinesOneLine(instrs: seq<AsmInstruction>)
    ensures forall k :: 0 <= k < |instrs| ==> CountNewlines(Lines(instrs)[k]) == 1
  {
    forall k | 0 <= k < |instrs| ensures CountNewlines(Lines(instrs)[k]) == 1 {
      InstructionLineIsOneLine(instrs[k]);
    }
  }

  /**
   * The output has two header lines, one line per instruction and, on
   * Linux, one more for the note (for a name without line breaks).
   */
  lemma EmitLineCount(platform: Platform, asm: AsmProgram)
    requires '\n' !in asm.func.name
    ensures CountNewlines(EmitText(platform, asm)) ==
      2 + |asm.func.instructions| + (if platform == Linux then 1 else 0)
  {
    var name := SymbolName(platform, asm.func.name);
    var header := [".globl " + name + "\n", name + ":" + "\n"];
    var body := Lines(asm.func.instructions);
    var trailer: seq<string> := if platform == Linux then [NoteGnuStack + "\n"] else [];
    OneLine(".globl " + name);
    OneLine(name + ":");
    OneLine(NoteGnuStack);
    LinesOneLine(asm.func.instructions);
    JoinLines(header);
    JoinLines(body);
    JoinLines(trailer);
    JoinConcat(header, body);
    JoinConcat(header + body, trailer);
    CountNewlinesConcat(Join(header), Join(body));
    CountNewlinesConcat(Join(header + body), Join(trailer));
  }

  /** Writing to a `String` cannot fail, so the result is always the full text. */
  method EmitAssembly(platform: Platform, asm: AsmProgram) returns (r: Result<string>)
    ensures r == Ok(EmitText(platform, asm))
  {
    var output := "";
    var name := SymbolName(platform, asm.func.name);
    ghost var lines := EmitLines(platform, asm);
    JoinStep(lines, 0);
    output := output + (".globl " + name + "\n");
    JoinStep(lines, 1);
    output := output + (name + ":" + "\n");
    var instrs := asm.func.instructions;
    for k := 0 to |instrs|
      invariant output == Join(lines[..2 + k])
    {
      JoinStep(lines, 2 + k);
      var line: string;
      match instrs[k] {
        case Mov(src, dst) =>
          line := "    movl " + FormatOperand(src) + ", " + FormatOperand(dst) + "\n";
        case Ret =>
          line := "    ret\n";
      }
      output := output + line;
    }
    if platform == Linux {
      JoinStep(lines, 2 + |instrs|);
      output := output + (NoteGnuStack + "\n");
    }
    assert lines[..|lines|] == lines;
    r := Ok(output);
  }

  /** Emitting line `n` extends the text of the lines before it. */
  lemma JoinStep(lines: seq<string>, n: nat)
    requires n < |lines|
    ensures Join(lines[..n + 1]) == Join(lines[..n]) + lines[n]
  {
    assert lines[..n + 1][..n] == lines[..n];
  }
}
