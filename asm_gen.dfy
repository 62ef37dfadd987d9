/**
 * The assembly generator: TACKY to assembly in three passes. Pass 1
 * selects instructions over pseudo-registers, pass 2 gives every
 * pseudo-register a 4-byte stack slot, and pass 3 repairs the operand
 * combinations x86-64 refuses, through the scratch registers R10 and R11,
 * after a 16-byte-aligned stack allocation.
 */
module AsmGen {
  import opened Wrappers
  import T = Tacky
  import opened Assembly

  // ---------------------------------------------------------------
  // Pass 1: instruction selection
  // ---------------------------------------------------------------

  /** Constants become immediates and variables pseudo-registers, keeping their payload. */
  function ConvertTackyVal(v: T.Val): (op: Operand)
    ensures v.Constant? <==> op.Imm?
    ensures v.Var? <==> op.Pseudo?
    ensures v.Constant? ==> op.value == v.value
    ensures v.Var? ==> op.name == v.name
  {
    match v
    case Constant(i) => Imm(i)
    case Var(name) => Pseudo(name)
  }

  /**
   * The TACKY instructions pass 1 handles. Logical not, the relational
   * operators, copies, jumps, labels and calls stop the source with a panic.
   */
  predicate Selectable(i: T.Instruction) {
    match i
    case Return(_) => true
    case Unary(op, _, _) => op != T.Not
    case Binary(op, _, _, _) =>
      op == T.Add || op == T.Subtract || op == T.Multiply || op == T.Divide || op == T.Remainder
    case _ => false
  }

  function ConvertUnop(op: T.UnaryOperator): UnaryOperator
    requires op != T.Not
  {
    match op
    case Complement => Not
    case Negate => Neg
  }

  function ConvertBinop(op: T.BinaryOperator): BinaryOperator
    requires op == T.Add || op == T.Subtract || op == T.Multiply
  {
    match op
    case Add => Add
    case Subtract => Subtract
    case Multiply => Multiply
  }

  /** The assembly one TACKY instruction becomes. */
  function Select(i: T.Instruction): seq<Instruction>
    requires Selectable(i)
  {
    match i
    case Return(v) => [Mov(ConvertTackyVal(v), Reg(AX)), Ret]
    case Unary(op, src, dst) =>
      [Mov(ConvertTackyVal(src), ConvertTackyVal(dst)), Unary(ConvertUnop(op), ConvertTackyVal(dst))]
    case Binary(op, src1, src2, dst) =>
      if op == T.Divide then
        [Mov(ConvertTackyVal(src1), Reg(AX)), Cdq, Idiv(ConvertTackyVal(src2)), Mov(Reg(AX), ConvertTackyVal(dst))]
      else if op == T.Remainder then
        [Mov(ConvertTackyVal(src1), Reg(AX)), Cdq, Idiv(ConvertTackyVal(src2)), Mov(Reg(DX), ConvertTackyVal(dst))]
      else
        [Mov(ConvertTackyVal(src1), ConvertTackyVal(dst)),
         Binary(ConvertBinop(op), ConvertTackyVal(src2), ConvertTackyVal(dst))]
  }

  predicate AllSelectable(body: seq<T.Instruction>) {
    forall k :: 0 <= k < |body| ==> Selectable(body[k])
  }

  function SelectAll(body: seq<T.Instruction>): seq<Instruction>
    requires AllSelectable(body)
  {
    if body == [] then [] else SelectAll(body[..|body| - 1]) + Select(body[|body| - 1])
  }

  /**
   * The instruction kinds pass 1 produces: moves, unary and binary
   * arithmetic, division and returns, none of them touching the stack.
   */
  predicate Pass1Form(i: Instruction) {
    (i.Mov? || i.Unary? || i.Binary? || i.Idiv? || i.Cdq? || i.Ret?) &&
    forall k :: 0 <= k < |Operands(i)| ==> !Operands(i)[k].Stack?
  }

  /** The operands pass 2 visits, in the order it visits them. */
  function Operands(i: Instruction): seq<Operand> {
    match i
    case Mov(src, dst) => [src, dst]
    case Unary(_, operand) => [operand]
    case Binary(_, src, dst) => [src, dst]
    case Idiv(operand) => [operand]
    case _ => []
  }

  lemma {:induction false} SelectAllForm(body: seq<T.Instruction>)
    requires AllSelectable(body)
    ensures forall k :: 0 <= k < |SelectAll(body)| ==> Pass1Form(SelectAll(body)[k])
  {
    if body != [] {
      SelectAllForm(body[..|body| - 1]);
      var front, last := SelectAll(body[..|body| - 1]), Select(body[|body| - 1]);
      assert forall k :: 0 <= k < |last| ==> Pass1Form(last[k]);
      assert forall k :: 0 <= k < |SelectAll(body)| ==>
        SelectAll(body)[k] == if k < |front| then front[k] else last[k - |front|];
    }
  }

  /** A body that ends in `Return` is selected into code that ends in `Ret`. */
  lemma SelectEndsInRet(body: seq<T.Instruction>)
    requires AllSelectable(body) && body != [] && body[|body| - 1].Return?
    ensures |SelectAll(body)| >= 2
    ensures SelectAll(body)[|SelectAll(body)| - 1] == Ret
    ensures SelectAll(body)[|SelectAll(body)| - 2] == Mov(ConvertTackyVal(body[|body| - 1].val), Reg(AX))
  {
  }

  method ConvertTackyToAsmPass1(f: T.Function) returns (r: Result<Function>)
    requires AllSelectable(f.body)
    ensures r == Ok(Function(f.name, SelectAll(f.body)))
  {
    var instructions: seq<Instruction> := [];
    for k := 0 to |f.body|
      invariant instructions == SelectAll(f.body[..k])
    {
      assert f.body[..k + 1][..k] == f.body[..k];
      var selected := SelectInstruction(f.body[k]);
      instructions := instructions + selected;
    }
    assert f.body[..|f.body|] == f.body;
    r := Ok(Function(f.name, instructions));
  }

  /** The arm of pass 1's match for one TACKY instruction. */
  method SelectInstruction(i: T.Instruction) returns (out: seq<Instruction>)
    requires Selectable(i)
    ensures out == Select(i)
  {
    match i {
      case Return(val) =>
        out := [Mov(ConvertTackyVal(val), Reg(AX))];
        out := out + [Ret];
      case Unary(op, src, dst) =>
        var asmOp := if op == T.Complement then Not else Neg;
        out := [Mov(ConvertTackyVal(src), ConvertTackyVal(dst))];
        out := out + [Unary(asmOp, ConvertTackyVal(dst))];
      case Binary(op, src1, src2, dst) =>
        var dstOperand := ConvertTackyVal(dst);
        if op == T.Divide {
          out := [Mov(ConvertTackyVal(src1), Reg(AX)), Cdq, Idiv(ConvertTackyVal(src2)), Mov(Reg(AX), dstOperand)];
        } else if op == T.Remainder {
          out := [Mov(ConvertTackyVal(src1), Reg(AX)), Cdq, Idiv(ConvertTackyVal(src2)), Mov(Reg(DX), dstOperand)];
        } else {
          var asmOp := if op == T.Add then Add else if op == T.Subtract then Subtract else Multiply;
          out := [Mov(ConvertTackyVal(src1), dstOperand)];
          out := out + [Binary(asmOp, ConvertTackyVal(src2), dstOperand)];
        }
    }
  }

  // ---------------------------------------------------------------
  // Pass 2: pseudo-registers to stack slots
  // ---------------------------------------------------------------

  /**
   * `assign_stack_offset`: a pseudo-register already in the map gets its
   * slot; a new one gets the slot 4 bytes below the current offset, which
   * becomes the current offset. Other operands are left alone.
   */
  function AssignSlot(op: Operand, varMap: map<string, int>, offset: int): (Operand, map<string, int>, int) {
    if op.Pseudo? then
      if op.name in varMap then (Stack(varMap[op.name]), varMap, offset)
      else (Stack(offset - 4), varMap[op.name := offset - 4], offset - 4)
    else (op, varMap, offset)
  }

  function ReplaceInstr(i: Instruction, varMap: map<string, int>, offset: int): (Instruction, map<string, int>, int) {
    match i
    case Mov(src, dst) =>
      var (s, m1, o1) := AssignSlot(src, varMap, offset);
      var (d, m2, o2) := AssignSlot(dst, m1, o1);
      (Mov(s, d), m2, o2)
    case Unary(op, operand) =>
      var (x, m1, o1) := AssignSlot(operand, varMap, offset);
      (Unary(op, x), m1, o1)
    case Binary(op, src, dst) =>
      var (s, m1, o1) := AssignSlot(src, varMap, offset);
      var (d, m2, o2) := AssignSlot(dst, m1, o1);
      (Binary(op, s, d), m2, o2)
    case Idiv(operand) =>
      var (x, m1, o1) := AssignSlot(operand, varMap, offset);
      (Idiv(x), m1, o1)
    case _ => (i, varMap, offset)
  }

  /** Pass 2 over `instrs`, left to right, threading the map and the offset. */
  function ReplaceAll(instrs: seq<Instruction>, varMap: map<string, int>, offset: int): (seq<Instruction>, map<string, int>, int) {
    if instrs == [] then ([], varMap, offset)
    else
      var (front, m, o) := ReplaceAll(instrs[..|instrs| - 1], varMap, offset);
      var (last, m', o') := ReplaceInstr(instrs[|instrs| - 1], m, o);
      (front + [last], m', o')
  }

  method AssignStackOffset(op: Operand, varMap: map<string, int>, currentOffset: int)
    returns (op': Operand, varMap': map<string, int>, currentOffset': int)
    ensures (op', varMap', currentOffset') == AssignSlot(op, varMap, currentOffset)
  {
    op', varMap', currentOffset' := op, varMap, currentOffset;
    if op.Pseudo? {
      if op.name !in varMap {
        currentOffset' := currentOffset - 4;
        varMap' := varMap[op.name := currentOffset'];
      }
      op' := Stack(varMap'[op.name]);
    }
  }

  /** The operand visits of one instruction, source before destination. */
  method ReplaceOperands(i: Instruction, varMap: map<string, int>, currentOffset: int)
    returns (i': Instruction, varMap': map<string, int>, currentOffset': int)
    ensures (i', varMap', currentOffset') == ReplaceInstr(i, varMap, currentOffset)
  {
    i', varMap', currentOffset' := i, varMap, currentOffset;
    match i {
      case Mov(src, dst) =>
        var s, d;
        s, varMap', currentOffset' := AssignStackOffset(src, varMap', currentOffset');
        d, varMap', currentOffset' := AssignStackOffset(dst, varMap', currentOffset');
        i' := Mov(s, d);
      case Unary(op, operand) =>
        var x;
        x, varMap', currentOffset' := AssignStackOffset(operand, varMap', currentOffset');
        i' := Unary(op, x);
      case Binary(op, src, dst) =>
        var s, d;
        s, varMap', currentOffset' := AssignStackOffset(src, varMap', currentOffset');
        d, varMap', currentOffset' := AssignStackOffset(dst, varMap', currentOffset');
        i' := Binary(op, s, d);
      case Idiv(operand) =>
        var x;
        x, varMap', currentOffset' := AssignStackOffset(operand, varMap', currentOffset');
        i' := Idiv(x);
      case _ =>
    }
  }

  /** Rewrites the pseudo-registers in place and returns the bytes the slots take. */
  method ReplacePseudoWithStackPass2(instrs: array<Instruction>) returns (r: Result<nat>)
    modifies instrs
    ensures var (out, _, offset) := ReplaceAll(old(instrs[..]), map[], 0);
      instrs[..] == out && r == Ok(Abs(offset))
  {
    ghost var input := instrs[..];
    var varMap: map<string, int> := map[];
    var currentOffset := 0;
    for k := 0 to instrs.Length
      invariant instrs[k..] == input[k..]
      invariant (instrs[..k], varMap, currentOffset) == ReplaceAll(input[..k], map[], 0)
    {
      assert input[..k + 1][..k] == input[..k];
      assert instrs[k] == input[k];
      var rewritten;
      rewritten, varMap, currentOffset := ReplaceOperands(instrs[k], varMap, currentOffset);
      instrs[k] := rewritten;
      assert instrs[..k + 1] == instrs[..k] + [instrs[k]];
    }
    assert input[..instrs.Length] == input;
    assert instrs[..instrs.Length] == instrs[..];
    r := Ok(Abs(currentOffset));
  }

  /**
   * The slot invariant of pass 2: the offset is 4 bytes per mapped name
   * below the frame base, and the slots are distinct multiples of 4
   * between the offset and -4.
   */
  predicate SlotsValid(varMap: map<string, int>, offset: int) {
    offset == -4 * |varMap| &&
    (forall n :: n in varMap ==> offset <= varMap[n] <= -4 && varMap[n] % 4 == 0) &&
    (forall a, b :: a in varMap && b in varMap && a != b ==> varMap[a] != varMap[b])
  }

  /** `m'` keeps every entry of `m`. */
  predicate Extends(m': map<string, int>, m: map<string, int>) {
    forall n :: n in m ==> n in m' && m'[n] == m[n]
  }

  function SubstOperand(varMap: map<string, int>, op: Operand): Operand {
    if op.Pseudo? && op.name in varMap then Stack(varMap[op.name]) else op
  }

  /** Every operand pass 2 visits, mapped through `varMap`. */
  function SubstInstr(varMap: map<string, int>, i: Instruction): Instruction {
    match i
    case Mov(src, dst) => Mov(SubstOperand(varMap, src), SubstOperand(varMap, dst))
    case Unary(op, operand) => Unary(op, SubstOperand(varMap, operand))
    case Binary(op, src, dst) => Binary(op, SubstOperand(varMap, src), SubstOperand(varMap, dst))
    case Idiv(operand) => Idiv(SubstOperand(varMap, operand))
    case _ => i
  }

  function OperandNames(op: Operand): set<string> {
    if op.Pseudo? then {op.name} else {}
  }

  /** The pseudo-registers among the operands pass 2 visits. */
  function PseudoNames(i: Instruction): set<string> {
    match i
    case Mov(src, dst) => OperandNames(src) + OperandNames(dst)
    case Unary(_, operand) => OperandNames(operand)
    case Binary(_, src, dst) => OperandNames(src) + OperandNames(dst)
    case Idiv(operand) => OperandNames(operand)
    case _ => {}
  }

  function AllPseudoNames(instrs: seq<Instruction>): set<string> {
    if instrs == [] then {} else AllPseudoNames(instrs[..|instrs| - 1]) + PseudoNames(instrs[|instrs| - 1])
  }

  /** The same instruction kind and operator, whatever the operands. */
  predicate SameOpcode(a: Instruction, b: Instruction) {
    match a
    case Mov(_, _) => b.Mov?
    case Unary(op, _) => b.Unary? && b.unop == op
    case Binary(op, _, _) => b.Binary? && b.binop == op
    case Idiv(_) => b.Idiv?
    case _ => a == b
  }

  /** Pass 2 does not look inside `Cmp` and `SetCC`, so these must not hold pseudo-registers. */
  predicate Pass2Visits(i: Instruction) {
    !(i.Cmp? || i.SetCC?) || NoPseudo(i)
  }

  lemma FreshSlot(varMap: map<string, int>, offset: int, n: string)
    requires SlotsValid(varMap, offset) && n !in varMap
    ensures SlotsValid(varMap[n := offset - 4], offset - 4)
  {
    var m' := varMap[n := offset - 4];
    assert |m'| == |varMap| + 1;
    forall a, b | a in m' && b in m' && a != b
      ensures m'[a] != m'[b]
    {
      if a != n && b != n {
        assert m'[a] == varMap[a] && m'[b] == varMap[b];
      }
    }
  }

  lemma AssignSlotValid(op: Operand, varMap: map<string, int>, offset: int)
    requires SlotsValid(varMap, offset)
    ensures SlotsValid(AssignSlot(op, varMap, offset).1, AssignSlot(op, varMap, offset).2)
  {
    if op.Pseudo? && op.name !in varMap {
      FreshSlot(varMap, offset, op.name);
    }
  }

  lemma AssignSlotSpec(op: Operand, varMap: map<string, int>, offset: int)
    ensures Extends(AssignSlot(op, varMap, offset).1, varMap)
    ensures AssignSlot(op, varMap, offset).1.Keys == varMap.Keys + OperandNames(op)
    ensures AssignSlot(op, varMap, offset).0 == SubstOperand(AssignSlot(op, varMap, offset).1, op)
  {
    if op.Pseudo? {
      if op.name !in varMap {
        assert varMap[op.name := offset - 4].Keys == varMap.Keys + {op.name};
      } else {
        assert varMap.Keys + {op.name} == varMap.Keys;
      }
    } else {
      assert varMap.Keys + {} == varMap.Keys;
    }
  }

  lemma SubstStable(m: map<string, int>, m': map<string, int>, i: Instruction)
    requires Extends(m', m) && PseudoNames(i) <= m.Keys
    ensures SubstInstr(m, i) == SubstInstr(m', i)
  {
  }

  lemma ReplaceInstrValid(i: Instruction, varMap: map<string, int>, offset: int)
    requires SlotsValid(varMap, offset)
    ensures SlotsValid(ReplaceInstr(i, varMap, offset).1, ReplaceInstr(i, varMap, offset).2)
  {
    match i {
      case Mov(src, dst) =>
        AssignSlotValid(src, varMap, offset);
        var (_, m1, o1) := AssignSlot(src, varMap, offset);
        AssignSlotValid(dst, m1, o1);
      case Unary(_, operand) =>
        AssignSlotValid(operand, varMap, offset);
      case Binary(_, src, dst) =>
        AssignSlotValid(src, varMap, offset);
        var (_, m1, o1) := AssignSlot(src, varMap, offset);
        AssignSlotValid(dst, m1, o1);
      case Idiv(operand) =>
        AssignSlotValid(operand, varMap, offset);
      case _ =>
    }
  }

  lemma ReplaceInstrSpec(i: Instruction, varMap: map<string, int>, offset: int)
    ensures Extends(ReplaceInstr(i, varMap, offset).1, varMap)
    ensures ReplaceInstr(i, varMap, offset).1.Keys == varMap.Keys + PseudoNames(i)
    ensures ReplaceInstr(i, varMap, offset).0 == SubstInstr(ReplaceInstr(i, varMap, offset).1, i)
  {
    match i {
      case Mov(src, dst) =>
        AssignSlotSpec(src, varMap, offset);
        var (_, m1, o1) := AssignSlot(src, varMap, offset);
        AssignSlotSpec(dst, m1, o1);
      case Unary(_, operand) =>
        AssignSlotSpec(operand, varMap, offset);
      case Binary(_, src, dst) =>
        AssignSlotSpec(src, varMap, offset);
        var (_, m1, o1) := AssignSlot(src, varMap, offset);
        AssignSlotSpec(dst, m1, o1);
      case Idiv(operand) =>
        AssignSlotSpec(operand, varMap, offset);
      case _ =>
        assert varMap.Keys + {} == varMap.Keys;
    }
  }

  lemma {:induction false} NamesOfElement(instrs: seq<Instruction>, k: nat)
    requires k < |instrs|
    ensures PseudoNames(instrs[k]) <= AllPseudoNames(instrs)
  {
    if k < |instrs| - 1 {
      NamesOfElement(instrs[..|instrs| - 1], k);
    }
  }

  lemma {:induction false} ReplaceAllValid(instrs: seq<Instruction>, varMap: map<string, int>, offset: int)
    requires SlotsValid(varMap, offset)
    ensures SlotsValid(ReplaceAll(instrs, varMap, offset).1, ReplaceAll(instrs, varMap, offset).2)
  {
    if instrs != [] {
      ReplaceAllValid(instrs[..|instrs| - 1], varMap, offset);
      var (_, m, o) := ReplaceAll(instrs[..|instrs| - 1], varMap, offset);
      ReplaceInstrValid(instrs[|instrs| - 1], m, o);
    }
  }

  lemma {:induction false} ReplaceAllSpec(instrs: seq<Instruction>, varMap: map<string, int>, offset: int)
    ensures Extends(ReplaceAll(instrs, varMap, offset).1, varMap)
    ensures ReplaceAll(instrs, varMap, offset).1.Keys == varMap.Keys + AllPseudoNames(instrs)
    ensures |ReplaceAll(instrs, varMap, offset).0| == |instrs|
    ensures forall k :: 0 <= k < |instrs| ==>
      ReplaceAll(instrs, varMap, offset).0[k] == SubstInstr(ReplaceAll(instrs, varMap, offset).1, instrs[k])
  {
    if instrs == [] {
      assert varMap.Keys + {} == varMap.Keys;
    } else {
      var prefix := instrs[..|instrs| - 1];
      ReplaceAllSpec(prefix, varMap, offset);
      var (front, m, o) := ReplaceAll(prefix, varMap, offset);
      ReplaceInstrSpec(instrs[|instrs| - 1], m, o);
      var (last, m', o') := ReplaceInstr(instrs[|instrs| - 1], m, o);
      forall k | 0 <= k < |prefix|
        ensures SubstInstr(m, prefix[k]) == SubstInstr(m', prefix[k])
      {
        NamesOfElement(prefix, k);
        SubstStable(m, m', prefix[k]);
      }
    }
  }

  /**
   * What pass 2 guarantees, starting from an empty map at offset 0: the
   * same number of instructions with the same opcodes; each pseudo-register
   * replaced by the one slot its name is mapped to; one slot per distinct
   * name, all different, at -4, -8, ...; a byte count of 4 per name; and no
   * pseudo-register left where pass 2 looks.
   */
  lemma Pass2Properties(instrs: seq<Instruction>)
    ensures |ReplaceAll(instrs, map[], 0).0| == |instrs|
    ensures forall k :: 0 <= k < |instrs| ==> SameOpcode(instrs[k], ReplaceAll(instrs, map[], 0).0[k])
    ensures forall k :: 0 <= k < |instrs| ==>
      ReplaceAll(instrs, map[], 0).0[k] == SubstInstr(ReplaceAll(instrs, map[], 0).1, instrs[k])
    ensures ReplaceAll(instrs, map[], 0).1.Keys == AllPseudoNames(instrs)
    ensures SlotsValid(ReplaceAll(instrs, map[], 0).1, ReplaceAll(instrs, map[], 0).2)
  {
    ReplaceAllSpec(instrs, map[], 0);
    ReplaceAllValid(instrs, map[], 0);
    var (out, slots, _) := ReplaceAll(instrs, map[], 0);
    forall k | 0 <= k < |instrs| ensures SameOpcode(instrs[k], out[k]) {
      SubstSameOpcode(slots, instrs[k]);
    }
    assert {} + AllPseudoNames(instrs) == AllPseudoNames(instrs);
  }

  // Slot order: the n-th distinct name pass 2 meets gets -4 * n.

  function OperandVisits(op: Operand): seq<string> {
    if op.Pseudo? then [op.name] else []
  }

  /** The pseudo-register names pass 2 meets in one instruction, source before destination. */
  function InstrVisits(i: Instruction): seq<string> {
    match i
    case Mov(src, dst) => OperandVisits(src) + OperandVisits(dst)
    case Unary(_, operand) => OperandVisits(operand)
    case Binary(_, src, dst) => OperandVisits(src) + OperandVisits(dst)
    case Idiv(operand) => OperandVisits(operand)
    case _ => []
  }

  /** The pseudo-register names pass 2 meets, in the order it meets them, repeats included. */
  function Visits(instrs: seq<Instruction>): seq<string> {
    if instrs == [] then [] else Visits(instrs[..|instrs| - 1]) + InstrVisits(instrs[|instrs| - 1])
  }

  /** The distinct names of `names`, each at the place of its first occurrence. */
  function FirstOccurrences(names: seq<string>): seq<string> {
    if names == [] then []
    else
      var front := FirstOccurrences(names[..|names| - 1]);
      if names[|names| - 1] in front then front else front + [names[|names| - 1]]
  }

  /** `FirstOccurrences` keeps every name once and no other name. */
  lemma {:induction false} FirstOccurrencesSpec(names: seq<string>)
    ensures forall n :: n in FirstOccurrences(names) <==> n in names
    ensures forall i, j :: 0 <= i < j < |FirstOccurrences(names)| ==>
      FirstOccurrences(names)[i] != FirstOccurrences(names)[j]
  {
    if names != [] {
      var front := names[..|names| - 1];
      FirstOccurrencesSpec(front);
      assert names == front + [names[|names| - 1]];
    }
  }

  /** The k-th name of `order` has slot -4 * (k + 1), these are all the slots, and the offset is the last one. */
  ghost predicate SlotsInOrder(varMap: map<string, int>, offset: int, order: seq<string>) {
    offset == -4 * |order| &&
    (forall n :: n in varMap <==> n in order) &&
    (forall k :: 0 <= k < |order| ==> order[k] in varMap && varMap[order[k]] == -4 * (k + 1))
  }

  lemma AssignSlotOrder(op: Operand, varMap: map<string, int>, offset: int, seen: seq<string>)
    requires SlotsInOrder(varMap, offset, FirstOccurrences(seen))
    ensures SlotsInOrder(AssignSlot(op, varMap, offset).1, AssignSlot(op, varMap, offset).2,
      FirstOccurrences(seen + OperandVisits(op)))
  {
    if op.Pseudo? {
      var seen' := seen + [op.name];
      assert seen'[..|seen'| - 1] == seen;
      var order := FirstOccurrences(seen);
      if op.name !in varMap {
        var order' := order + [op.name];
        var m' := varMap[op.name := offset - 4];
        forall k | 0 <= k < |order'|
          ensures order'[k] in m' && m'[order'[k]] == -4 * (k + 1)
        {
          if k < |order| {
            assert order'[k] == order[k];
          }
        }
      }
    } else {
      assert seen + [] == seen;
    }
  }

  lemma ReplaceInstrOrder(i: Instruction, varMap: map<string, int>, offset: int, seen: seq<string>)
    requires SlotsInOrder(varMap, offset, FirstOccurrences(seen))
    ensures SlotsInOrder(ReplaceInstr(i, varMap, offset).1, ReplaceInstr(i, varMap, offset).2,
      FirstOccurrences(seen + InstrVisits(i)))
  {
    match i {
      case Mov(src, dst) =>
        AssignSlotOrder(src, varMap, offset, seen);
        var (_, m1, o1) := AssignSlot(src, varMap, offset);
        AssignSlotOrder(dst, m1, o1, seen + OperandVisits(src));
        assert seen + OperandVisits(src) + OperandVisits(dst) == seen + InstrVisits(i);
      case Unary(_, operand) =>
        AssignSlotOrder(operand, varMap, offset, seen);
      case Binary(_, src, dst) =>
        AssignSlotOrder(src, varMap, offset, seen);
        var (_, m1, o1) := AssignSlot(src, varMap, offset);
        AssignSlotOrder(dst, m1, o1, seen + OperandVisits(src));
        assert seen + OperandVisits(src) + OperandVisits(dst) == seen + InstrVisits(i);
      case Idiv(operand) =>
        AssignSlotOrder(operand, varMap, offset, seen);
      case _ =>
        assert seen + [] == seen;
    }
  }

  lemma {:induction false} ReplaceAllOrder(instrs: seq<Instruction>)
    ensures SlotsInOrder(ReplaceAll(instrs, map[], 0).1, ReplaceAll(instrs, map[], 0).2,
      FirstOccurrences(Visits(instrs)))
  {
    if instrs != [] {
      var prefix := instrs[..|instrs| - 1];
      ReplaceAllOrder(prefix);
      var (_, m, o) := ReplaceAll(prefix, map[], 0);
      ReplaceInstrOrder(instrs[|instrs| - 1], m, o, Visits(prefix));
    }
  }

  /**
   * Slots are handed out in order of first sight: the k-th distinct
   * pseudo-register pass 2 meets (counting from 0, sources before
   * destinations, instructions left to right) gets offset -4 * (k + 1),
   * and the final offset is -4 times the number of distinct names.
   */
  lemma Pass2SlotOrder(instrs: seq<Instruction>)
    ensures var names := FirstOccurrences(Visits(instrs));
      var (_, slots, offset) := ReplaceAll(instrs, map[], 0);
      (forall n :: n in slots <==> n in Visits(instrs)) &&
      (forall k :: 0 <= k < |names| ==> names[k] in slots && slots[names[k]] == -4 * (k + 1)) &&
      offset == -4 * |names|
  {
    ReplaceAllOrder(instrs);
    FirstOccurrencesSpec(Visits(instrs));
  }

  /** Substituting a map that covers every visited name leaves no pseudo-register. */
  lemma SubstCovers(varMap: map<string, int>, i: Instruction)
    requires PseudoNames(i) <= varMap.Keys && Pass2Visits(i)
    ensures NoPseudo(SubstInstr(varMap, i))
  {
  }

  lemma SubstSameOpcode(varMap: map<string, int>, i: Instruction)
    ensures SameOpcode(i, SubstInstr(varMap, i))
  {
  }

  /** Where every pseudo-register lies where pass 2 looks, none is left after it. */
  lemma Pass2RemovesPseudo(instrs: seq<Instruction>)
    requires forall k :: 0 <= k < |instrs| ==> Pass2Visits(instrs[k])
    ensures AllNoPseudo(ReplaceAll(instrs, map[], 0).0)
  {
    ReplaceAllSpec(instrs, map[], 0);
    var (out, slots, _) := ReplaceAll(instrs, map[], 0);
    assert {} + AllPseudoNames(instrs) == AllPseudoNames(instrs);
    forall k | 0 <= k < |instrs| ensures NoPseudo(out[k]) {
      NamesOfElement(instrs, k);
      SubstCovers(slots, instrs[k]);
    }
  }

  lemma Pass1FormVisited(i: Instruction)
    requires Pass1Form(i)
    ensures Pass2Visits(i)
  {
  }

  // ---------------------------------------------------------------
  // Pass 3: fix-ups and the stack allocation
  // ---------------------------------------------------------------

  /** `(bytes + 15) & !15`: `bytes` rounded up to a multiple of 16. */
  function Align16(bytes: nat): (a: nat)
    ensures a % 16 == 0 && bytes <= a < bytes + 16
  {
    (bytes + 15) / 16 * 16
  }

  /** Every multiple of 16 at least `bytes` is at least `Align16(bytes)`. */
  lemma Align16Smallest(bytes: nat, m: nat)
    requires m % 16 == 0 && bytes <= m
    ensures Align16(bytes) <= m
  {
  }

  predicate IsMemToMemMov(i: Instruction) {
    i.Mov? && i.src.Stack? && i.dst.Stack?
  }

  predicate IsMemToMemAddSub(i: Instruction) {
    i.Binary? && (i.binop == Add || i.binop == Subtract) && i.src.Stack? && i.dst.Stack?
  }

  predicate IsMulToMem(i: Instruction) {
    i.Binary? && i.binop == Multiply && i.dst.Stack?
  }

  predicate IsIdivImm(i: Instruction) {
    i.Idiv? && i.operand.Imm?
  }

  /** None of the four operand combinations pass 3 repairs. */
  predicate Legal(i: Instruction) {
    !IsMemToMemMov(i) && !IsMemToMemAddSub(i) && !IsMulToMem(i) && !IsIdivImm(i)
  }

  /** The replacement for one instruction. */
  function Fixup(i: Instruction): seq<Instruction> {
    if IsMemToMemMov(i) then
      [Mov(i.src, Reg(R10)), Mov(Reg(R10), i.dst)]
    else if IsMemToMemAddSub(i) then
      [Mov(i.src, Reg(R10)), Binary(i.binop, Reg(R10), i.dst)]
    else if IsMulToMem(i) then
      [Mov(i.dst, Reg(R11)), Binary(Multiply, i.src, Reg(R11)), Mov(Reg(R11), i.dst)]
    else if IsIdivImm(i) then
      [Mov(i.operand, Reg(R10)), Idiv(Reg(R10))]
    else
      [i]
  }

  function FixupAll(instrs: seq<Instruction>): seq<Instruction> {
    if instrs == [] then [] else FixupAll(instrs[..|instrs| - 1]) + Fixup(instrs[|instrs| - 1])
  }

  /** Pass 3's output: the aligned allocation when any slot is used, then the repaired body. */
  function Pass3(instrs: seq<Instruction>, stackBytes: nat): seq<Instruction> {
    (if stackBytes > 0 then [AllocateStack(Align16(stackBytes))] else []) + FixupAll(instrs)
  }

  /** A legal instruction is copied as it is; an illegal one is replaced by legal ones. */
  lemma FixupSpec(i: Instruction)
    ensures Fixup(i) == [i] <==> Legal(i)
    ensures forall k :: 0 <= k < |Fixup(i)| ==> Legal(Fixup(i)[k])
    ensures NoPseudo(i) ==> forall k :: 0 <= k < |Fixup(i)| ==> NoPseudo(Fixup(i)[k])
  {
  }

  lemma {:induction false} FixupAllSpec(instrs: seq<Instruction>)
    ensures forall k :: 0 <= k < |FixupAll(instrs)| ==> Legal(FixupAll(instrs)[k])
    ensures AllNoPseudo(instrs) ==> AllNoPseudo(FixupAll(instrs))
    ensures (forall k :: 0 <= k < |instrs| ==> Legal(instrs[k])) ==> FixupAll(instrs) == instrs
  {
    FixupAllLegal(instrs);
    if AllNoPseudo(instrs) {
      FixupAllNoPseudo(instrs);
    }
    if forall k :: 0 <= k < |instrs| ==> Legal(instrs[k]) {
      FixupAllKeepsLegal(instrs);
    }
  }

  lemma {:induction false} FixupAllLegal(instrs: seq<Instruction>)
    ensures forall k :: 0 <= k < |FixupAll(instrs)| ==> Legal(FixupAll(instrs)[k])
  {
    if instrs != [] {
      var prefix, last := instrs[..|instrs| - 1], instrs[|instrs| - 1];
      FixupAllLegal(prefix);
      FixupSpec(last);
      var front, tail := FixupAll(prefix), Fixup(last);
      assert FixupAll(instrs) == front + tail;
      forall k | 0 <= k < |front + tail|
        ensures Legal((front + tail)[k])
      {
        if k < |front| {
          assert (front + tail)[k] == front[k];
        } else {
          assert (front + tail)[k] == tail[k - |front|];
        }
      }
    }
  }

  lemma {:induction false} FixupAllNoPseudo(instrs: seq<Instruction>)
    requires AllNoPseudo(instrs)
    ensures AllNoPseudo(FixupAll(instrs))
  {
    if instrs != [] {
      var prefix, last := instrs[..|instrs| - 1], instrs[|instrs| - 1];
      assert AllNoPseudo(prefix) by {
        forall k | 0 <= k < |prefix| ensures NoPseudo(prefix[k]) {
          assert prefix[k] == instrs[k];
        }
      }
      FixupAllNoPseudo(prefix);
      FixupSpec(last);
      var front, tail := FixupAll(prefix), Fixup(last);
      assert FixupAll(instrs) == front + tail;
      forall k | 0 <= k < |front + tail|
        ensures NoPseudo((front + tail)[k])
      {
        if k < |front| {
          assert (front + tail)[k] == front[k];
        } else {
          assert (front + tail)[k] == tail[k - |front|];
        }
      }
    }
  }

  lemma {:induction false} FixupAllKeepsLegal(instrs: seq<Instruction>)
    requires forall k :: 0 <= k < |instrs| ==> Legal(instrs[k])
    ensures FixupAll(instrs) == instrs
  {
    if instrs != [] {
      var prefix, last := instrs[..|instrs| - 1], instrs[|instrs| - 1];
      assert forall k :: 0 <= k < |prefix| ==> prefix[k] == instrs[k];
      FixupAllKeepsLegal(prefix);
      FixupSpec(last);
      assert instrs == prefix + [last];
    }
  }

  /**
   * After pass 3 no instruction moves memory to memory, adds or subtracts
   * memory to memory, multiplies into memory or divides by an immediate;
   * a body with none of these is kept as it is.
   */
  lemma Pass3Properties(instrs: seq<Instruction>, stackBytes: nat)
    ensures forall k :: 0 <= k < |Pass3(instrs, stackBytes)| ==> Legal(Pass3(instrs, stackBytes)[k])
    ensures AllNoPseudo(instrs) ==> AllNoPseudo(Pass3(instrs, stackBytes))
    ensures stackBytes == 0 && (forall k :: 0 <= k < |instrs| ==> Legal(instrs[k])) ==>
      Pass3(instrs, stackBytes) == instrs
  {
    FixupAllSpec(instrs);
    var alloc: seq<Instruction> := if stackBytes > 0 then [AllocateStack(Align16(stackBytes))] else [];
    assert forall k :: 0 <= k < |Pass3(instrs, stackBytes)| ==>
      Pass3(instrs, stackBytes)[k] == if k < |alloc| then alloc[k] else FixupAll(instrs)[k - |alloc|];
  }

  method FixupInstruction(i: Instruction) returns (out: seq<Instruction>)
    ensures out == Fixup(i)
  {
    match i {
      case Mov(Stack(srcOffset), Stack(dstOffset)) =>
        out := [Mov(Stack(srcOffset), Reg(R10)), Mov(Reg(R10), Stack(dstOffset))];
      case Binary(op, Stack(srcOffset), Stack(dstOffset)) =>
        if op == Add || op == Subtract {
          out := [Mov(Stack(srcOffset), Reg(R10)), Binary(op, Reg(R10), Stack(dstOffset))];
        } else {
          out := [Mov(Stack(dstOffset), Reg(R11)), Binary(Multiply, Stack(srcOffset), Reg(R11)),
                  Mov(Reg(R11), Stack(dstOffset))];
        }
      case Binary(Multiply, src, Stack(dstOffset)) =>
        out := [Mov(Stack(dstOffset), Reg(R11)), Binary(Multiply, src, Reg(R11)), Mov(Reg(R11), Stack(dstOffset))];
      case Idiv(Imm(val)) =>
        out := [Mov(Imm(val), Reg(R10)), Idiv(Reg(R10))];
      case _ =>
        out := [i];
    }
  }

  method FixupInstructionsPass3(instrs: seq<Instruction>, stackBytes: nat) returns (newInstructions: seq<Instruction>)
    ensures newInstructions == Pass3(instrs, stackBytes)
  {
    newInstructions := [];
    if stackBytes > 0 {
      var alignedBytes := (stackBytes + 15) / 16 * 16;
      newInstructions := newInstructions + [AllocateStack(alignedBytes)];
    }
    ghost var alloc := newInstructions;
    for k := 0 to |instrs|
      invariant newInstructions == alloc + FixupAll(instrs[..k])
    {
      assert instrs[..k + 1][..k] == instrs[..k];
      assert FixupAll(instrs[..k + 1]) == FixupAll(instrs[..k]) + Fixup(instrs[k]);
      var fixed := FixupInstruction(instrs[k]);
      assert alloc + FixupAll(instrs[..k]) + fixed == alloc + (FixupAll(instrs[..k]) + fixed);
      newInstructions := newInstructions + fixed;
    }
    assert instrs[..|instrs|] == instrs;
  }

  // ---------------------------------------------------------------
  // The three passes together
  // ---------------------------------------------------------------

  /** `i32::abs`, which turns the final offset into a byte count. */
  function Abs(offset: int): nat {
    if offset < 0 then -offset else offset
  }

  /** The assembly program the generator produces for `prog`. */
  function GenerateSpec(prog: T.Program): Program
    requires AllSelectable(prog.func.body)
  {
    var pass2 := ReplaceAll(SelectAll(prog.func.body), map[], 0);
    Program(Function(prog.func.name, Pass3(pass2.0, Abs(pass2.2))))
  }

  method GenerateAssembly(prog: T.Program) returns (r: Result<Program>)
    requires AllSelectable(prog.func.body)
    ensures r == Ok(GenerateSpec(prog))
  {
    var pass1 := ConvertTackyToAsmPass1(prog.func);
    var asmFunc := pass1.value;
    var instrs := new Instruction[|asmFunc.instructions|](k requires 0 <= k < |asmFunc.instructions| => asmFunc.instructions[k]);
    assert instrs[..] == SelectAll(prog.func.body);
    ghost var pass2 := ReplaceAll(SelectAll(prog.func.body), map[], 0);
    var stackBytesNeeded := ReplacePseudoWithStackPass2(instrs);
    assert instrs[..] == pass2.0 && stackBytesNeeded == Ok(Abs(pass2.2));
    var fixed := FixupInstructionsPass3(instrs[..], stackBytesNeeded.value);
    r := Ok(Program(Function(asmFunc.name, fixed)));
  }

  lemma SubstEmpty(i: Instruction)
    ensures SubstInstr(map[], i) == i
  {
  }

  /**
   * The generated function keeps the TACKY function's name, holds no
   * pseudo-register and no instruction pass 3 would have to repair.
   */
  lemma GenerateProperties(prog: T.Program)
    requires AllSelectable(prog.func.body)
    ensures GenerateSpec(prog).func.name == prog.func.name
    ensures AllNoPseudo(GenerateSpec(prog).func.instructions)
    ensures forall k :: 0 <= k < |GenerateSpec(prog).func.instructions| ==>
      Legal(GenerateSpec(prog).func.instructions[k])
  {
    var selected := SelectAll(prog.func.body);
    SelectAllForm(prog.func.body);
    Pass2RemovesPseudo(selected);
    var (body, slots, offset) := ReplaceAll(selected, map[], 0);
    Pass3Properties(body, Abs(offset));
  }

  /** The stack allocation: 4 bytes per distinct variable rounded up to 16, first in the function. */
  lemma GenerateStackFrame(prog: T.Program)
    requires AllSelectable(prog.func.body)
    requires AllPseudoNames(SelectAll(prog.func.body)) != {}
    ensures GenerateSpec(prog).func.instructions[0]
      == AllocateStack(Align16(4 * |AllPseudoNames(SelectAll(prog.func.body))|))
  {
    var selected := SelectAll(prog.func.body);
    ReplaceAllSpec(selected, map[], 0);
    ReplaceAllValid(selected, map[], 0);
    var pass2 := ReplaceAll(selected, map[], 0);
    assert pass2.1.Keys == AllPseudoNames(selected);
    var n :| n in pass2.1.Keys;
    assert |pass2.1| == |pass2.1.Keys| > 0;
    var bytes := Abs(pass2.2);
    assert bytes == 4 * |AllPseudoNames(selected)| > 0;
    assert Pass3(pass2.0, bytes) == [AllocateStack(Align16(bytes))] + FixupAll(pass2.0);
  }

  /** With no variable there is no allocation: the output is the fixed-up pass-1 code. */
  lemma GenerateNoFrame(prog: T.Program)
    requires AllSelectable(prog.func.body)
    requires AllPseudoNames(SelectAll(prog.func.body)) == {}
    ensures GenerateSpec(prog).func.instructions == FixupAll(SelectAll(prog.func.body))
  {
    var selected := SelectAll(prog.func.body);
    ReplaceAllSpec(selected, map[], 0);
    ReplaceAllValid(selected, map[], 0);
    var pass2 := ReplaceAll(selected, map[], 0);
    assert pass2.1 == map[];
    forall k | 0 <= k < |selected| ensures pass2.0[k] == selected[k] {
      SubstEmpty(selected[k]);
    }
    assert pass2.0 == selected;
  }
}
