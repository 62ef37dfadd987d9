/**
 * Loop labelling (src/semantics/loop_labeler.rs).
 *
 * Every `while`, `do`-`while` and `for` draws an id from the shared
 * generator before its children are labelled and pushes it on a stack of
 * enclosing loops; `break` and `continue` take the id on top of that
 * stack. Everything else is copied across from the unchecked tree to the
 * checked one.
 *
 * The functions below state the result and the new labeler state (stack
 * and counter) as a function of the old; the class methods are proved
 * equal to them.
 */
module LoopLabeling {
  import opened Wrappers
  import opened Common
  import U = UncheckedAst
  import C = CheckedAst

  const BreakOutsideMsg := "'break' statement not in a loop"
  const ContinueOutsideMsg := "'continue' statement not in a loop"

  /** The stack of enclosing loop ids and the shared generator's counter. */
  datatype LabelState = LabelState(stack: seq<C.LoopId>, nextId: nat)

  /** `Vec::pop`: drops the top, if any. */
  function Pop(stack: seq<C.LoopId>): seq<C.LoopId> {
    if |stack| == 0 then [] else stack[..|stack| - 1]
  }

  /** A fresh id pushed on the stack. */
  function Enter(st: LabelState): LabelState {
    LabelState(st.stack + [st.nextId], st.nextId + 1)
  }

  /** `label_statement`. On an error the stack is left as the failing child left it. */
  function StmtAt(s: U.Statement, st: LabelState): (Result<C.Statement>, LabelState)
    decreases s, 1
  {
    match s
    case For(init, condition, post, body) =>
      var id := st.nextId;
      var (i, s1) := if init.Some? then ItemAt(init.value, Enter(st)) else (Ok(C.S(C.Empty)), Enter(st));
      if i.Err? then (Err(i.msg), s1)
      else
        var (b, s2) := StmtAt(body, s1);
        if b.Err? then (b, s2)
        else
          (Ok(C.For(if init.Some? then Some(i.value) else None, condition, post, b.value, id)),
           s2.(stack := Pop(s2.stack)))
    case While(condition, body) =>
      var id := st.nextId;
      var (b, s1) := StmtAt(body, Enter(st));
      if b.Err? then (b, s1) else (Ok(C.While(condition, b.value, id)), s1.(stack := Pop(s1.stack)))
    case DoWhile(body, condition) =>
      var id := st.nextId;
      var (b, s1) := StmtAt(body, Enter(st));
      if b.Err? then (b, s1) else (Ok(C.DoWhile(b.value, condition, id)), s1.(stack := Pop(s1.stack)))
    case Break =>
      if |st.stack| == 0 then (Err(BreakOutsideMsg), st) else (Ok(C.Break(st.stack[|st.stack| - 1])), st)
    case Continue =>
      if |st.stack| == 0 then (Err(ContinueOutsideMsg), st) else (Ok(C.Continue(st.stack[|st.stack| - 1])), st)
    case Return(e) => (Ok(C.Return(e)), st)
    case Expression(e) => (Ok(C.Expression(e)), st)
    case Empty => (Ok(C.Empty), st)
    case Compound(b) =>
      var (items, s1) := BlockFrom(b.blocks, 0, st);
      if items.Err? then (Err(items.msg), s1) else (Ok(C.Compound(C.Block(items.value))), s1)
    case If(condition, thenStat, elseStat) =>
      var (t, s1) := StmtAt(thenStat, st);
      if t.Err? then (t, s1)
      else if elseStat.None? then (Ok(C.If(condition, t.value, None)), s1)
      else
        var (e, s2) := StmtAt(elseStat.value, s1);
        if e.Err? then (e, s2) else (Ok(C.If(condition, t.value, Some(e.value))), s2)
  }

  /** `label_block_item`: declarations are moved across unchanged. */
  function ItemAt(item: U.BlockItem, st: LabelState): (Result<C.BlockItem>, LabelState)
    decreases item
  {
    match item
    case S(s) =>
      var (r, s1) := StmtAt(s, st);
      (if r.Err? then Err(r.msg) else Ok(C.S(r.value)), s1)
    case D(decl) => (Ok(C.D(decl)), st)
  }

  /** `label_block` from item `k` on, in order, stopping at the first error. */
  function BlockFrom(items: seq<U.BlockItem>, k: nat, st: LabelState): (Result<seq<C.BlockItem>>, LabelState)
    requires k <= |items|
    decreases items, |items| - k
  {
    if k == |items| then (Ok([]), st)
    else
      var (r, s1) := ItemAt(items[k], st);
      if r.Err? then (Err(r.msg), s1)
      else
        var (rest, s2) := BlockFrom(items, k + 1, s1);
        if rest.Err? then (rest, s2) else (Ok([r.value] + rest.value), s2)
  }

  function FunctionAt(f: U.Function, st: LabelState): (Result<C.Function>, LabelState) {
    var (items, s1) := BlockFrom(f.body.blocks, 0, st);
    (if items.Err? then Err(items.msg) else Ok(C.Function(f.name, C.Block(items.value))), s1)
  }

  function ProgramAt(p: U.Program, st: LabelState): (Result<C.Program>, LabelState) {
    var (r, s1) := FunctionAt(p.func, st);
    (if r.Err? then Err(r.msg) else Ok(C.Program(r.value)), s1)
  }

  // ---------------------------------------------------------------
  // The labeler
  // ---------------------------------------------------------------

  class LoopLabeler {
    var loopIdStack: seq<C.LoopId>
    const idGenerator: UniqueIdGenerator

    constructor (idGenerator: UniqueIdGenerator)
      ensures this.idGenerator == idGenerator && loopIdStack == []
    {
      this.idGenerator := idGenerator;
      loopIdStack := [];
    }

    ghost function Current(): LabelState
      reads this, idGenerator
    {
      LabelState(loopIdStack, idGenerator.counter)
    }

    method LabelProgram(p: U.Program) returns (r: Result<C.Program>)
      modifies this, idGenerator
      ensures (r, Current()) == ProgramAt(p, old(Current()))
    {
      var f :- LabelFunction(p.func);
      r := Ok(C.Program(f));
    }

    method LabelFunction(f: U.Function) returns (r: Result<C.Function>)
      modifies this, idGenerator
      ensures (r, Current()) == FunctionAt(f, old(Current()))
    {
      var body :- LabelBlock(f.body);
      r := Ok(C.Function(f.name, body));
    }

    method LabelBlock(b: U.Block) returns (r: Result<C.Block>)
      modifies this, idGenerator
      decreases b.blocks, |b.blocks| + 1
      ensures var (items, st) := BlockFrom(b.blocks, 0, old(Current()));
        Current() == st && r == (if items.Err? then Err(items.msg) else Ok(C.Block(items.value)))
    {
      var labelled := [];
      assert Glue([], BlockFrom(b.blocks, 0, Current())) == BlockFrom(b.blocks, 0, Current()) by {
        if BlockFrom(b.blocks, 0, Current()).0.Ok? {
          assert [] + BlockFrom(b.blocks, 0, Current()).0.value == BlockFrom(b.blocks, 0, Current()).0.value;
        }
      }
      for k := 0 to |b.blocks|
        invariant BlockFrom(b.blocks, 0, old(Current())) == Glue(labelled, BlockFrom(b.blocks, k, Current()))
      {
        var item := LabelBlockItem(b.blocks[k]);
        if item.Err? {
          return Err(item.msg);
        }
        ghost var rest := BlockFrom(b.blocks, k + 1, Current());
        GlueGlue(labelled, [item.value], rest);
        labelled := labelled + [item.value];
      }
      assert labelled + [] == labelled;
      r := Ok(C.Block(labelled));
    }

    method LabelBlockItem(item: U.BlockItem) returns (r: Result<C.BlockItem>)
      modifies this, idGenerator
      decreases item
      ensures (r, Current()) == ItemAt(item, old(Current()))
    {
      match item {
        case S(s) =>
          var labelled :- LabelStatement(s);
          r := Ok(C.S(labelled));
        case D(decl) =>
          r := Ok(C.D(decl));
      }
    }

    method LabelStatement(s: U.Statement) returns (r: Result<C.Statement>)
      modifies this, idGenerator
      decreases s, 1
      ensures (r, Current()) == StmtAt(s, old(Current()))
    {
      match s {
        case For(init, condition, post, body) =>
          var loopId := idGenerator.Next();
          loopIdStack := loopIdStack + [loopId];
          var checkedInit := None;
          if init.Some? {
            var i :- LabelBlockItem(init.value);
            checkedInit := Some(i);
          }
          var checkedBody :- LabelStatement(body);
          loopIdStack := Pop(loopIdStack);
          r := Ok(C.For(checkedInit, condition, post, checkedBody, loopId));
        case While(condition, body) =>
          var loopId := idGenerator.Next();
          loopIdStack := loopIdStack + [loopId];
          var checkedBody :- LabelStatement(body);
          loopIdStack := Pop(loopIdStack);
          r := Ok(C.While(condition, checkedBody, loopId));
        case DoWhile(body, condition) =>
          var loopId := idGenerator.Next();
          loopIdStack := loopIdStack + [loopId];
          var checkedBody :- LabelStatement(body);
          loopIdStack := Pop(loopIdStack);
          r := Ok(C.DoWhile(checkedBody, condition, loopId));
        case Break =>
          if |loopIdStack| > 0 {
            r := Ok(C.Break(loopIdStack[|loopIdStack| - 1]));
          } else {
            r := Err(BreakOutsideMsg);
          }
        case Continue =>
          if |loopIdStack| > 0 {
            r := Ok(C.Continue(loopIdStack[|loopIdStack| - 1]));
          } else {
            r := Err(ContinueOutsideMsg);
          }
        case Return(e) => r := Ok(C.Return(e));
        case Expression(e) => r := Ok(C.Expression(e));
        case Empty => r := Ok(C.Empty);
        case Compound(b) =>
          var block :- LabelBlock(b);
          r := Ok(C.Compound(block));
        case If(condition, thenStat, elseStat) =>
          var checkedThen :- LabelStatement(thenStat);
          var checkedElse := None;
          if elseStat.Some? {
            var e :- LabelStatement(elseStat.value);
            checkedElse := Some(e);
          }
          r := Ok(C.If(condition, checkedThen, checkedElse));
      }
    }
  }

  // ---------------------------------------------------------------
  // Ids: pre-order, consecutive, hence distinct
  // ---------------------------------------------------------------

  /** The loop ids of a checked statement, in pre-order. */
  function StmtIds(s: C.Statement): seq<C.LoopId>
    decreases s
  {
    match s
    case While(_, body, id) => [id] + StmtIds(body)
    case DoWhile(body, _, id) => [id] + StmtIds(body)
    case For(init, _, _, body, id) => [id] + (if init.Some? then ItemIds(init.value) else []) + StmtIds(body)
    case If(_, t, e) => StmtIds(t) + (if e.Some? then StmtIds(e.value) else [])
    case Compound(b) => BlockIds(b.blocks)
    case _ => []
  }

  function ItemIds(item: C.BlockItem): seq<C.LoopId>
    decreases item
  {
    match item
    case S(s) => StmtIds(s)
    case D(_) => []
  }

  function BlockIds(items: seq<C.BlockItem>): seq<C.LoopId>
    decreases items
  {
    if |items| == 0 then [] else ItemIds(items[0]) + BlockIds(items[1..])
  }

  /** `lo, lo + 1, ..., hi - 1`. */
  function Range(lo: nat, hi: nat): (r: seq<nat>)
    requires lo <= hi
    ensures |r| == hi - lo
    decreases hi - lo
  {
    if lo == hi then [] else [lo] + Range(lo + 1, hi)
  }

  lemma {:induction false} RangeElements(lo: nat, hi: nat)
    requires lo <= hi
    ensures forall i :: 0 <= i < hi - lo ==> Range(lo, hi)[i] == lo + i
    decreases hi - lo
  {
    if lo < hi {
      RangeElements(lo + 1, hi);
    }
  }

  lemma {:induction false} RangeSplit(lo: nat, mid: nat, hi: nat)
    requires lo <= mid <= hi
    ensures Range(lo, mid) + Range(mid, hi) == Range(lo, hi)
    decreases mid - lo
  {
    if lo < mid {
      RangeSplit(lo + 1, mid, hi);
      assert [lo] + Range(lo + 1, mid) + Range(mid, hi) == [lo] + (Range(lo + 1, mid) + Range(mid, hi));
    }
  }

  /** The checked tree with its ids dropped: the unchecked tree. */
  function Unlabel(s: C.Statement): U.Statement
    decreases s
  {
    match s
    case Return(e) => U.Return(e)
    case Expression(e) => U.Expression(e)
    case Empty => U.Empty
    case If(c, t, e) => U.If(c, Unlabel(t), if e.Some? then Some(Unlabel(e.value)) else None)
    case Compound(b) => U.Compound(U.Block(UnlabelBlock(b.blocks)))
    case While(c, body, _) => U.While(c, Unlabel(body))
    case DoWhile(body, c, _) => U.DoWhile(Unlabel(body), c)
    case For(init, c, post, body, _) =>
      U.For(if init.Some? then Some(UnlabelItem(init.value)) else None, c, post, Unlabel(body))
    case Break(_) => U.Break
    case Continue(_) => U.Continue
  }

  function UnlabelItem(item: C.BlockItem): U.BlockItem
    decreases item
  {
    match item
    case S(s) => U.S(Unlabel(s))
    case D(decl) => U.D(decl)
  }

  function UnlabelBlock(items: seq<C.BlockItem>): seq<U.BlockItem>
    decreases items
  {
    if |items| == 0 then [] else [UnlabelItem(items[0])] + UnlabelBlock(items[1..])
  }

  /** After a successful step: the stack is as before and the ids handed out are `ids`, in order. */
  predicate Balanced(before: LabelState, after: LabelState, ids: seq<C.LoopId>) {
    after.stack == before.stack && before.nextId <= after.nextId && ids == Range(before.nextId, after.nextId)
  }

  /**
   * A successfully labelled statement leaves the stack as it found it,
   * numbers its loops in pre-order with consecutive fresh ids, and is the
   * input once the ids are dropped.
   */
  lemma {:induction false} StmtBalanced(s: U.Statement, st: LabelState)
    ensures StmtAt(s, st).0.Ok? ==>
      Balanced(st, StmtAt(s, st).1, StmtIds(StmtAt(s, st).0.value)) && Unlabel(StmtAt(s, st).0.value) == s
    decreases s, 1
  {
    match s {
      case For(init, condition, post, body) =>
        ForBalanced(init, condition, post, body, st);
      case While(condition, body) =>
        WhileBalanced(condition, body, st);
      case DoWhile(body, condition) =>
        DoWhileBalanced(body, condition, st);
      case Break =>
      case Continue =>
      case Return(_) =>
      case Expression(_) =>
      case Empty =>
      case Compound(b) =>
        BlockBalanced(b.blocks, 0, st);
        assert b.blocks[0..] == b.blocks;
      case If(condition, thenStat, elseStat) =>
        IfBalanced(condition, thenStat, elseStat, st);
    }
  }

  lemma {:induction false} WhileBalanced(condition: U.Expression, body: U.Statement, st: LabelState)
    ensures var s := U.While(condition, body);
      StmtAt(s, st).0.Ok? ==>
        Balanced(st, StmtAt(s, st).1, StmtIds(StmtAt(s, st).0.value)) && Unlabel(StmtAt(s, st).0.value) == s
    decreases U.While(condition, body), 0
  {
    StmtBalanced(body, Enter(st));
    var (b, s1) := StmtAt(body, Enter(st));
    if b.Ok? {
      var out := C.While(condition, b.value, st.nextId);
      assert StmtAt(U.While(condition, body), st) == (Ok(out), s1.(stack := Pop(s1.stack)));
      assert Pop(Enter(st).stack) == st.stack;
      assert [st.nextId] == Range(st.nextId, st.nextId + 1);
      RangeSplit(st.nextId, st.nextId + 1, s1.nextId);
    }
  }

  lemma {:induction false} DoWhileBalanced(body: U.Statement, condition: U.Expression, st: LabelState)
    ensures var s := U.DoWhile(body, condition);
      StmtAt(s, st).0.Ok? ==>
        Balanced(st, StmtAt(s, st).1, StmtIds(StmtAt(s, st).0.value)) && Unlabel(StmtAt(s, st).0.value) == s
    decreases U.DoWhile(body, condition), 0
  {
    StmtBalanced(body, Enter(st));
    var (b, s1) := StmtAt(body, Enter(st));
    if b.Ok? {
      var out := C.DoWhile(b.value, condition, st.nextId);
      assert StmtAt(U.DoWhile(body, condition), st) == (Ok(out), s1.(stack := Pop(s1.stack)));
      assert Pop(Enter(st).stack) == st.stack;
      assert [st.nextId] == Range(st.nextId, st.nextId + 1);
      RangeSplit(st.nextId, st.nextId + 1, s1.nextId);
    }
  }

  lemma {:induction false} ForBalanced(init: Option<U.BlockItem>, condition: Option<U.Expression>,
                                       post: Option<U.Expression>, body: U.Statement, st: LabelState)
    ensures var s := U.For(init, condition, post, body);
      StmtAt(s, st).0.Ok? ==>
        Balanced(st, StmtAt(s, st).1, StmtIds(StmtAt(s, st).0.value)) && Unlabel(StmtAt(s, st).0.value) == s
    decreases U.For(init, condition, post, body), 0
  {
    var id := st.nextId;
    var s0 := Enter(st);
    var s := U.For(init, condition, post, body);
    var (i, s1) := if init.Some? then ItemAt(init.value, s0) else (Ok(C.S(C.Empty)), s0);
    if i.Ok? {
      ForInitBalanced(init, s0);
      var initOut := if init.Some? then Some(i.value) else None;
      StmtBalanced(body, s1);
      var (b, s2) := StmtAt(body, s1);
      if b.Ok? {
        var out := C.For(initOut, condition, post, b.value, id);
        assert StmtAt(s, st) == (Ok(out), s2.(stack := Pop(s2.stack)));
        ForAssembled(init, condition, post, body, st, initOut, s1, b.value, s2);
      }
    }
  }

  /** A `for` loop put together from a balanced init item and a balanced body is balanced. */
  lemma ForAssembled(init: Option<U.BlockItem>, condition: Option<U.Expression>, post: Option<U.Expression>,
                     body: U.Statement, st: LabelState, initOut: Option<C.BlockItem>, s1: LabelState,
                     bodyOut: C.Statement, s2: LabelState)
    requires initOut.Some? == init.Some? && (init.Some? ==> UnlabelItem(initOut.value) == init.value)
    requires s1.stack == Enter(st).stack && st.nextId + 1 <= s1.nextId
    requires (if initOut.Some? then ItemIds(initOut.value) else []) == Range(st.nextId + 1, s1.nextId)
    requires Balanced(s1, s2, StmtIds(bodyOut)) && Unlabel(bodyOut) == body
    ensures var out := C.For(initOut, condition, post, bodyOut, st.nextId);
      Balanced(st, s2.(stack := Pop(s2.stack)), StmtIds(out)) && Unlabel(out) == U.For(init, condition, post, body)
  {
    ForIds(st, s1, s2, if initOut.Some? then ItemIds(initOut.value) else [], StmtIds(bodyOut));
  }

  /** The init item of a `for` loop is labelled inside the loop's own entry on the stack. */
  lemma {:induction false} ForInitBalanced(init: Option<U.BlockItem>, s0: LabelState)
    ensures var r := if init.Some? then ItemAt(init.value, s0) else (Ok(C.S(C.Empty)), s0);
      r.0.Ok? ==>
        r.1.stack == s0.stack && s0.nextId <= r.1.nextId &&
        (if init.Some? then ItemIds(r.0.value) else []) == Range(s0.nextId, r.1.nextId) &&
        (init.Some? ==> UnlabelItem(r.0.value) == init.value)
    decreases init
  {
    if init.Some? {
      ItemBalanced(init.value, s0);
    }
  }

  /** The ids of a `for` loop: its own, then its init item's, then its body's. */
  lemma ForIds(st: LabelState, s1: LabelState, s2: LabelState, initIds: seq<nat>, bodyIds: seq<nat>)
    requires s1.stack == Enter(st).stack && st.nextId + 1 <= s1.nextId && initIds == Range(st.nextId + 1, s1.nextId)
    requires s2.stack == s1.stack && s1.nextId <= s2.nextId && bodyIds == Range(s1.nextId, s2.nextId)
    ensures [st.nextId] + initIds + bodyIds == Range(st.nextId, s2.nextId)
    ensures Pop(s2.stack) == st.stack
  {
    RangeSplit(st.nextId + 1, s1.nextId, s2.nextId);
    assert [st.nextId] + initIds + bodyIds == [st.nextId] + (initIds + bodyIds);
  }

  lemma {:induction false} IfBalanced(condition: U.Expression, thenStat: U.Statement, elseStat: Option<U.Statement>,
                                      st: LabelState)
    ensures var s := U.If(condition, thenStat, elseStat);
      StmtAt(s, st).0.Ok? ==>
        Balanced(st, StmtAt(s, st).1, StmtIds(StmtAt(s, st).0.value)) && Unlabel(StmtAt(s, st).0.value) == s
    decreases U.If(condition, thenStat, elseStat), 0
  {
    StmtBalanced(thenStat, st);
    var (t, s1) := StmtAt(thenStat, st);
    if t.Ok? && elseStat.Some? {
      StmtBalanced(elseStat.value, s1);
      var s2 := StmtAt(elseStat.value, s1).1;
      if StmtAt(elseStat.value, s1).0.Ok? {
        RangeSplit(st.nextId, s1.nextId, s2.nextId);
      }
    }
  }

  lemma {:induction false} ItemBalanced(item: U.BlockItem, st: LabelState)
    ensures ItemAt(item, st).0.Ok? ==>
      Balanced(st, ItemAt(item, st).1, ItemIds(ItemAt(item, st).0.value)) && UnlabelItem(ItemAt(item, st).0.value) == item
    decreases item
  {
    match item {
      case S(s) => StmtBalanced(s, st);
      case D(_) =>
    }
  }

  lemma {:induction false} BlockBalanced(items: seq<U.BlockItem>, k: nat, st: LabelState)
    requires k <= |items|
    ensures BlockFrom(items, k, st).0.Ok? ==>
      Balanced(st, BlockFrom(items, k, st).1, BlockIds(BlockFrom(items, k, st).0.value)) &&
      UnlabelBlock(BlockFrom(items, k, st).0.value) == items[k..]
    decreases items, |items| - k
  {
    if k < |items| {
      ItemBalanced(items[k], st);
      var (r, s1) := ItemAt(items[k], st);
      if r.Ok? {
        BlockBalanced(items, k + 1, s1);
        var (rest, s2) := BlockFrom(items, k + 1, s1);
        if rest.Ok? {
          var out := [r.value] + rest.value;
          assert out[1..] == rest.value;
          assert items[k..] == [items[k]] + items[k + 1..];
          RangeSplit(st.nextId, s1.nextId, s2.nextId);
        }
      }
    }
  }

  // ---------------------------------------------------------------
  // Where `break` and `continue` go
  // ---------------------------------------------------------------

  /** The innermost enclosing loop: the top of the stack. */
  function Top(stack: seq<C.LoopId>): Option<C.LoopId> {
    if |stack| == 0 then None else Some(stack[|stack| - 1])
  }

  /** A `break` or `continue` outside every loop of `s`. */
  predicate FreeJump(s: U.Statement)
    decreases s
  {
    match s
    case Break => true
    case Continue => true
    case If(_, t, e) => FreeJump(t) || (e.Some? && FreeJump(e.value))
    case Compound(b) => exists i :: 0 <= i < |b.blocks| && FreeJumpItem(b.blocks[i])
    case _ => false
  }

  predicate FreeJumpItem(item: U.BlockItem)
    decreases item
  {
    item.S? && FreeJump(item.stmt)
  }

  /**
   * Every `break`/`continue` targets its innermost enclosing loop, or
   * `innermost` when no loop of `s` encloses it.
   */
  predicate JumpsTarget(s: C.Statement, innermost: Option<C.LoopId>)
    decreases s
  {
    match s
    case Break(t) => innermost == Some(t)
    case Continue(t) => innermost == Some(t)
    case While(_, body, id) => JumpsTarget(body, Some(id))
    case DoWhile(body, _, id) => JumpsTarget(body, Some(id))
    case For(init, _, _, body, id) =>
      (init.Some? ==> ItemJumpsTarget(init.value, Some(id))) && JumpsTarget(body, Some(id))
    case If(_, t, e) => JumpsTarget(t, innermost) && (e.Some? ==> JumpsTarget(e.value, innermost))
    case Compound(b) => forall i :: 0 <= i < |b.blocks| ==> ItemJumpsTarget(b.blocks[i], innermost)
    case _ => true
  }

  predicate ItemJumpsTarget(item: C.BlockItem, innermost: Option<C.LoopId>)
    decreases item
  {
    item.S? ==> JumpsTarget(item.stmt, innermost)
  }

  /**
   * Labelling fails exactly when a `break` or `continue` lies outside
   * every loop, with one of the two messages; on success every jump
   * targets its innermost enclosing loop.
   */
  lemma {:induction false} StmtJumps(s: U.Statement, st: LabelState)
    ensures StmtAt(s, st).0.Ok? <==> |st.stack| > 0 || !FreeJump(s)
    ensures StmtAt(s, st).0.Err? ==> StmtAt(s, st).0.msg in {BreakOutsideMsg, ContinueOutsideMsg}
    ensures StmtAt(s, st).0.Ok? ==> JumpsTarget(StmtAt(s, st).0.value, Top(st.stack))
    decreases s, 1
  {
    match s {
      case For(init, condition, post, body) =>
        var s0 := Enter(st);
        if init.Some? {
          ItemJumps(init.value, s0);
          ItemBalanced(init.value, s0);
        }
        var (i, s1) := if init.Some? then ItemAt(init.value, s0) else (Ok(C.S(C.Empty)), s0);
        if i.Ok? {
          StmtJumps(body, s1);
        }
      case While(condition, body) =>
        StmtJumps(body, Enter(st));
      case DoWhile(body, condition) =>
        StmtJumps(body, Enter(st));
      case Break =>
      case Continue =>
      case Return(_) =>
      case Expression(_) =>
      case Empty =>
      case Compound(b) =>
        BlockJumps(b.blocks, 0, st);
        var r := BlockFrom(b.blocks, 0, st).0;
        if r.Ok? {
          forall i | 0 <= i < |r.value|
            ensures ItemJumpsTarget(r.value[i], Top(st.stack))
          {
          }
        }
      case If(condition, thenStat, elseStat) =>
        StmtJumps(thenStat, st);
        StmtBalanced(thenStat, st);
        var (t, s1) := StmtAt(thenStat, st);
        if t.Ok? && elseStat.Some? {
          StmtJumps(elseStat.value, s1);
        }
    }
  }

  lemma {:induction false} ItemJumps(item: U.BlockItem, st: LabelState)
    ensures ItemAt(item, st).0.Ok? <==> |st.stack| > 0 || !FreeJumpItem(item)
    ensures ItemAt(item, st).0.Err? ==> ItemAt(item, st).0.msg in {BreakOutsideMsg, ContinueOutsideMsg}
    ensures ItemAt(item, st).0.Ok? ==> ItemJumpsTarget(ItemAt(item, st).0.value, Top(st.stack))
    decreases item
  {
    match item {
      case S(s) => StmtJumps(s, st);
      case D(_) =>
    }
  }

  lemma {:induction false} BlockJumps(items: seq<U.BlockItem>, k: nat, st: LabelState)
    requires k <= |items|
    ensures BlockFrom(items, k, st).0.Ok? <==>
      |st.stack| > 0 || forall i :: k <= i < |items| ==> !FreeJumpItem(items[i])
    ensures BlockFrom(items, k, st).0.Err? ==> BlockFrom(items, k, st).0.msg in {BreakOutsideMsg, ContinueOutsideMsg}
    ensures BlockFrom(items, k, st).0.Ok? ==>
      forall i :: 0 <= i < |BlockFrom(items, k, st).0.value| ==>
        ItemJumpsTarget(BlockFrom(items, k, st).0.value[i], Top(st.stack))
    decreases items, |items| - k
  {
    if k < |items| {
      ItemJumps(items[k], st);
      ItemBalanced(items[k], st);
      var (r, s1) := ItemAt(items[k], st);
      if r.Ok? {
        BlockJumps(items, k + 1, s1);
        var rest := BlockFrom(items, k + 1, s1).0;
        if rest.Ok? {
          var out := [r.value] + rest.value;
          forall i | 0 <= i < |out|
            ensures ItemJumpsTarget(out[i], Top(st.stack))
          {
            if i > 0 {
              assert out[i] == rest.value[i - 1];
            }
          }
        }
      }
    }
  }

  /** Jumps that target their innermost loop satisfy the checked tree's labelling invariant. */
  lemma {:induction false} TargetsAreEnclosing(s: C.Statement, innermost: Option<C.LoopId>, enclosing: set<C.LoopId>)
    requires JumpsTarget(s, innermost)
    requires innermost.Some? ==> innermost.value in enclosing
    ensures C.WellLabeled(s, enclosing)
    decreases s
  {
    match s {
      case While(_, body, id) => TargetsAreEnclosing(body, Some(id), enclosing + {id});
      case DoWhile(body, _, id) => TargetsAreEnclosing(body, Some(id), enclosing + {id});
      case For(init, _, _, body, id) =>
        if init.Some? && init.value.S? {
          TargetsAreEnclosing(init.value.stmt, Some(id), enclosing + {id});
        }
        TargetsAreEnclosing(body, Some(id), enclosing + {id});
      case If(_, t, e) =>
        TargetsAreEnclosing(t, innermost, enclosing);
        if e.Some? {
          TargetsAreEnclosing(e.value, innermost, enclosing);
        }
      case Compound(b) =>
        forall i | 0 <= i < |b.blocks|
          ensures C.WellLabeledItem(b.blocks[i], enclosing)
        {
          if b.blocks[i].S? {
            TargetsAreEnclosing(b.blocks[i].stmt, innermost, enclosing);
          }
        }
      case _ =>
    }
  }

  /**
   * A labelled program: its loops are numbered 0, 1, 2, ... in pre-order
   * from a fresh generator, every jump names an enclosing loop, and
   * dropping the ids gives back the input.
   */
  lemma ProgramLabelled(p: U.Program)
    ensures var (r, st) := ProgramAt(p, LabelState([], 0));
      r.Ok? ==>
        st.stack == [] &&
        BlockIds(r.value.func.body.blocks) == Range(0, st.nextId) &&
        C.WellLabeledBlock(r.value.func.body, {}) &&
        UnlabelBlock(r.value.func.body.blocks) == p.func.body.blocks &&
        r.value.func.name == p.func.name
  {
    var st := LabelState([], 0);
    BlockBalanced(p.func.body.blocks, 0, st);
    BlockJumps(p.func.body.blocks, 0, st);
    assert p.func.body.blocks[0..] == p.func.body.blocks;
    var r := BlockFrom(p.func.body.blocks, 0, st).0;
    if r.Ok? {
      forall i | 0 <= i < |r.value|
        ensures C.WellLabeledItem(r.value[i], {})
      {
        if r.value[i].S? {
          TargetsAreEnclosing(r.value[i].stmt, None, {});
        }
      }
    }
  }

  /**
   * The nested example: `while (1) { for (;;) { if (1) continue; break; } break; } return 0;`
   * numbers the `while` 0 and the `for` 1; the inner jumps target 1 and the
   * outer `break` targets 0.
   */
  lemma NestedLoopsExample()
    ensures var forBody := U.Compound(U.Block([U.S(U.If(U.Constant(1), U.Continue, None)), U.S(U.Break)]));
      var whileBody := U.Compound(U.Block([U.S(U.For(None, None, None, forBody)), U.S(U.Break)]));
      var p := U.Program(U.Function("main", U.Block([U.S(U.While(U.Constant(1), whileBody)), U.S(U.Return(U.Constant(0)))])));
      var checkedFor := C.Compound(C.Block([C.S(C.If(U.Constant(1), C.Continue(1), None)), C.S(C.Break(1))]));
      var checkedWhile := C.Compound(C.Block([C.S(C.For(None, None, None, checkedFor, 1)), C.S(C.Break(0))]));
      ProgramAt(p, LabelState([], 0)).0
        == Ok(C.Program(C.Function("main", C.Block([C.S(C.While(U.Constant(1), checkedWhile, 0)),
                                                     C.S(C.Return(U.Constant(0)))]))))
  {
    var forItems := [U.S(U.If(U.Constant(1), U.Continue, None)), U.S(U.Break)];
    var inFor := LabelState([0, 1], 2);
    assert inFor.stack[|inFor.stack| - 1] == 1;
    assert ItemAt(forItems[1], inFor) == (Ok(C.S(C.Break(1))), inFor);
    assert ItemAt(forItems[0], inFor) == (Ok(C.S(C.If(U.Constant(1), C.Continue(1), None))), inFor);
    assert BlockFrom(forItems, 2, inFor) == (Ok([]), inFor);
    assert [C.S(C.Break(1))] + [] == [C.S(C.Break(1))];
    assert BlockFrom(forItems, 1, inFor) == (Ok([C.S(C.Break(1))]), inFor);
    assert [C.S(C.If(U.Constant(1), C.Continue(1), None))] + [C.S(C.Break(1))]
      == [C.S(C.If(U.Constant(1), C.Continue(1), None)), C.S(C.Break(1))];
    assert BlockFrom(forItems, 0, inFor)
      == (Ok([C.S(C.If(U.Constant(1), C.Continue(1), None)), C.S(C.Break(1))]), inFor);
    var forBody := U.Compound(U.Block(forItems));
    var checkedFor := C.Compound(C.Block([C.S(C.If(U.Constant(1), C.Continue(1), None)), C.S(C.Break(1))]));
    assert StmtAt(forBody, inFor) == (Ok(checkedFor), inFor);
    var whileItems := [U.S(U.For(None, None, None, forBody)), U.S(U.Break)];
    var inWhile := LabelState([0], 2);
    assert Enter(LabelState([0], 1)) == inFor;
    assert StmtAt(U.For(None, None, None, forBody), LabelState([0], 1))
      == (Ok(C.For(None, None, None, checkedFor, 1)), inWhile);
    assert ItemAt(whileItems[0], LabelState([0], 1)) == (Ok(C.S(C.For(None, None, None, checkedFor, 1))), inWhile);
    assert ItemAt(whileItems[1], inWhile) == (Ok(C.S(C.Break(0))), inWhile);
    assert BlockFrom(whileItems, 2, inWhile) == (Ok([]), inWhile);
    assert [C.S(C.Break(0))] + [] == [C.S(C.Break(0))];
    assert BlockFrom(whileItems, 1, inWhile) == (Ok([C.S(C.Break(0))]), inWhile);
    var checkedWhile := C.Compound(C.Block([C.S(C.For(None, None, None, checkedFor, 1)), C.S(C.Break(0))]));
    assert [C.S(C.For(None, None, None, checkedFor, 1))] + [C.S(C.Break(0))] == checkedWhile.block.blocks;
    assert BlockFrom(whileItems, 0, LabelState([0], 1)) == (Ok(checkedWhile.block.blocks), inWhile);
    var whileBody := U.Compound(U.Block(whileItems));
    assert StmtAt(whileBody, LabelState([0], 1)) == (Ok(checkedWhile), inWhile);
    var top := [U.S(U.While(U.Constant(1), whileBody)), U.S(U.Return(U.Constant(0)))];
    var after := LabelState([], 2);
    assert Enter(LabelState([], 0)) == LabelState([0], 1);
    assert StmtAt(U.While(U.Constant(1), whileBody), LabelState([], 0))
      == (Ok(C.While(U.Constant(1), checkedWhile, 0)), after);
    assert ItemAt(top[0], LabelState([], 0)) == (Ok(C.S(C.While(U.Constant(1), checkedWhile, 0))), after);
    assert ItemAt(top[1], after) == (Ok(C.S(C.Return(U.Constant(0)))), after);
    assert BlockFrom(top, 2, after) == (Ok([]), after);
    assert [C.S(C.Return(U.Constant(0)))] + [] == [C.S(C.Return(U.Constant(0)))];
    assert BlockFrom(top, 1, after) == (Ok([C.S(C.Return(U.Constant(0)))]), after);
    assert [C.S(C.While(U.Constant(1), checkedWhile, 0))] + [C.S(C.Return(U.Constant(0)))]
      == [C.S(C.While(U.Constant(1), checkedWhile, 0)), C.S(C.Return(U.Constant(0)))];
    assert BlockFrom(top, 0, LabelState([], 0))
      == (Ok([C.S(C.While(U.Constant(1), checkedWhile, 0)), C.S(C.Return(U.Constant(0)))]), after);
  }

  /** `int main(void) { break; }` fails with the exact message. */
  lemma BreakOutsideExample()
    ensures ProgramAt(U.Program(U.Function("main", U.Block([U.S(U.Break)]))), LabelState([], 0)).0
      == Err(BreakOutsideMsg)
  {
    assert BlockFrom([U.S(U.Break)], 0, LabelState([], 0)).0 == Err(BreakOutsideMsg);
  }
}
