# A verified model of a small C-subset compiler

This project models, in Dafny, the compiler pipeline of a small Rust compiler
for a subset of C, and proves properties of each stage. The pipeline is:

1. **Lexer.** Turns characters into tokens. It skips whitespace and `#` lines, counts lines, uses maximal munch for two-character operators, and rejects malformed numbers.
2. **Parser.** A cursor-based parser for `int f(void) { return <int>; }`.
3. **Early code generator and emitter.** Select `mov`/`ret` for that program and print it as assembler text.
4. **Variable resolver.** Renames every declaration to `name.id` through one flat map, and rejects duplicates, undeclared uses and bad assignment targets.
5. **Type checker.** Keeps a flat symbol table of `Int` / `Function(arity)` entries with a *defined* flag.
6. **Loop labeler.** Gives each loop a fresh id and points every `break`/`continue` at the innermost enclosing loop.
7. **TACKY lowering.** Lowers the checked tree to three-address code (TACKY), with short-circuit `&&`/`||`, `?:`, if/else and loop layouts, and an implicit `return 0`.
8. **Assembly generation**, in three passes:
   - instruction selection over pseudo-registers;
   - stack-slot assignment;
   - fix-ups through the scratch registers R10 and R11, plus a 16-byte-aligned `AllocateStack`.
9. **Back-end emitter.** Prints the final assembly with a `%rbp` frame.

Every stage is a deterministic function of its input and an explicit counter.

## How the model is written

**Stateful stages.** Each stage that updates state in the source is a `class` with the source's fields:
- the id generator's `counter`;
- the lexer's position and `line`;
- the parser's `position`;
- the resolver's `variableMap`;
- the type checker's `symbols`;
- the labeler's `loopIdStack`;
- the lowering's `labelCounter`.

**Methods against functions.** Each method is proved equal to a function that threads the same state explicitly. For example, `TypeChecking.TypeChecker.CheckDeclaration` ensures `(r, symbols) == DeclAt(decl, old(symbols))`. The lemmas then state what those functions guarantee.

**Pure stages.** Pure code is written as functions: the operand formatters, instruction selection for one TACKY instruction, and the early code generator.

**Per-module datatypes.** The source is in the middle of a refactor, and its files disagree on datatype shapes. Each module therefore declares the datatypes that its source file actually matches on:
- `ast.dfy` holds the unchecked and checked trees of `src/ast.rs`.
- `tacky.dfy` holds `src/ir/tacky.rs`.
- `assembly.dfy` holds the union of the instructions that `src/ir/assembly.rs`, `src/backend/asm_gen.rs` and `src/backend/emitter.rs` use.
- `parser.dfy` holds the parser's own `return <int>` tree.
- `type_checker.dfy` holds the tree with function declarations and calls that `src/semantics/type_checker.rs` matches on.

## Model

| member | source | states |
|---|---|---|
| Common.UniqueIdGenerator.constructor | src/common.rs:7-9 | a fresh generator's counter is 0, so its first id is 0 |
| Common.UniqueIdGenerator.Next | src/common.rs:11-15 | returns the counter's value before the call and increases the counter by exactly one, so successive ids are strictly increasing and pairwise distinct |
| Common.NatToStringRoundTrip | src/semantics/validator.rs:40 | the decimal rendering of an id reads back as the same number |
| Common.NatToStringInjective | src/semantics/validator.rs:40 | different ids render as different decimal strings |
| Common.DottedNameInjective | src/semantics/validator.rs:37-41 | `name.id` determines both the name and the id, so two renamings collide only if both name and id are equal |
| Common.IntToStringInjective | src/emitter.rs:57 | different integers render as different signed decimal strings |
| Lexer.KeywordOrIdentifier | src/lexer.rs:83-95 | a word is an `Identifier` carrying exactly its text iff it is not one of the ten keywords; each keyword maps to the token `KeywordTable` lists for it |
| Lexer.WordEnd | src/lexer.rs:75-82 | the identifier scan stops at the first character that is not alphanumeric or `_`, having consumed only such characters (maximal run) |
| Lexer.DigitsEnd | src/lexer.rs:101-108 | the number scan consumes the maximal run of decimal digits |
| Lexer.SkipTrivia | src/lexer.rs:142-169 | skipping stops at end of input or at a character that is not blank, newline or `#` |
| Lexer.SkipTriviaCountsNewlines | src/lexer.rs:142-169 | after skipping, `line` grew by exactly the number of newlines skipped; a `#` line is skipped up to its newline, which is still counted |
| Lexer.ScanCountsLines | src/lexer.rs:140-315 | one token step never moves backwards, adds exactly the newlines it passed to `line`, and stamps its token with the current line |
| Lexer.ScanProgress | src/lexer.rs:140-315 | a step that yields a token consumes at least one character |
| Lexer.TwoCharOperators | src/lexer.rs:228-296 | `--`, `!=`, `<=`, `>=` and `==` are each lexed as one two-character token (maximal munch) |
| Lexer.OneCharOperators | src/lexer.rs:228-296 | `!`, `<`, `>`, `=` not followed by `=`, and `-` not followed by `-`, are one-character tokens |
| Lexer.UnrecognizedCharacters | src/lexer.rs:237-304 | a lone ampersand or vertical bar is an "Unrecognized character" error after consuming it; any other unknown character is the same error without consuming it |
| Lexer.IntegerConstants | src/lexer.rs:99-133 | digits followed by a letter give "Invalid token" carrying the whole alphanumeric run; otherwise the digit run is an `IntegerConstant` of its value if it fits in i32, and "Failed to parse number" if not |
| Lexer.BlankInputEnds | src/lexer.rs:172 | when only blanks and newlines remain, the lexer yields no token, stands at the end and has counted every newline |
| Lexer.LexAllLinesAscend | src/lexer.rs:308-314 | the tokens of a successful lex carry line numbers that never decrease and start at the initial line |
| Lexer.Lexer.constructor | src/lexer.rs:65-70 | a new lexer is at the start of the source on line 1 |
| Lexer.Lexer.LexIdentifierOrKeyword | src/lexer.rs:73-96 | consumes exactly the maximal word and returns its keyword or identifier token |
| Lexer.Lexer.LexIntegerConstant | src/lexer.rs:99-133 | consumes and returns what the number rules (`LexNumber`) prescribe, with the error cases |
| Lexer.Lexer.SkipTriviaLoop | src/lexer.rs:142-169 | the skip loop ends at the position and line `SkipTrivia` computes |
| Lexer.Lexer.LexToken | src/lexer.rs:175-305 | the character dispatch returns the token or error, and the new position, of one scan step |
| Lexer.Lexer.NextToken | src/lexer.rs:140-315 | returns the token of one step (none at end of input), leaving position and line as that step prescribes |
| Lexer.Lexer.CollectTokens | src/lexer.rs:322-324 | draining the iterator gives all tokens up to end of input, or the first error |
| Parser.ExpectTokenAt | src/parser.rs:77-89 | succeeds iff the current token has the expected type, then returns it and advances by one; on failure the position is unchanged |
| Parser.ExpectIdentifierAt | src/parser.rs:92-107 | succeeds iff the current token is an identifier, returning its name and advancing by one; otherwise it fails without advancing |
| Parser.ExpectIntegerConstantAt | src/parser.rs:110-124 | succeeds iff the current token is an integer constant, returning its value and advancing by one; otherwise it fails without advancing |
| Parser.ParseFunctionShape | src/parser.rs:130-158 | a function parses iff the first ten tokens are `int Id ( void ) { return Int ; }`, yielding that name and constant and stopping after them |
| Parser.ParseAcceptsExactly | src/parser.rs:47-58 | `parse` succeeds exactly on that ten-token sequence, returns its name and constant, and ends with the position at the end of the tokens |
| Parser.TrailingTokensRejected | src/parser.rs:51-56 | any token after the function gives "Unexpected token … on line …" for the eleventh token |
| Parser.Parser.constructor | src/parser.rs:39-44 | a new parser starts at position 0 |
| Parser.Parser.Peek | src/parser.rs:63-65 | yields the token at the position iff the position is inside the token list |
| Parser.Parser.Consume | src/parser.rs:68-74 | returns the peeked token and advances by one iff a token exists there, so the position never passes the end |
| Parser.Parser.ExpectToken | src/parser.rs:77-89 | result and new position are those of `ExpectTokenAt` |
| Parser.Parser.ExpectIdentifier | src/parser.rs:92-107 | result and new position are those of `ExpectIdentifierAt` |
| Parser.Parser.ExpectIntegerConstant | src/parser.rs:110-124 | result and new position are those of `ExpectIntegerConstantAt` |
| Parser.Parser.ParseExpression | src/parser.rs:155-158 | parses one integer constant as the expression |
| Parser.Parser.ParseStatement | src/parser.rs:145-151 | parses `return <expr> ;` |
| Parser.Parser.ParseFunction | src/parser.rs:130-141 | parses the function header and body token by token |
| Parser.Parser.Parse | src/parser.rs:47-58 | parses a function and rejects leftover tokens |
| CodeGen.GenerateFunction | src/codegen.rs:56-83 | never fails, keeps the function name, and yields exactly `[Mov Imm(i)→EAX, Ret]` for `return i` |
| CodeGen.Generate | src/codegen.rs:49-53 | the program wraps exactly the one generated function and never fails |
| CodeGen.ParseThenGenerate | src/codegen.rs:49-83 | for every accepted token sequence, parsing then generating yields `[Mov Imm(i)→EAX, Ret]` under the token's name |
| Emitter.SymbolName | src/emitter.rs:18-21 | the global symbol is `_name` on macOS and `name` elsewhere |
| Emitter.FormatOperand | src/emitter.rs:55-62 | an immediate prints as `$` followed by its decimal value, and only immediates start with `$` (`EAX` is `%eax`) |
| Emitter.FormatOperandInjective | src/emitter.rs:55-62 | different operands print differently |
| Emitter.Lines | src/emitter.rs:30-45 | one text line per instruction, in instruction order |
| Emitter.InstructionsInOrder | src/emitter.rs:30-45 | the text of instruction k sits between the text of the instructions before it and after it |
| Emitter.EmitLineCount | src/emitter.rs:13-52 | the output has `.globl`, the label, one line per instruction, and one more line (the GNU-stack note) only on Linux |
| Emitter.EmitAssembly | src/emitter.rs:13-52 | the appending loop produces exactly the specified text |
| Validation.Validator.constructor | src/semantics/validator.rs:21-26 | a new resolver starts with an empty variable map |
| Validation.Validator.GenerateUniqueName | src/semantics/validator.rs:37-41 | returns `name.id` with the generator's next id and advances the generator by one |
| Validation.Validator.ValidateDeclaration | src/semantics/validator.rs:70-94 | result, map and generator after a declaration are those of `DeclAt` |
| Validation.Validator.ValidateBlockItem | src/semantics/validator.rs:57-68 | result and state after one block item are those of `ItemAt` |
| Validation.Validator.ValidateFunction | src/semantics/validator.rs:43-55 | items are resolved in order and the first error aborts, as `FunctionAt` specifies |
| Validation.Validator.ValidateProgram | src/semantics/validator.rs:29-34 | resolves the program's one function, as `ProgramAt` specifies |
| Validation.ResolveStmt | src/semantics/validator.rs:97-146 | a resolved statement stays within the handled statement forms |
| Validation.ResolveExprSucceeds | src/semantics/validator.rs:148-213 | an expression resolves iff all its variables are mapped and every assignment target is a variable |
| Validation.ResolveExprShape | src/semantics/validator.rs:150-211 | a resolved expression keeps shape, constants and operators, and its variables are exactly the mapped names of the original's |
| Validation.ResolveExprRenames | src/semantics/validator.rs:150-211 | a successful resolution is `Rename`: each variable use, at its own position, becomes the unique name the map holds for it; and resolution succeeds with exactly that renaming whenever every name is mapped and every target is a variable |
| Validation.AssignTargetCheckedFirst | src/semantics/validator.rs:160-163 | a non-variable assignment target fails with "Invalid l-value" before either side is resolved |
| Validation.ResolveStmtSucceeds | src/semantics/validator.rs:97-146 | a statement resolves iff all its variables are mapped and its assignment targets are variables |
| Validation.ResolveStmtShape | src/semantics/validator.rs:99-141 | a resolved statement differs from the original only in variable names |
| Validation.ResolveStmtRenames | src/semantics/validator.rs:99-141 | a successful statement resolution renames every expression in place (`RenameStmt`), and succeeds with that renaming whenever names are mapped and targets are variables |
| Validation.DeclarationRenames | src/semantics/validator.rs:79-93 | a new declaration binds its name to `name.id` before the initializer is resolved; without an initializer the result is `name.id` alone, and a successful initializer is its renaming under the extended map, so in `int a = a;` the right-hand `a` is the new name |
| Validation.DeclKeepsNamesUnique | src/semantics/validator.rs:72-82 | after a declaration, the unique names in the map are still pairwise different and each is its source name plus an id already handed out |
| Validation.ItemsKeepNamesUnique | src/semantics/validator.rs:43-55 | resolving any run of block items keeps the unique names pairwise different |
| Validation.ItemsGrowMap | src/semantics/validator.rs:15 | the flat map is never popped: names bound before a run of items are still bound after it |
| Validation.ItemsFromOk | src/semantics/validator.rs:43-68 | on success each output item has the input item's shape, and no source name is declared twice or declared when already bound |
| Validation.RedeclarationFails | src/semantics/validator.rs:72-77 | two declarations of the same name anywhere in one function body make the pass fail |
| Validation.FunctionShape | src/semantics/validator.rs:43-55 | a resolved function keeps its name and its body's shape |
| TypeChecking.TypeChecker.constructor | src/semantics/type_checker.rs:33-38 | a new checker starts with an empty symbol table |
| TypeChecking.TypeChecker.CheckProgram | src/semantics/type_checker.rs:42-50 | declarations are checked in order and the first error aborts, as `DeclsFrom` specifies |
| TypeChecking.TypeChecker.CheckDeclaration | src/semantics/type_checker.rs:53-121 | result and table after a function or variable declaration are those of `DeclAt`: entry recorded, parameters inserted, body checked, parameters removed |
| TypeChecking.TypeChecker.CheckBlock | src/semantics/type_checker.rs:127-132 | items are checked in order, as `BlockFrom` specifies |
| TypeChecking.TypeChecker.CheckBlockItem | src/semantics/type_checker.rs:135-140 | a block item is checked as its statement or declaration |
| TypeChecking.TypeChecker.CheckStatement | src/semantics/type_checker.rs:143-187 | result and table after a statement are those of `StmtAt` |
| TypeChecking.TypeChecker.CheckFor | src/semantics/type_checker.rs:159-175 | a `for` checks init, condition, post and body in that order, stopping at the first error |
| TypeChecking.TypeChecker.CheckExpression | src/semantics/type_checker.rs:190-260 | the verdict on an expression is `CheckExpr` with arguments checked left to right |
| TypeChecking.CheckExprAccepts | src/semantics/type_checker.rs:190-260 | an expression is accepted iff it is well typed: variables name `Int` symbols, and calls name functions of matching arity with well-typed arguments |
| TypeChecking.ArgsFromAccepts | src/semantics/type_checker.rs:228-231 | the argument loop accepts iff every remaining argument is well typed |
| TypeChecking.NameErrors | src/semantics/type_checker.rs:193-227 | an unknown name gives the "Internal error: undeclared identifier" message; a function used as a variable, a variable called, or a call with the wrong argument count gives its own message |
| TypeChecking.FirstBadArgument | src/semantics/type_checker.rs:228-231 | a call with the right arity reports the error of its first ill-typed argument |
| TypeChecking.WithParamsShape | src/semantics/type_checker.rs:89-92 | during the body check every parameter is an `Int` entry and every other entry is as before |
| TypeChecking.WithoutParamsShape | src/semantics/type_checker.rs:99-104 | after the body, parameters are removed, including any earlier entry with the same name, and the rest is kept |
| TypeChecking.RedeclarationRules | src/semantics/type_checker.rs:60-87 | an incompatible redeclaration fails and leaves the table unchanged; a second body fails as "defined more than once"; a compatible prototype succeeds and keeps the defined flag |
| TypeChecking.ParamVars | src/semantics/type_checker.rs:89-92 | lists one variable use per parameter, in order |
| TypeChecking.RecursiveCallAccepted | src/semantics/type_checker.rs:76-99 | the entry is recorded before the body is checked, so a function whose body calls itself with its own parameters is accepted |
| TypeChecking.DefinitionChecksBody | src/semantics/type_checker.rs:76-104 | a definition's verdict is the verdict on its body, checked with the function recorded and its parameters bound as `Int` |
| TypeChecking.ParamsRemoved | src/semantics/type_checker.rs:99-104 | after a successful definition no parameter name remains in the table |
| TypeChecking.VariableBinds | src/semantics/type_checker.rs:107-120 | a variable declaration inserts or overwrites an `Int` entry and is accepted iff its initializer checks under that entry |
| TypeChecking.DeclFrame | src/semantics/type_checker.rs:53-121 | a declaration changes no entry except its own name and its parameters |
| TypeChecking.StmtFrame | src/semantics/type_checker.rs:143-187 | a statement changes no entry except the names declared inside it |
| TypeChecking.ItemFrame | src/semantics/type_checker.rs:135-140 | a block item changes no entry except the names it declares |
| TypeChecking.BlockFrame | src/semantics/type_checker.rs:127-132 | a block changes no entry except the names declared in it |
| TypeChecking.DefinitionRecorded | src/semantics/type_checker.rs:76-87 | after a successful definition the function's entry is `Function(arity)`, marked defined |
| TypeChecking.SecondDefinitionRejected | src/semantics/type_checker.rs:68-74 | defining the same function twice fails with "defined more than once" |
| TypeChecking.PrototypeThenDefinition | src/semantics/type_checker.rs:55-87 | a prototype followed by a definition of the same arity is checked as the definition alone |
| TypeChecking.TrivialStatements | src/semantics/type_checker.rs:185 | `;`, `break` and `continue` always succeed and change nothing |
| TypeChecking.NoDeclarationsNoChange | src/semantics/type_checker.rs:143-187 | a statement that declares nothing leaves the symbol table unchanged |
| LoopLabeling.LoopLabeler.LabelProgram | src/semantics/loop_labeler.rs:22-25 | result, stack and generator are those of `ProgramAt` |
| LoopLabeling.LoopLabeler.LabelFunction | src/semantics/loop_labeler.rs:27-33 | labels the body and keeps the name, as `FunctionAt` specifies |
| LoopLabeling.LoopLabeler.LabelBlock | src/semantics/loop_labeler.rs:35-41 | items are labelled in order and the first error aborts, as `BlockFrom` specifies |
| LoopLabeling.LoopLabeler.LabelBlockItem | src/semantics/loop_labeler.rs:43-52 | declarations pass through and statements are labelled, as `ItemAt` specifies |
| LoopLabeling.LoopLabeler.LabelStatement | src/semantics/loop_labeler.rs:55-150 | result, stack and generator after a statement are those of `StmtAt` |
| LoopLabeling.StmtBalanced | src/semantics/loop_labeler.rs:61-108 | on success the stack is as before, the statement's loop ids are consecutive fresh ids in pre-order, and dropping ids gives back the input |
| LoopLabeling.ForBalanced | src/semantics/loop_labeler.rs:61-86 | a `for` takes its id before labelling its init item and body (both under its id) and pops afterwards |
| LoopLabeling.WhileBalanced | src/semantics/loop_labeler.rs:87-97 | a `while` takes its id before its body and restores the stack |
| LoopLabeling.DoWhileBalanced | src/semantics/loop_labeler.rs:98-108 | a `do`-`while` takes its id before its body and restores the stack |
| LoopLabeling.IfBalanced | src/semantics/loop_labeler.rs:133-148 | an `if` labels then and else in order, and on success is balanced |
| LoopLabeling.ItemBalanced | src/semantics/loop_labeler.rs:43-52 | a labelled block item is balanced and unchanged apart from ids |
| LoopLabeling.BlockBalanced | src/semantics/loop_labeler.rs:35-41 | a labelled block is balanced and unchanged apart from ids |
| LoopLabeling.StmtJumps | src/semantics/loop_labeler.rs:111-124 | labelling succeeds iff the stack is non-empty or the statement has no `break`/`continue` outside its loops; failures carry exactly the two "not in a loop" messages; every jump targets the innermost enclosing loop |
| LoopLabeling.ItemJumps | src/semantics/loop_labeler.rs:43-52 | the same for a block item |
| LoopLabeling.BlockJumps | src/semantics/loop_labeler.rs:35-41 | the same for a block |
| LoopLabeling.TargetsAreEnclosing | src/semantics/loop_labeler.rs:111-124 | a tree whose jumps target their innermost loop is well labelled: every jump id names an enclosing loop |
| LoopLabeling.ProgramLabelled | src/semantics/loop_labeler.rs:22-41 | from a fresh generator, a labelled program uses ids 0, 1, … in pre-order, leaves the stack empty, has only jumps to enclosing loops, and is the input once the ids are dropped |
| LoopLabeling.NestedLoopsExample | src/semantics/loop_labeler.rs:209-302 | in the nested while/for example the loops get ids 0 and 1, inner `continue`/`break` target 1, and the outer `break` targets 0 |
| LoopLabeling.BreakOutsideExample | src/semantics/loop_labeler.rs:304-325 | `break` outside any loop fails with "'break' statement not in a loop" |
| TackyGen.LabelNameInjective | src/backend/tacky_gen.rs:36-44 | `_prefix_n` determines prefix and number, so labels from different counters or prefixes differ |
| TackyGen.TempIsNotLabel | src/backend/tacky_gen.rs:28-40 | a temporary `tmp.id` never equals a label |
| TackyGen.ConvertBinaryop | src/backend/tacky_gen.rs:57-80 | fails exactly on logical and and logical or, with the fixed message |
| TackyGen.ConvertOneToOne | src/backend/tacky_gen.rs:47-80 | the unary and the accepted binary operator mappings are one-to-one |
| TackyGen.WithImplicitReturn | src/backend/tacky_gen.rs:537-539 | the body ends in `Return`; `Return(Constant 0)` is appended iff the last instruction was not a `Return`, and nothing else changes |
| TackyGen.ExprPrepend | src/backend/tacky_gen.rs:93-307 | lowering an expression does not depend on the instructions already emitted |
| TackyGen.StmtPrepend | src/backend/tacky_gen.rs:340-526 | lowering a statement does not depend on the instructions already emitted |
| TackyGen.ExprAdvances | src/backend/tacky_gen.rs:93-307 | lowering only appends and never lowers a counter; unary, binary and conditional results are fresh temporaries |
| TackyGen.StmtAdvances | src/backend/tacky_gen.rs:340-526 | lowering a statement only appends and never lowers a counter |
| TackyGen.ExprAppends | src/backend/tacky_gen.rs:84 | an expression's effect is to append its own code to whatever was there |
| TackyGen.StmtAppends | src/backend/tacky_gen.rs:84 | a statement's effect is to append its own code to whatever was there |
| TackyGen.AndLayout | src/backend/tacky_gen.rs:146-189 | `&&` emits e1, JumpIfZero→false, e2, JumpIfZero→false, Copy 1, Jump end, Label false, Copy 0, Label end |
| TackyGen.OrLayout | src/backend/tacky_gen.rs:194-235 | logical or emits e1, JumpIfNotZero→true, e2, JumpIfNotZero→true, Copy 0, Jump end, Label true, Copy 1, Label end |
| TackyGen.ShortCircuitLayout | src/backend/tacky_gen.rs:146-235 | both short-circuit forms return a fresh temporary and use two distinct labels |
| TackyGen.ConditionalLayout | src/backend/tacky_gen.rs:262-306 | `?:` emits condition, JumpIfZero→else, then, Copy, Jump end, Label else, else, Copy, Label end, into one fresh result temporary, with distinct labels |
| TackyGen.AssignLayout | src/backend/tacky_gen.rs:101-120 | assignment emits the right-hand code, then `Copy rhs→var`, and yields the right-hand value |
| TackyGen.AssignToNonVariable | src/backend/tacky_gen.rs:114-118 | a non-variable target gives "Invalid left-hand side in assignment." |
| TackyGen.WhileLayout | src/backend/tacky_gen.rs:457-482 | `while` emits Label continue_id, condition, JumpIfZero→break_id, body, Jump continue_id, Label break_id |
| TackyGen.DoWhileLayout | src/backend/tacky_gen.rs:432-456 | `do`-`while` emits Label start_id, body, Label continue_id, condition, JumpIfNotZero→start_id, Label break_id |
| TackyGen.ForLayout | src/backend/tacky_gen.rs:483-500 | `for` emits its init code, then Label start_id, then the loop test and body |
| TackyGen.ForTestLayout | src/backend/tacky_gen.rs:502-508 | without a condition no test is emitted; with one, its code is followed by JumpIfZero→break_id |
| TackyGen.ForBodyLayout | src/backend/tacky_gen.rs:510-523 | the continue label comes after the body and before the post expression, followed by Jump start_id and Label break_id |
| TackyGen.IfElseLayout | src/backend/tacky_gen.rs:371-395 | if/else emits condition, JumpIfZero→else, then, Jump end, Label else, else, Label end, with distinct labels |
| TackyGen.IfThenLayout | src/backend/tacky_gen.rs:397-414 | an if without else emits condition, JumpIfZero→end, then, Label end |
| TackyGen.JumpLayout | src/backend/tacky_gen.rs:419-430 | `break`/`continue` emit a jump to `_break_id`/`_continue_id`, the labels their loop emits |
| TackyGen.TackyGenerator.MakeTemporary | src/backend/tacky_gen.rs:28-32 | returns `tmp.id` with the generator's next id and advances it by one |
| TackyGen.TackyGenerator.MakeLabelWithPrefix | src/backend/tacky_gen.rs:36-40 | returns `_prefix_n` for the current counter and increments the counter by one |
| TackyGen.TackyGenerator.GenerateExpression | src/backend/tacky_gen.rs:93-307 | value, instructions and counters after lowering an expression are those of `ExprAt` |
| TackyGen.TackyGenerator.GenerateShortCircuit | src/backend/tacky_gen.rs:146-235 | the logical and/or arms match `ShortCircuitAt` |
| TackyGen.TackyGenerator.GenerateConditional | src/backend/tacky_gen.rs:262-306 | the `?:` arm matches `ExprAt` |
| TackyGen.TackyGenerator.GenerateBlockItem | src/backend/tacky_gen.rs:311-337 | a declaration with an initializer emits its code and a Copy; one without emits nothing |
| TackyGen.TackyGenerator.GenerateBlock | src/backend/tacky_gen.rs:81-91 | items are lowered in order, stopping at the first error |
| TackyGen.TackyGenerator.GenerateStatement | src/backend/tacky_gen.rs:340-526 | value, instructions and counters after a statement are those of `StmtAt` |
| TackyGen.TackyGenerator.GenerateIf | src/backend/tacky_gen.rs:363-417 | the `if` arm matches `StmtAt` |
| TackyGen.TackyGenerator.GenerateFor | src/backend/tacky_gen.rs:483-524 | the `for` arm matches `StmtAt` |
| TackyGen.TackyGenerator.GenerateFunction | src/backend/tacky_gen.rs:528-545 | lowers the body and adds the implicit return, as `FunctionAt` specifies |
| TackyGen.TackyGenerator.GenerateTacky | src/backend/tacky_gen.rs:548-553 | lowers the program's one function, as `ProgramAt` specifies |
| AsmGen.ConvertTackyVal | src/backend/asm_gen.rs:153-157 | `Constant` becomes `Imm` of the same value and `Var(n)` becomes `Pseudo(n)`, and nothing else |
| AsmGen.SelectAllForm | src/backend/asm_gen.rs:43-144 | selection only emits Mov/Unary/Binary/Idiv/Cdq/Ret, with no comparison, jump, label or stack allocation |
| AsmGen.SelectEndsInRet | src/backend/asm_gen.rs:45-51 | a body ending in `Return v` selects to code ending in `Mov v→AX, Ret` |
| AsmGen.ConvertTackyToAsmPass1 | src/backend/asm_gen.rs:38-150 | pass 1 keeps the name and concatenates the selection of every instruction in order |
| AsmGen.SelectInstruction | src/backend/asm_gen.rs:44-143 | `Return v` gives `[Mov v→AX, Ret]`; Add/Sub/Mul give `[Mov src1→dst, Binary op src2,dst]`; Divide gives `[Mov src1→AX, Cdq, Idiv src2, Mov AX→dst]`; Remainder is the same with DX |
| AsmGen.AssignStackOffset | src/backend/asm_gen.rs:194-207 | a new pseudo gets the slot 4 below the lowest, a known one keeps its slot, and other operands are unchanged, as `AssignSlot` specifies |
| AsmGen.ReplaceOperands | src/backend/asm_gen.rs:172-188 | each visited operand of one instruction is replaced in order, as `ReplaceInstr` specifies |
| AsmGen.ReplacePseudoWithStackPass2 | src/backend/asm_gen.rs:164-191 | pass 2 rewrites the instructions in place as `ReplaceAll` specifies and returns the absolute final offset |
| AsmGen.FreshSlot | src/backend/asm_gen.rs:201-204 | giving a new name the slot 4 below the current offset keeps slots distinct, negative and 4-aligned |
| AsmGen.AssignSlotValid | src/backend/asm_gen.rs:194-207 | one operand assignment preserves the slot invariant |
| AsmGen.AssignSlotSpec | src/backend/asm_gen.rs:194-207 | the map keeps every old slot, gains exactly the operand's pseudo name, and the operand becomes its slot |
| AsmGen.ReplaceInstrValid | src/backend/asm_gen.rs:172-188 | one instruction preserves the slot invariant |
| AsmGen.ReplaceInstrSpec | src/backend/asm_gen.rs:172-188 | one instruction gains exactly its pseudo names in the map and is rewritten through the map |
| AsmGen.ReplaceAllValid | src/backend/asm_gen.rs:171-189 | a run of instructions preserves the slot invariant |
| AsmGen.ReplaceAllSpec | src/backend/asm_gen.rs:171-189 | the final map covers exactly the pseudo names seen, and each instruction is rewritten through the final map, with the count unchanged |
| AsmGen.Pass2Properties | src/backend/asm_gen.rs:168-190 | same count and opcodes; each name has one slot, distinct names have distinct slots at -4, -8, …; the byte count is 4 × the number of distinct names |
| AsmGen.FirstOccurrencesSpec | src/backend/asm_gen.rs:201-204 | the first-sight list of names holds each visited name exactly once and no other |
| AsmGen.AssignSlotOrder | src/backend/asm_gen.rs:194-207 | one operand assignment keeps the k-th distinct name seen at slot -4(k+1), appending a new name at the next slot |
| AsmGen.ReplaceInstrOrder | src/backend/asm_gen.rs:172-188 | one instruction, source before destination, keeps slots in first-sight order |
| AsmGen.ReplaceAllOrder | src/backend/asm_gen.rs:171-189 | a whole run of instructions keeps slots in first-sight order |
| AsmGen.Pass2SlotOrder | src/backend/asm_gen.rs:168-207 | the k-th distinct pseudo-register met (instructions left to right, source before destination) gets offset -4(k+1), the map holds exactly the names met, and the final offset is -4 times their number |
| AsmGen.Pass2RemovesPseudo | src/backend/asm_gen.rs:171-189 | after pass 2 no pseudo-register remains in the instructions it visits |
| AsmGen.Pass1FormVisited | src/backend/asm_gen.rs:172-187 | every instruction pass 1 emits is one whose operands pass 2 visits |
| AsmGen.Align16 | src/backend/asm_gen.rs:219 | the aligned size is a multiple of 16, at least the byte count, and less than 16 above it |
| AsmGen.Align16Smallest | src/backend/asm_gen.rs:219 | it is the smallest multiple of 16 that covers the byte count |
| AsmGen.FixupSpec | src/backend/asm_gen.rs:229-298 | an instruction is copied unchanged iff it is legal; otherwise it is rewritten into legal instructions through R10/R11, without adding pseudo-registers |
| AsmGen.FixupAllSpec | src/backend/asm_gen.rs:227-299 | after fix-up every instruction is legal (no Stack→Stack mov, no Stack/Stack add/sub, no multiply into Stack, no idiv of Imm), and already legal code is unchanged |
| AsmGen.Pass3Properties | src/backend/asm_gen.rs:213-303 | pass 3's output is legal and pseudo-free when its input is, and leaves legal code with no frame unchanged |
| AsmGen.FixupInstruction | src/backend/asm_gen.rs:229-298 | one fix-up step yields the rewrite `Fixup` specifies |
| AsmGen.FixupInstructionsPass3 | src/backend/asm_gen.rs:213-303 | prepends `AllocateStack(align16(bytes))` iff bytes > 0, then the fixed-up instructions in order |
| AsmGen.GenerateAssembly | src/backend/asm_gen.rs:18-32 | the three passes in sequence give the specified program |
| AsmGen.GenerateProperties | src/backend/asm_gen.rs:18-32 | the generated function keeps its name, has no pseudo-register, and every instruction is legal |
| AsmGen.GenerateStackFrame | src/backend/asm_gen.rs:217-223 | with n distinct temporaries the code starts with `AllocateStack` of 4n rounded up to 16 |
| AsmGen.GenerateNoFrame | src/backend/asm_gen.rs:217-223 | with no temporaries no `AllocateStack` is emitted |
| BackendEmitter.NewConfig | src/backend/emitter.rs:14-26 | on macOS local labels use `L` and globals `_`; elsewhere `.L` and no prefix |
| BackendEmitter.LocalLabelInjective | src/backend/emitter.rs:28-30 | distinct labels print as distinct local labels |
| BackendEmitter.CondCodeInjective | src/backend/emitter.rs:140-149 | the suffixes e/ne/l/le/g/ge are pairwise different |
| BackendEmitter.RegisterName | src/backend/emitter.rs:156-173 | every register prints as a `%` name of at least three characters, 1-byte or 4-byte as asked |
| BackendEmitter.FormatOperand | src/backend/emitter.rs:153-183 | immediates print as `$value`, registers start with `%`, and `Stack(o)` prints as `o(%rbp)`; a pseudo-register is excluded |
| BackendEmitter.FormatOperandInjective | src/backend/emitter.rs:153-183 | different operands of the same width print differently |
| BackendEmitter.InstructionLines | src/backend/emitter.rs:62-136 | `Ret` expands to three lines and every other instruction to one |
| BackendEmitter.BodyLineCount | src/backend/emitter.rs:62-136 | a body prints as one line per instruction plus two more per `Ret` |
| BackendEmitter.EmitInstruction | src/backend/emitter.rs:63-135 | one instruction appends exactly its lines to the output |
| BackendEmitter.EmitPrologue | src/backend/emitter.rs:55-60 | appends `.globl`, the label, `pushq %rbp`, `movq %rsp, %rbp` |
| BackendEmitter.EmitBody | src/backend/emitter.rs:62-136 | the loop appends every instruction's lines in order |
| BackendEmitter.EmitFunction | src/backend/emitter.rs:52-138 | the function's prologue and body are appended to the output |
| BackendEmitter.EmitAssembly | src/backend/emitter.rs:38-49 | the output is the function's text, plus the GNU-stack note on Linux |

## Left out

- **src/main.rs.** The command line, file I/O and the `gcc` preprocessing and assembling subprocesses are I/O.
- **src/lib.rs.** It only declares modules.
- **Execution semantics.** Neither IR is interpreted anywhere in the repository, so all properties are structural, over instruction sequences and trees.
- **Character classes.** `is_alphanumeric`, `is_alphabetic` and `is_digit` are modelled on ASCII only, not Unicode.
- **Integer widths.**
  - Integers are unbounded. This covers the `usize` counter, the `i32` constants and stack offsets, and the `u32` byte count.
  - The lexer's i32 range check is the one place where width matters. It is written out: a constant above 2147483647 is "Failed to parse number".
- **Platform.** Both emitters switch on the target OS at compile time. Here the platform is a parameter (`MacOS | Linux | Other`).
- **Panics become preconditions, not errors.**
  - The resolver's catch-all arm at src/semantics/validator.rs:142-144 (compound statements, loops, `break`/`continue`) becomes the precondition `Handled`.
  - Assembly selection's panics at src/backend/asm_gen.rs:56-58, 124 and 140-142 become `Selectable`. These cover unary `!`, relational operators, jumps, labels, copies and calls.
  - The back-end emitter's panic on a pseudo-register becomes `NoPseudo`.
- **Commented-out source.** `src/backend/tacky_gen.rs` and `src/backend/emitter.rs` are commented out. They are modelled from their text.
- **TACKY program shape.** `src/ir/tacky.rs:86` declares `functions` (plural) and gives functions parameters. Its users read a single `function` with no parameters, and the model follows the users.
- **Function calls.** `FunCall` lowering, argument passing and calling conventions are not modelled. `FunCall` is never handled by any stage, so pass 1 excludes it.
- **`Debug` rendering.** The "Invalid l-value" message embeds Rust's derived `Debug` text of the target. `DebugExpression` writes that text out, assuming variable names need no escaping inside the quotes, which holds for identifiers.
- **Short-circuit lowering.** It is one method with an `isAnd` switch, where the source writes two arms. The emitted code is stated separately for `&&` and `||`.
- **Stack alignment.** `(bytes + 15) & !15` on a `u32` is modelled with arithmetic, as the smallest multiple of 16 that is at least `bytes`. Overflow of `bytes + 15` is not modelled.
- **Pass 2 coverage.** Pass 2 leaves `Cmp` and `SetCC` operands alone. `Pass2RemovesPseudo` therefore assumes those carry no pseudo-register, which `Pass1FormVisited` shows pass 1 never violates.
- Lexer.Lexer.CollectTokens: does not model the iterator's behaviour after an error. The consumer stops at the first `Err`; repeated polling after an unrecognized character would return the same error forever.
- Validation.ResolveStmt: its own contract states only that the result stays in the handled forms. Its meaning is given by `ResolveStmtSucceeds`, `ResolveStmtShape` and `ResolveStmtRenames`.
