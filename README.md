# SPL compiler front end, modelled in Dafny

This project models the front end of a compiler for SPL, a small teaching
language. SPL programs have global variables, procedures, functions and a
`main` block, with `print`, assignment, calls, `if`/`else`, `while`,
`do … until`, `return` and `halt`. The model covers four parts of the
compiler:

- **The scanner** (`spl_lexer.cpp`). The `Lexer` object holds the text, a
  position, a line counter and a keyword table. Module `Lexing` models it as
  class `Lexer`, whose loops are proved against `NextToken`, a function of
  the text, the position and the line counter. The scanner's properties are
  proved about that function:
  - end of input comes exactly on blank text;
  - every call consumes text and counts the newlines it skips;
  - token values are the text consumed;
  - identifiers, keywords, numbers and strings are the maximal runs the
    source's loops take;
  - every word and constant the scanner returns passes the validator the
    syntax tree applies to it later.
- **The name validators and `checkNames`** (`ast.h`). Module `Ast` holds:
  - the syntax tree as datatypes;
  - the three validators `checkIdentifier`, `checkNumber` and `checkString`,
    each characterised exactly, with the regular expressions written out as
    predicates;
  - the walk of `checkNames` as the sequence of checks it performs, in order,
    proved silent exactly when every name in the tree is valid for its kind.
- **The type checker** (`type_checker.cpp`).
  - Module `SymbolTables` models the scope stack: the `SymbolTable` class,
    and the functions `Lookup` and `Bind` over a `seq` of frames.
  - Module `Typing` gives every check of `TypeChecker` as a function. Each
    function returns its verdict, the messages it logs in order, and the
    scope stack it leaves behind.
  - Module `TypingProperties` proves the rules a reader of the checker
    relies on: declaration lists, the two passes of `checkProgram`, scope
    restoration, and the operator, statement and return rules.
  - Module `TypeCheckers` models class `TypeChecker`. Each method is proved
    to compute exactly its `Typing` function: same verdict, same log and
    same final scopes.
- **The intermediate code generator** (`Intermediate-Code-Generation/codegen.cpp`).
  - Module `Codegen` gives the lines each `generate…` procedure prints, as
    functions of the node and the two counters.
  - Module `CodegenProperties` proves what the emitted code guarantees.
    Every temporary is assigned exactly once, in allocation order. Every
    label is placed exactly once. Every jump targets a placed label. Every
    call consumes exactly the `param` values of its own arguments. This last
    holds over the instructions: on the printed text an argument and a formal
    parameter are both a `param` line, so it holds there only when the lines
    after a `proc` or `func` header are read as that routine's formals.
  - Module `Generators` is the emitter as it runs: two counters and an
    output stream, appended to by one method per node kind. Each method is
    proved to append exactly the lines the `Codegen` function describes.

Modules `Text`, `Seqs` and `Wrappers` hold character classes, decimal
rendering and parsing, sequence facts, and `Option`/`Result`.

## Model

| member | source | states |
|---|---|---|
| Text.NatToString | Intermediate-Code-Generation/codegen.cpp:9-10 | `std::to_string` of a counter is a non-empty run of digits, without a leading zero unless it is `0` |
| Text.ParseNatToString | Intermediate-Code-Generation/codegen.cpp:9-10 | reading back the decimal rendering of a counter gives the counter |
| Text.NatToStringInjective | Intermediate-Code-Generation/codegen.cpp:9-10 | two different counters never render to the same digits |
| Text.NatToStringParse | ast.h:19-40 | every digit string without a leading zero (or `0` itself) is the rendering of the number it denotes |
| Ast.MatchLowerOrDigitStar | ast.h:18 | the `[a-z0-9]*` tail of the identifier pattern matches exactly the strings of lower-case letters and digits |
| Ast.MatchDigitStar | ast.h:19 | the `[0-9]*` tail of the number pattern matches exactly the all-digit strings |
| Ast.MatchAlnumUpTo | ast.h:20 | the `[A-Za-z0-9]{0,15}` pattern matches exactly the letter-and-digit strings of length at most the bound |
| Ast.ReservedWordsRejected | ast.h:22-27 | every reserved word, `>` included, fails `checkIdentifier` with the reserved-word message |
| Ast.IdentifierCharacterisation | ast.h:12-32 | `checkIdentifier` accepts exactly the non-reserved strings of a lower-case letter followed by lower-case letters and digits |
| Ast.NumberCharacterisation | ast.h:19-40 | `checkNumber` accepts exactly `0` and the digit strings that do not start with `0` |
| Ast.RenderedNumbersAccepted | ast.h:34-40 | the decimal rendering of any natural number passes `checkNumber` |
| Ast.AcceptedNumbersCanonical | ast.h:34-40 | a number constant `checkNumber` accepts is the rendering of its own value: accepted constants and values are in one-to-one correspondence |
| Ast.StringCharacterisation | ast.h:42-52 | `checkString` accepts exactly the letter-and-digit strings of at most 15 characters; a longer string fails on the length test first |
| Ast.IdentifierError | ast.h:22-32 | the reserved-word message is given exactly to reserved words, `>` included, whatever their shape; any rejection names the rejected text; the empty name is malformed |
| Ast.NumberError | ast.h:34-40 | a rejection names the rejected text; `0` is accepted and any longer constant starting with `0` is rejected |
| Ast.StringError | ast.h:42-52 | a literal longer than 15 characters gets the length message whatever its characters; a shorter rejected one gets the pattern message; the empty literal is accepted |
| Ast.Reports | ast.h:22-52 | the messages a sequence of validator calls prints are at most one per call |
| Ast.VarChecks | ast.h:89-93 | a list of variables checks each name as an identifier, in list order, and is silent exactly when every name is a valid identifier |
| Ast.ExprChecks | ast.h:111-199 | an expression's walk is silent exactly when every variable, function name, number and string in it is valid |
| Ast.ArgChecks | ast.h:196-199 | an argument list's walk is silent exactly when every argument's is |
| Ast.ArgChecksAppend | ast.h:89-93 | the arguments are visited in list order: the checks of two lists in a row are the first list's followed by the second's |
| Ast.StmtChecks | ast.h:214-358 | a statement's walk is silent exactly when every name and constant in it, nested statements included, is valid |
| Ast.StmtListChecks | ast.h:89-93 | a statement list's walk is silent exactly when every statement's is |
| Ast.StmtListChecksAppend | ast.h:89-93 | statements are visited in list order: the checks of two lists in a row are the first list's followed by the second's |
| Ast.BodyChecks | ast.h:374-377 | a body prints its locals' messages, then its statements'; it is silent exactly when all of them are valid |
| Ast.ProcDefChecks | ast.h:395-399 | a procedure prints the messages for its own name, then its parameters, then its body; it is silent exactly when all of them are valid |
| Ast.FuncDefChecks | ast.h:425-429 | a function prints the messages for its own name, then its parameters, then its body; it is silent exactly when all of them are valid |
| Ast.ProcListChecks | ast.h:89-93 | the procedure list's walk is silent exactly when every procedure's is |
| Ast.FuncListChecks | ast.h:89-93 | the function list's walk is silent exactly when every function's is |
| Ast.ProcListChecksAppend | ast.h:89-93 | procedures are visited in list order: the checks of two lists in a row are the first list's followed by the second's |
| Ast.FuncListChecksAppend | ast.h:89-93 | functions are visited in list order: the checks of two lists in a row are the first list's followed by the second's |
| Ast.MainChecks | ast.h:445-448 | `main` prints its locals' messages, then its statements'; it is silent exactly when all of them are valid |
| Ast.ProgramChecks | ast.h:469-474 | a program prints the messages of its globals, procedures, functions and `main`, in that order, and is silent exactly when every name and constant in it is valid |
| Ast.ReportsAppend | ast.h:89-93 | the messages of two walks in sequence are the first walk's messages followed by the second's |
| Ast.SilentIffAllAccepted | ast.h:89-93 | a walk prints nothing exactly when every validator call in it accepts |
| Ast.ReportsComeFromChecks | ast.h:89-93 | every printed message is the verdict of some validator call of the walk |
| SymbolTables.Innermost | type_checker.cpp:53-72 | the innermost frame binding a name, or -1: it binds the name and no frame inside it does |
| SymbolTables.Lookup | type_checker.cpp:63-72 | a name resolves to nothing exactly when no frame binds it, and otherwise to its binding in the innermost frame that has one |
| SymbolTables.Bind | type_checker.cpp:39-51 | declaring fails exactly when there is no frame or the innermost frame already binds the name; on success the depth and the outer frames are unchanged |
| SymbolTables.BindResolves | type_checker.cpp:39-72 | after a successful declaration the name resolves to its new type and every other name resolves as before |
| SymbolTables.ShadowingSucceeds | type_checker.cpp:39-72 | a name bound in any outer frame but not the innermost one can be declared again: it then resolves to the new type, the outer binding stays unchanged, and it resolves again once the innermost frame is dropped |
| SymbolTables.SymbolTable.constructor | type_checker.cpp:18-20 | a new table holds one empty global frame |
| SymbolTables.SymbolTable.EnterScope | type_checker.cpp:29-31 | pushes one empty frame |
| SymbolTables.SymbolTable.ExitScope | type_checker.cpp:33-37 | pops the innermost frame, and does nothing on an empty stack |
| SymbolTables.SymbolTable.Declare | type_checker.cpp:39-51 | succeeds exactly when a frame exists and the innermost frame lacks the name; the stack is then `Bind`'s result, and otherwise unchanged |
| SymbolTables.SymbolTable.IsDeclared | type_checker.cpp:53-61 | true exactly when some frame binds the name |
| SymbolTables.SymbolTable.GetType | type_checker.cpp:63-72 | the type in the innermost frame that binds the name, or UNKNOWN when none does |
| SymbolTables.SymbolTable.IsTypeLess | type_checker.cpp:74-76 | true exactly when no frame binds the name (the source's name notwithstanding) |
| Typing.BinaryOpType | type_checker.cpp:624-671 | a typed result needs two operands of the same type, and it is NUMERIC exactly for the arithmetic operators; an unknown operator is UNKNOWN |
| Typing.BinaryOpDiag | type_checker.cpp:624-671 | the operator itself is named in the message exactly when it is none of the known ones; the comparison message is chosen exactly for `>` and `eq` |
| Typing.UnaryOpType | type_checker.cpp:593-622 | a typed result has the operand's type; an operator other than `neg` and `not` is UNKNOWN |
| Typing.UnaryOpDiag | type_checker.cpp:593-622 | the operator itself is named in the message exactly when it is neither `neg` nor `not` |
| Typing.BinaryOpTyping | type_checker.cpp:624-671 | `>` and `eq` give BOOLEAN on two NUMERIC operands; `and` and `or` give BOOLEAN on two BOOLEAN operands; the arithmetic operators give NUMERIC on two NUMERIC operands; anything else is UNKNOWN |
| Typing.UnaryOpTyping | type_checker.cpp:593-622 | `neg` gives NUMERIC exactly on a NUMERIC operand, `not` gives BOOLEAN exactly on a BOOLEAN operand, anything else is UNKNOWN |
| Typing.AtomCheck | type_checker.cpp:537-560 | an atom that logs a message is UNKNOWN; only a number literal or a declared NUMERIC variable is NUMERIC |
| Typing.TermCheck | type_checker.cpp:562-591 | a term that logs a message is UNKNOWN; a string or a call is no term: UNKNOWN with the invalid-term message alone |
| Typing.UnaryCheck | type_checker.cpp:593-622 | the type is `UnaryOpType` of the operator and the operand's type; when it is UNKNOWN the operator's message is appended after the operand's messages; a check that logs is UNKNOWN |
| Typing.BinaryCheck | type_checker.cpp:624-671 | the type is `BinaryOpType` of the operator and the two operand types; when it is UNKNOWN the operator's message is appended after the left then the right operand's messages; a check that logs is UNKNOWN |
| Typing.InputCheck | type_checker.cpp:459-474 | the argument list passes exactly when every argument is a NUMERIC atom, and then logs nothing |
| Typing.CallCheck | type_checker.cpp:673-692 | a function call is NUMERIC exactly when its name is declared and its arguments pass; a call that logs a message is UNKNOWN |
| Typing.ExprCheck | type_checker.cpp:506-535 | an expression that logs a message is UNKNOWN; a bare variable, a number and a string are NUMERIC without any lookup or message |
| Typing.OutputCheck | type_checker.cpp:423-439 | a printed item passes exactly when it is a string or a NUMERIC atom, and then logs nothing |
| Typing.StmtCheck | type_checker.cpp:368-421 | a statement that passes logs nothing |
| Typing.ProcCallCheck | type_checker.cpp:441-457 | a procedure call that passes logs nothing |
| Typing.AssignCheck | type_checker.cpp:476-504 | an assignment that passes logs nothing |
| Typing.IfCheck | type_checker.cpp:694-709 | an `if` that passes logs nothing |
| Typing.IfElseCheck | type_checker.cpp:711-729 | an `if`/`else` that passes logs nothing |
| Typing.WhileCheck | type_checker.cpp:731-746 | a `while` that passes logs nothing |
| Typing.DoUntilCheck | type_checker.cpp:748-763 | a `do … until` that passes logs nothing |
| Typing.ReturnCheck | type_checker.cpp:765-779 | a `return` that passes logs nothing |
| Typing.StmtListCheck | type_checker.cpp:352-366 | a statement list that passes logs nothing |
| Typing.DeclareVars | type_checker.cpp:175-206 | declaring a variable or parameter list keeps the depth and the outer frames; it logs nothing on success and exactly one message on failure |
| Typing.BlockCheck | type_checker.cpp:294-350 | a body or `main` block leaves the scope stack exactly as it found it, pass or fail |
| Typing.RoutineCheck | type_checker.cpp:208-268 | a procedure or function definition leaves the scope stack exactly as it found it, pass or fail |
| Typing.DeclareRoutines | type_checker.cpp:127-147 | predeclaring routine names keeps the depth and the outer frames; it logs nothing on success and exactly one message on failure |
| Typing.ProcNames | type_checker.cpp:127-136 | the names the procedure pass declares, one per procedure, in order |
| Typing.FuncNames | type_checker.cpp:138-147 | the names the function pass declares, one per function, in order |
| Typing.ProcDefsCheck | type_checker.cpp:150-156 | the procedure bodies that pass log nothing |
| Typing.FuncDefsCheck | type_checker.cpp:159-165 | the function bodies that pass log nothing |
| Typing.RoutineNamesCheck | type_checker.cpp:126-147 | the first pass keeps the depth of the stack and logs nothing on success |
| Typing.DefinitionsCheck | type_checker.cpp:149-170 | the second pass logs nothing on success |
| Typing.ProgramCheck | type_checker.cpp:120-173 | checking a program keeps the depth of the stack and logs nothing on success |
| TypingProperties.Names | type_checker.cpp:53-61 | the set of declared names: a name is in it exactly when some frame binds it |
| TypingProperties.DeclareVarsSpec | type_checker.cpp:175-206 | a variable or parameter list is accepted exactly when its names are pairwise distinct and new to the innermost frame; it then binds each NUMERIC there and nothing else changes; otherwise the one message names the first refused name |
| TypingProperties.DeclareRoutinesSpec | type_checker.cpp:127-147 | routine names are accepted exactly when pairwise distinct and declared in no frame; each then resolves to TYPELESS and every other name as before; otherwise the one message names the first clash |
| TypingProperties.RoutineClashRejected | type_checker.cpp:120-147 | a routine whose name is already taken, by a global, an earlier routine or one of the other kind, makes `checkProgram` fail before any body is checked |
| TypingProperties.RoutineNamesClash | type_checker.cpp:126-147 | when the routine names clash with each other or with a declared name, the first pass fails with a single "already declared" message |
| TypingProperties.GlobalProcedureClash | type_checker.cpp:120-136 | a procedure named like a global makes the program fail with a single "already declared" message for a procedure no later than it |
| TypingProperties.ScopesRestored | type_checker.cpp:208-350 | bodies, `main` and routine definitions restore the scope stack, so every name resolves afterwards as before |
| TypingProperties.LocalShadowsParameter | type_checker.cpp:208-321 | a local may repeat a parameter's name (it sits one frame further in), but a repeated parameter is refused with one message |
| TypingProperties.RoutineWithoutReturnAccepted | type_checker.cpp:237-268 | a function whose body has no `return` is accepted: nothing requires one |
| TypingProperties.StmtListFailFast | type_checker.cpp:352-366 | a statement list passes exactly when each statement does, and the first failing statement's messages are the list's messages |
| TypingProperties.IfElseChecksBothBranches | type_checker.cpp:711-729 | with a BOOLEAN condition, `if`/`else` passes exactly when both branches do, and logs both branches' messages in order |
| TypingProperties.NonBooleanConditionRejected | type_checker.cpp:694-763 | a condition that is not BOOLEAN makes `if`, `if`/`else`, `while` and `do … until` fail, with the condition's messages followed by the statement's own |
| TypingProperties.BooleanConditionRule | type_checker.cpp:694-763 | with a BOOLEAN condition, `if`, `while` and `do … until` pass exactly when their body does, logging exactly the body's messages |
| TypingProperties.ProcDefsPassedEach | type_checker.cpp:149-156 | a procedure loop of the second pass that passes has passed every definition from its start on |
| TypingProperties.ProcDefsPassWhenEach | type_checker.cpp:149-156 | a procedure loop whose every remaining definition passes against the same stack passes |
| TypingProperties.ProcDefsAllPass | type_checker.cpp:149-156 | the procedure loop of the second pass checks each definition against the same stack and passes exactly when every remaining definition does |
| TypingProperties.ProcDefsFailFast | type_checker.cpp:149-156 | the procedure loop stops at the first rejected definition when every earlier one passed, and its result is that definition's rejection with exactly its messages |
| TypingProperties.FuncDefsPassedEach | type_checker.cpp:158-165 | a function loop of the second pass that passes has passed every definition from its start on |
| TypingProperties.FuncDefsPassWhenEach | type_checker.cpp:158-165 | a function loop whose every remaining definition passes against the same stack passes |
| TypingProperties.FuncDefsAllPass | type_checker.cpp:158-165 | the function loop of the second pass checks each definition against the same stack and passes exactly when every remaining definition does |
| TypingProperties.FuncDefsFailFast | type_checker.cpp:158-165 | the function loop stops at the first rejected definition when every earlier one passed, and its result is that definition's rejection with exactly its messages |
| TypingProperties.DefinitionsRule | type_checker.cpp:149-170 | the second pass passes exactly when every procedure, every function and `main` do; a rejected procedure ends it before any function is checked, and a rejected function before `main` is, with that definition's messages |
| TypingProperties.ReturnRule | type_checker.cpp:765-779 | `return` accepts exactly a number literal or a declared NUMERIC variable; anything else logs the invalid-atom and return messages |
| TypingProperties.AssignRule | type_checker.cpp:476-504 | an assignment passes exactly when its target is a declared NUMERIC name and its right-hand side is NUMERIC; a TYPELESS target is refused with one message |
| TypingProperties.AssignCopiesWithoutLookup | type_checker.cpp:506-535 | `checkExpression` does not look up a bare variable or a string, so copying an undeclared variable or a string passes, while negating the undeclared variable does not |
| TypingProperties.ProcCallRule | type_checker.cpp:441-457 | a procedure call passes exactly when its name is declared as anything and its arguments are NUMERIC atoms, so a NUMERIC variable can be called |
| TypingProperties.PrintOfRoutineNameSilent | type_checker.cpp:413-439 | printing a name declared TYPELESS fails without logging any message, alone or at the head of a statement list |
| TypingProperties.ProgramPrintingRoutineNameSilent | type_checker.cpp:103-173 | a program whose `main` prints the name of its procedure fails `checkProgram` with an empty log, so `typeCheck` answers false with no message |
| Typing.TypeCheckResult | type_checker.cpp:103-118 | `typeCheck` answers true exactly when `checkProgram` succeeds: a successful check never logs |
| TypingProperties.TypeCheckIsProgramCheck | type_checker.cpp:103-118 | the verdict of `typeCheck` is that of `checkProgram` |
| TypeCheckers.TypeChecker.constructor | type_checker.cpp:90 | an empty log and a table holding one empty frame |
| TypeCheckers.TypeChecker.AddError | type_checker.cpp:94-97 | appends the message to the log and sets the error flag |
| TypeCheckers.TypeChecker.IsCorrectlyTyped | type_checker.cpp:99-101 | true exactly when the log is empty |
| TypeCheckers.TypeChecker.TypeCheck | type_checker.cpp:103-118 | clears the log, then leaves the verdict, log and scopes of `ProgramCheck` on the table it started from |
| TypeCheckers.TypeChecker.CheckProgram | type_checker.cpp:120-173 | returns `ProgramCheck`'s verdict, appends its messages, leaves its scopes |
| TypeCheckers.TypeChecker.PredeclareRoutines | type_checker.cpp:126-147 | returns `RoutineNamesCheck`'s verdict, appends its messages, leaves its scopes |
| TypeCheckers.TypeChecker.CheckDefinitions | type_checker.cpp:149-170 | returns `DefinitionsCheck`'s verdict, appends its messages, restores the scopes |
| TypeCheckers.TypeChecker.Predeclare | type_checker.cpp:127-147 | the loop of one routine-name pass computes `DeclareRoutines` |
| TypeCheckers.TypeChecker.CheckProcDefs | type_checker.cpp:150-156 | the procedure loop of the second pass computes `ProcDefsCheck` |
| TypeCheckers.TypeChecker.CheckFuncDefs | type_checker.cpp:159-165 | the function loop of the second pass computes `FuncDefsCheck` |
| TypeCheckers.TypeChecker.CheckVarList | type_checker.cpp:175-206 | computes `DeclareVars` for variables |
| TypeCheckers.TypeChecker.CheckParams | type_checker.cpp:270-292 | computes `DeclareVars` for parameters |
| TypeCheckers.TypeChecker.DeclareEach | type_checker.cpp:175-196 | the declaration loop shared by variable and parameter lists computes `DeclareVars` |
| TypeCheckers.TypeChecker.CheckProcDef | type_checker.cpp:208-235 | computes `RoutineCheck` for a procedure |
| TypeCheckers.TypeChecker.CheckFuncDef | type_checker.cpp:237-268 | computes `RoutineCheck` for a function |
| TypeCheckers.TypeChecker.CheckRoutine | type_checker.cpp:208-268 | enter a frame, check the parameters and body, exit the frame, on every path |
| TypeCheckers.TypeChecker.CheckBody | type_checker.cpp:294-321 | computes `BlockCheck` for a body |
| TypeCheckers.TypeChecker.CheckMainProg | type_checker.cpp:323-350 | computes `BlockCheck` for `main` |
| TypeCheckers.TypeChecker.CheckBlock | type_checker.cpp:294-350 | enter a frame, declare the locals, check the statements, exit the frame, on every path |
| TypeCheckers.TypeChecker.CheckStatementList | type_checker.cpp:352-366 | computes `StmtListCheck`, stopping at the first failing statement |
| TypeCheckers.TypeChecker.CheckStatement | type_checker.cpp:368-421 | computes `StmtCheck`, including `halt` and `print` |
| TypeCheckers.TypeChecker.CheckOutput | type_checker.cpp:423-439 | computes `OutputCheck` |
| TypeCheckers.TypeChecker.CheckProcCall | type_checker.cpp:441-457 | computes `ProcCallCheck` |
| TypeCheckers.TypeChecker.CheckInput | type_checker.cpp:459-474 | computes `InputCheck` |
| TypeCheckers.TypeChecker.CheckAssign | type_checker.cpp:476-504 | computes `AssignCheck` |
| TypeCheckers.TypeChecker.CheckExpression | type_checker.cpp:506-535 | computes `ExprCheck` |
| TypeCheckers.TypeChecker.CheckAtom | type_checker.cpp:537-560 | computes `AtomCheck` |
| TypeCheckers.TypeChecker.CheckTerm | type_checker.cpp:562-591 | computes `TermCheck` |
| TypeCheckers.TypeChecker.CheckUnaryOp | type_checker.cpp:593-622 | computes `UnaryCheck` |
| TypeCheckers.TypeChecker.CheckBinaryOp | type_checker.cpp:624-671 | computes `BinaryCheck` |
| TypeCheckers.TypeChecker.CheckFuncCall | type_checker.cpp:673-692 | computes `CallCheck` |
| TypeCheckers.TypeChecker.CheckIf | type_checker.cpp:694-709 | computes `IfCheck` |
| TypeCheckers.TypeChecker.CheckIfElse | type_checker.cpp:711-729 | computes `IfElseCheck` |
| TypeCheckers.TypeChecker.CheckWhile | type_checker.cpp:731-746 | computes `WhileCheck` |
| TypeCheckers.TypeChecker.CheckDoUntil | type_checker.cpp:748-763 | computes `DoUntilCheck` |
| TypeCheckers.TypeChecker.CheckReturn | type_checker.cpp:765-779 | computes `ReturnCheck` |
| Codegen.TempName | Intermediate-Code-Generation/codegen.cpp:9 | a temporary is `t` followed by the decimal counter |
| Codegen.LabelName | Intermediate-Code-Generation/codegen.cpp:10 | a label is `L` followed by the decimal counter |
| Codegen.ExprCode | Intermediate-Code-Generation/codegen.cpp:14-68 | an expression only ever moves the temporary counter forward |
| Codegen.ArgsCode | Intermediate-Code-Generation/codegen.cpp:45-56 | the argument loop yields one value per argument and only moves the counter forward |
| Codegen.StmtCode | Intermediate-Code-Generation/codegen.cpp:74-162 | a statement only ever moves both counters forward |
| Codegen.StmtsCode | Intermediate-Code-Generation/codegen.cpp:164-167 | a statement list only ever moves both counters forward |
| Codegen.Decls | Intermediate-Code-Generation/codegen.cpp:171-173 | one `decl` line per local, in order |
| Codegen.FormalParams | Intermediate-Code-Generation/codegen.cpp:180-182 | one `param` line per formal parameter, in order |
| Codegen.Globals | Intermediate-Code-Generation/codegen.cpp:208-210 | one `global` line per global variable, in order |
| Codegen.BodyCode | Intermediate-Code-Generation/codegen.cpp:169-176 | a body only ever moves both counters forward |
| Codegen.ProcDefCode | Intermediate-Code-Generation/codegen.cpp:178-185 | a procedure only ever moves both counters forward |
| Codegen.FuncDefCode | Intermediate-Code-Generation/codegen.cpp:187-194 | a function only ever moves both counters forward |
| Codegen.MainCode | Intermediate-Code-Generation/codegen.cpp:196-203 | `main` only ever moves both counters forward |
| Codegen.ProcDefsCode | Intermediate-Code-Generation/codegen.cpp:212-214 | the procedure loop only ever moves both counters forward |
| Codegen.FuncDefsCode | Intermediate-Code-Generation/codegen.cpp:216-218 | the function loop only ever moves both counters forward |
| Codegen.ProgramCode | Intermediate-Code-Generation/codegen.cpp:205-222 | a program only ever moves both counters forward |
| CodegenProperties.TempNamesDistinct | Intermediate-Code-Generation/codegen.cpp:9 | `newTemp` gives equal names exactly for equal counters, so it never answers the same name twice |
| CodegenProperties.LabelNamesDistinct | Intermediate-Code-Generation/codegen.cpp:10 | `newLabel` gives equal names exactly for equal counters |
| CodegenProperties.RenderedLabelsDistinct | Intermediate-Code-Generation/codegen.cpp:10 | two printed label lines are equal exactly when they place the same label |
| CodegenProperties.ParamLinesLookAlike | Intermediate-Code-Generation/codegen.cpp:180-182 | an argument pushed for a call and a formal parameter print as the same `param` line |
| CodegenProperties.TempNameIsIdentifier | Intermediate-Code-Generation/codegen.cpp:9 | every temporary's name is a legal SPL identifier, so a program variable can share it; no label name is one |
| CodegenProperties.ExprTemps | Intermediate-Code-Generation/codegen.cpp:14-68 | an expression assigns exactly the temporaries it allocates, once each and in allocation order, and neither places nor jumps to a label |
| CodegenProperties.ExprValue | Intermediate-Code-Generation/codegen.cpp:14-68 | a variable is its own value and emits nothing; any other expression's value is the last temporary it allocated |
| CodegenProperties.ExprBalanced | Intermediate-Code-Generation/codegen.cpp:30-64 | an expression leaves pending `param` values as it found them: its calls consume exactly their own arguments |
| CodegenProperties.ArgsPassValues | Intermediate-Code-Generation/codegen.cpp:45-51 | the argument loop pushes exactly the values of the arguments, in order, for the call that follows |
| CodegenProperties.IfNumbered | Intermediate-Code-Generation/codegen.cpp:95-104 | the `if` template places its two labels once each, jumps only to labels it places, and assigns its temporaries in order |
| CodegenProperties.IfElseNumbered | Intermediate-Code-Generation/codegen.cpp:106-120 | the `if`/`else` template places its three labels once each, jumps only to labels it places, and assigns its temporaries in order |
| CodegenProperties.WhileNumbered | Intermediate-Code-Generation/codegen.cpp:122-131 | the `while` template places its two labels once each, jumps only to labels it places, and assigns its temporaries in order |
| CodegenProperties.DoUntilNumbered | Intermediate-Code-Generation/codegen.cpp:133-139 | the `do … until` template places its label once, jumps only to labels it places, and assigns its temporaries in order |
| CodegenProperties.StmtNumbered | Intermediate-Code-Generation/codegen.cpp:74-162 | a statement assigns exactly the temporaries and places exactly the labels it allocates, once each, and jumps only to those labels |
| CodegenProperties.StmtsNumbered | Intermediate-Code-Generation/codegen.cpp:164-167 | the same holds for a statement list |
| CodegenProperties.StmtBalanced | Intermediate-Code-Generation/codegen.cpp:74-162 | a statement leaves pending `param` values as it found them |
| CodegenProperties.StmtsBalanced | Intermediate-Code-Generation/codegen.cpp:164-167 | a statement list leaves pending `param` values as it found them |
| CodegenProperties.BodyNumbered | Intermediate-Code-Generation/codegen.cpp:169-176 | a body is well numbered and leaves pending `param` values alone |
| CodegenProperties.ProcDefNumbered | Intermediate-Code-Generation/codegen.cpp:178-185 | a procedure is well numbered, and its formal `param` lines, like its calls, leave pending values alone |
| CodegenProperties.FuncDefNumbered | Intermediate-Code-Generation/codegen.cpp:187-194 | a function is well numbered and leaves pending `param` values alone |
| CodegenProperties.MainNumbered | Intermediate-Code-Generation/codegen.cpp:196-203 | `main` is well numbered and leaves pending `param` values alone |
| CodegenProperties.ProcDefsNumbered | Intermediate-Code-Generation/codegen.cpp:212-214 | the procedure loop is well numbered and leaves pending `param` values alone |
| CodegenProperties.FuncDefsNumbered | Intermediate-Code-Generation/codegen.cpp:216-218 | the function loop is well numbered and leaves pending `param` values alone |
| CodegenProperties.ProgramNumbered | Intermediate-Code-Generation/codegen.cpp:205-222 | a program is well numbered and leaves pending `param` values alone |
| CodegenProperties.ProgramWellFormed | Intermediate-Code-Generation/codegen.cpp:205-227 | from zero counters: the temporaries assigned are distinct and are exactly `t0 … t(n-1)` in order; labels `L0 … L(m-1)` are placed once each and no other; every jump targets a placed label; every `param` instruction pushed is consumed by a call (on the printed text a formal parameter is a `param` line too) |
| Generators.Generator.constructor | Intermediate-Code-Generation/codegen.cpp:6-7 | both counters start at zero and nothing has been written |
| Generators.Generator.NewTemp | Intermediate-Code-Generation/codegen.cpp:9 | answers the current counter's name and advances only that counter |
| Generators.Generator.NewLabel | Intermediate-Code-Generation/codegen.cpp:10 | answers the current label number and advances only that counter |
| Generators.Generator.Emit | Intermediate-Code-Generation/codegen.cpp:20 | writes exactly one line at the end of the output |
| Generators.Generator.GenerateVar | Intermediate-Code-Generation/codegen.cpp:14-16 | a variable is its own value and writes nothing |
| Generators.Generator.GenerateNumber | Intermediate-Code-Generation/codegen.cpp:18-22 | appends `ExprCode`'s lines and advances the counter as it says |
| Generators.Generator.GenerateString | Intermediate-Code-Generation/codegen.cpp:24-28 | appends `ExprCode`'s lines and advances the counter as it says |
| Generators.Generator.GenerateUnaryOp | Intermediate-Code-Generation/codegen.cpp:30-35 | appends `ExprCode`'s lines and advances the counter as it says |
| Generators.Generator.GenerateBinaryOp | Intermediate-Code-Generation/codegen.cpp:37-43 | appends `ExprCode`'s lines and advances the counter as it says |
| Generators.Generator.GenerateFuncCall | Intermediate-Code-Generation/codegen.cpp:45-56 | appends `ExprCode`'s lines, one `param` per argument then the call, and advances the counter as it says |
| Generators.Generator.GenerateExpr | Intermediate-Code-Generation/codegen.cpp:58-68 | appends `ExprCode`'s lines, returns its value and advances the counter as it says |
| Generators.Generator.GenerateAssign | Intermediate-Code-Generation/codegen.cpp:74-77 | appends `StmtCode`'s lines and advances the counters as it says |
| Generators.Generator.GeneratePrint | Intermediate-Code-Generation/codegen.cpp:79-82 | appends `StmtCode`'s lines and advances the counters as it says |
| Generators.Generator.GenerateProcCall | Intermediate-Code-Generation/codegen.cpp:84-93 | appends `StmtCode`'s lines and advances the counters as it says |
| Generators.Generator.GenerateIf | Intermediate-Code-Generation/codegen.cpp:95-104 | appends `StmtCode`'s lines and advances the counters as it says |
| Generators.Generator.GenerateIfElse | Intermediate-Code-Generation/codegen.cpp:106-120 | appends `StmtCode`'s lines and advances the counters as it says |
| Generators.Generator.GenerateWhile | Intermediate-Code-Generation/codegen.cpp:122-131 | appends `StmtCode`'s lines and advances the counters as it says |
| Generators.Generator.GenerateDoUntil | Intermediate-Code-Generation/codegen.cpp:133-139 | appends `StmtCode`'s lines and advances the counters as it says |
| Generators.Generator.GenerateReturn | Intermediate-Code-Generation/codegen.cpp:141-144 | appends `StmtCode`'s lines and advances the counters as it says |
| Generators.Generator.GenerateHalt | Intermediate-Code-Generation/codegen.cpp:146-148 | appends the single `halt` line |
| Generators.Generator.GenerateStmt | Intermediate-Code-Generation/codegen.cpp:150-162 | appends `StmtCode`'s lines and advances the counters as it says |
| Generators.Generator.GenerateStatements | Intermediate-Code-Generation/codegen.cpp:164-167 | appends `StmtsCode`'s lines and advances the counters as it says |
| Generators.Generator.GenerateBody | Intermediate-Code-Generation/codegen.cpp:169-176 | appends `BodyCode`'s lines and advances the counters as it says |
| Generators.Generator.GenerateProcDef | Intermediate-Code-Generation/codegen.cpp:178-185 | appends `ProcDefCode`'s lines and advances the counters as it says |
| Generators.Generator.GenerateFuncDef | Intermediate-Code-Generation/codegen.cpp:187-194 | appends `FuncDefCode`'s lines and advances the counters as it says |
| Generators.Generator.GenerateMain | Intermediate-Code-Generation/codegen.cpp:196-203 | appends `MainCode`'s lines and advances the counters as it says |
| Generators.Generator.GenerateGlobals | Intermediate-Code-Generation/codegen.cpp:208-210 | appends one `global` line per global, in order, and leaves the counters alone |
| Generators.Generator.GenerateProcDefs | Intermediate-Code-Generation/codegen.cpp:212-214 | appends `ProcDefsCode`'s lines and advances the counters as it says |
| Generators.Generator.GenerateFuncDefs | Intermediate-Code-Generation/codegen.cpp:216-218 | appends `FuncDefsCode`'s lines and advances the counters as it says |
| Generators.Generator.GenerateProgram | Intermediate-Code-Generation/codegen.cpp:205-222 | appends `ProgramCode`'s lines and advances the counters as it says |
| Generators.Generator.GenerateIntermediateCode | Intermediate-Code-Generation/codegen.cpp:225-227 | appends `ProgramCode`'s lines and advances the counters as it says |
| Generators.Translate | Intermediate-Code-Generation/codegen.cpp:205-227 | one run in a fresh process prints `ProgramCode` from zero counters: distinct temporaries in allocation order, each label placed once, every jump to a placed label, every `param` instruction consumed (formal parameters print as `param` lines too) |
| Lexing.Span | spl_lexer.cpp:124-147 | the end of the longest run of characters of a class starting at a position |
| Lexing.Newlines | spl_lexer.cpp:124-131 | the newline count of a text is at most its length |
| Lexing.IdentifierEnd | spl_lexer.cpp:133-139 | the word scanned from a position stays in the text, holds only lower-case letters and digits, and stops before a digit cannot follow |
| Lexing.ScanNumber | spl_lexer.cpp:149-165 | a NUMBER token is the text consumed; the only error is the leading zero, reported one character on; no line is crossed |
| Lexing.ScanString | spl_lexer.cpp:167-181 | a STRING token holds the text between the quotes, at most 15 characters, with the closing quote consumed; the errors are the unterminated and the too-long literal; no line is crossed |
| Lexing.Punctuation | spl_lexer.cpp:99-110 | exactly the seven characters `{ } ( ) ; = >` are one-character tokens, none of them a keyword, word or constant code |
| Lexing.NextToken | spl_lexer.cpp:78-111 | the position never moves back or past the end, the line counter never falls, and EOF comes exactly when only white space is left |
| Lexing.Lookup | spl_lexer.cpp:140-146 | a word keeps its text; it is an IDENTIFIER exactly when it is not in the keyword table, and otherwise carries the keyword's own code |
| Lexing.Lexer.constructor | spl_lexer.cpp:51-76 | the scanner starts at position 0 on line 1, with the 23-entry keyword table |
| Lexing.Lexer.Peek | spl_lexer.cpp:113-118 | the current character, or NUL at or past the end |
| Lexing.Lexer.Advance | spl_lexer.cpp:120-122 | moves one character on and changes nothing else |
| Lexing.Lexer.SkipWhitespace | spl_lexer.cpp:124-131 | stops at the end of the white-space run and adds its newlines to the line counter |
| Lexing.Lexer.Identifier | spl_lexer.cpp:133-147 | consumes lower-case letters then digits and returns `Lookup` of that text |
| Lexing.Lexer.Number | spl_lexer.cpp:149-165 | outcome, position and line as `ScanNumber` gives them |
| Lexing.Lexer.StringLiteral | spl_lexer.cpp:167-181 | outcome, position and line as `ScanString` gives them |
| Lexing.Lexer.GetNextToken | spl_lexer.cpp:78-111 | outcome, position and line as `NextToken` gives them, errors included |
| Lexing.NewlinesAppend | spl_lexer.cpp:124-131 | the newlines of two texts in a row add up |
| Lexing.KeywordsAreReserved | spl_lexer.cpp:51-76 | the scanner's keywords are exactly the validators' reserved words other than `>` |
| Lexing.EndOfInputIffBlank | spl_lexer.cpp:78-84 | the end-of-input token, with an empty value, comes exactly when only white space is left |
| Lexing.TokenTextHasNoSpace | spl_lexer.cpp:78-111 | the text a token consumes after the skipped white space contains no white space |
| Lexing.LinesCountConsumedNewlines | spl_lexer.cpp:78-131 | after a call the line counter has grown by exactly the newlines in the consumed text |
| Lexing.Progress | spl_lexer.cpp:78-111 | end of input leaves the position at the end; every other call, error or not, consumes at least one character |
| Lexing.ValuesAreConsumedText | spl_lexer.cpp:78-165 | a token other than a string constant carries exactly the text it consumed after the white space |
| Lexing.StringValuesAreQuotedText | spl_lexer.cpp:167-181 | a string constant carries exactly the text between the quotes it consumed |
| Lexing.WordsPassValidators | spl_lexer.cpp:133-147 | every IDENTIFIER the scanner returns passes `checkIdentifier`; every keyword token is a reserved word |
| Lexing.ConstantsPassValidators | spl_lexer.cpp:149-181 | every NUMBER passes `checkNumber` and every STRING passes `checkString` |
| Lexing.WordTokens | spl_lexer.cpp:133-147 | a word is the longest run of lower-case letters followed by the longest run of digits, looked up |
| Lexing.NumberTokens | spl_lexer.cpp:149-165 | a leading-zero error exactly when `0` is followed by a digit; otherwise the longest digit run, which is `0` exactly when it starts with `0` |
| Lexing.StringTokens | spl_lexer.cpp:167-181 | unterminated exactly when no quote follows the letter-and-digit run; too long exactly when the run exceeds 15; otherwise the run is the value |
| Lexing.PunctuationTokens | spl_lexer.cpp:95-110 | each of `{ } ( ) ; = >` is its own one-character token, and any other character is an unrecognised-character error |

## Left out

- Null pointers. Node lists are `seq`s and every child is present. In the type checker and in `checkNames` a missing list or child is skipped, so it behaves as an empty one; the type checker's "node is null" messages and `typeCheck`'s null-program branch are not modelled. The emitter is different: `generateStatements` reads `list->elements` without a test (Intermediate-Code-Generation/codegen.cpp:164-167), `generateBody` and `generateMain` read through their node unguarded, and `generateProgram` passes `prog->main` on without a test (Intermediate-Code-Generation/codegen.cpp:220). A missing statement list, body or `main` crashes the emitter, and the model, having no missing parts, does not capture that crash. Codegen's "Unknown expression/statement type" fallback is not modelled either (the datatypes are closed).
- Output streams. Codegen's standard output is the `out: seq<Instr>` field, and `Render` gives each line's text. The validators' messages to standard error are `NameError` values. The type checker's messages are `Diag` values, not formatted strings. Printing helpers are not modelled: `printSymbols`, `printErrors`, `printSymbolTable`, `Token::print`, `tokenTypeToString`, `typeToString` and the AST `print` methods.
- `hasTypeErrors`, `getErrorMessages`, `getSymbols` and `getScopes`: plain field reads, visible in the model as `errors`, `hasErrors` and `scopes`.
- Token codes. The parser's Bison token numbers are replaced by the `TokenKind` datatype, with `EOF` for code 0. A `runtime_error` thrown by the scanner is an `Err(LexError)` result carrying the line number. The scanner's position and line after such an error are modelled too, although the source abandons the scanner at that point.
- Character classes. C's `islower`, `isdigit`, `isalnum` and `isspace` are modelled for the "C" locale: ASCII ranges, with white space being space and codes 9–13. `std::regex` is modelled by the predicates it defines.
- Characters and bytes. A `string` is a sequence of characters, while the C++ `std::string` is a sequence of bytes. `checkString`'s length test and the scanner count characters, so on non-ASCII text (which no pattern accepts) only the choice between the length and the pattern message can differ from the source.
- Integer widths. Codegen's counters are `int` and the line counter is `int`; the model uses unbounded integers, so wrap-around after 2^31 temporaries, labels or lines is not modelled.
- Memory. Destructors, pointer ownership and the sharing of nodes between lists are not modelled.
- Global codegen state. The counters are file-level globals that are never reset, so a second `generateIntermediateCode` in one process continues the numbering. `Generator` methods are specified for any starting counters, and `Translate` states the fresh-process case only.
- Names. The emitter does not keep its temporaries apart from program variables: `CodegenProperties.TempNameIsIdentifier` shows that `t0` is a legal SPL identifier. The well-formedness properties speak about the temporaries the emitter assigns, not about user variables that happen to share their names.
- Other files. `main.cpp`, `lexer_bridge.cpp`, the headers' declarations and the ICG test driver are not part of this model.
- `checkVar`, `checkHalt` and `checkPrint`: folded into their callers. `checkVar` answers NUMERIC for every present variable, and that answer is inlined into `DeclareEach` and `CheckExpression`. `checkHalt` and `checkPrint` are branches of `CheckStatement`. The callers' functions give the same verdicts and messages.
- Typing.ExprCheck: its own contract does not restate its operator and call cases, which are those of `Typing.UnaryCheck`, `Typing.BinaryCheck` and `Typing.CallCheck`; the assignment rule built on it is stated by `TypingProperties.AssignRule` and `AssignCopiesWithoutLookup`.
- Typing.StmtCheck: its own contract states only that success logs nothing. The acceptance rules are the `TypingProperties` lemmas `AssignRule`, `ProcCallRule`, `ReturnRule`, `BooleanConditionRule`, `NonBooleanConditionRejected`, `IfElseChecksBothBranches` and `StmtListFailFast`.
- Typing.ProcCallCheck: its own contract states only that success logs nothing. The acceptance rules are the `TypingProperties` lemmas `AssignRule`, `ProcCallRule`, `ReturnRule`, `BooleanConditionRule`, `NonBooleanConditionRejected`, `IfElseChecksBothBranches` and `StmtListFailFast`.
- Typing.AssignCheck: its own contract states only that success logs nothing. The acceptance rules are the `TypingProperties` lemmas `AssignRule`, `ProcCallRule`, `ReturnRule`, `BooleanConditionRule`, `NonBooleanConditionRejected`, `IfElseChecksBothBranches` and `StmtListFailFast`.
- Typing.IfCheck: its own contract states only that success logs nothing. The acceptance rules are the `TypingProperties` lemmas `AssignRule`, `ProcCallRule`, `ReturnRule`, `BooleanConditionRule`, `NonBooleanConditionRejected`, `IfElseChecksBothBranches` and `StmtListFailFast`.
- Typing.IfElseCheck: its own contract states only that success logs nothing. The acceptance rules are the `TypingProperties` lemmas `AssignRule`, `ProcCallRule`, `ReturnRule`, `BooleanConditionRule`, `NonBooleanConditionRejected`, `IfElseChecksBothBranches` and `StmtListFailFast`.
- Typing.WhileCheck: its own contract states only that success logs nothing. The acceptance rules are the `TypingProperties` lemmas `AssignRule`, `ProcCallRule`, `ReturnRule`, `BooleanConditionRule`, `NonBooleanConditionRejected`, `IfElseChecksBothBranches` and `StmtListFailFast`.
- Typing.DoUntilCheck: its own contract states only that success logs nothing. The acceptance rules are the `TypingProperties` lemmas `AssignRule`, `ProcCallRule`, `ReturnRule`, `BooleanConditionRule`, `NonBooleanConditionRejected`, `IfElseChecksBothBranches` and `StmtListFailFast`.
- Typing.ReturnCheck: its own contract states only that success logs nothing. The acceptance rules are the `TypingProperties` lemmas `AssignRule`, `ProcCallRule`, `ReturnRule`, `BooleanConditionRule`, `NonBooleanConditionRejected`, `IfElseChecksBothBranches` and `StmtListFailFast`.
- Typing.StmtListCheck: its own contract states only that success logs nothing. The acceptance rules are the `TypingProperties` lemmas `AssignRule`, `ProcCallRule`, `ReturnRule`, `BooleanConditionRule`, `NonBooleanConditionRejected`, `IfElseChecksBothBranches` and `StmtListFailFast`.
- Typing.ProcDefsCheck: its own contract states only that success logs nothing. The second pass's rule (every definition checked against the same stack, acceptance exactly when every definition and `main` pass, a stop at the first rejected definition whose messages are the pass's) is stated by `TypingProperties.ProcDefsAllPass`, `ProcDefsFailFast`, `FuncDefsAllPass`, `FuncDefsFailFast` and `DefinitionsRule`.
- Typing.FuncDefsCheck: its own contract states only that success logs nothing. The second pass's rule (every definition checked against the same stack, acceptance exactly when every definition and `main` pass, a stop at the first rejected definition whose messages are the pass's) is stated by `TypingProperties.ProcDefsAllPass`, `ProcDefsFailFast`, `FuncDefsAllPass`, `FuncDefsFailFast` and `DefinitionsRule`.
- Typing.RoutineNamesCheck: its own contract states only the stack depth and that success logs nothing. The pass-by-pass behaviour is stated by `TypingProperties.DeclareRoutinesSpec`, `RoutineNamesClash`, `RoutineClashRejected` and `GlobalProcedureClash`.
- Typing.DefinitionsCheck: its own contract states only that success logs nothing. The second pass's rule (every definition checked against the same stack, acceptance exactly when every definition and `main` pass, a stop at the first rejected definition whose messages are the pass's) is stated by `TypingProperties.ProcDefsAllPass`, `ProcDefsFailFast`, `FuncDefsAllPass`, `FuncDefsFailFast` and `DefinitionsRule`.
- Typing.ProgramCheck: its own contract states only the stack depth and that success logs nothing. The pass-by-pass behaviour is stated by `TypingProperties.DeclareRoutinesSpec`, `RoutineNamesClash`, `RoutineClashRejected` and `GlobalProcedureClash`.
- Codegen.ExprCode: its own contract states only that the counters never move back. What the emitted lines guarantee is stated by the `CodegenProperties` lemmas (`ExprTemps`, `StmtNumbered`, `StmtBalanced`, `ProgramWellFormed` and the rest).
- Codegen.StmtCode: its own contract states only that the counters never move back. What the emitted lines guarantee is stated by the `CodegenProperties` lemmas (`ExprTemps`, `StmtNumbered`, `StmtBalanced`, `ProgramWellFormed` and the rest).
- Codegen.StmtsCode: its own contract states only that the counters never move back. What the emitted lines guarantee is stated by the `CodegenProperties` lemmas (`ExprTemps`, `StmtNumbered`, `StmtBalanced`, `ProgramWellFormed` and the rest).
- Codegen.BodyCode: its own contract states only that the counters never move back. What the emitted lines guarantee is stated by the `CodegenProperties` lemmas (`ExprTemps`, `StmtNumbered`, `StmtBalanced`, `ProgramWellFormed` and the rest).
- Codegen.ProcDefCode: its own contract states only that the counters never move back. What the emitted lines guarantee is stated by the `CodegenProperties` lemmas (`ExprTemps`, `StmtNumbered`, `StmtBalanced`, `ProgramWellFormed` and the rest).
- Codegen.FuncDefCode: its own contract states only that the counters never move back. What the emitted lines guarantee is stated by the `CodegenProperties` lemmas (`ExprTemps`, `StmtNumbered`, `StmtBalanced`, `ProgramWellFormed` and the rest).
- Codegen.MainCode: its own contract states only that the counters never move back. What the emitted lines guarantee is stated by the `CodegenProperties` lemmas (`ExprTemps`, `StmtNumbered`, `StmtBalanced`, `ProgramWellFormed` and the rest).
- Codegen.ProcDefsCode: its own contract states only that the counters never move back. What the emitted lines guarantee is stated by the `CodegenProperties` lemmas (`ExprTemps`, `StmtNumbered`, `StmtBalanced`, `ProgramWellFormed` and the rest).
- Codegen.FuncDefsCode: its own contract states only that the counters never move back. What the emitted lines guarantee is stated by the `CodegenProperties` lemmas (`ExprTemps`, `StmtNumbered`, `StmtBalanced`, `ProgramWellFormed` and the rest).
- Codegen.ProgramCode: its own contract states only that the counters never move back. What the emitted lines guarantee is stated by the `CodegenProperties` lemmas (`ExprTemps`, `StmtNumbered`, `StmtBalanced`, `ProgramWellFormed` and the rest).
