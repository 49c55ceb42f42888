# WLP4 compiler, modelled in Dafny

WLP4 is a small C-like teaching language: one file holds procedures that
return `int`, followed by `wain(a, b)`. The compiler is a chain of five
programs, and each one reads the previous one's output:

1. **scanner** (`wlp4scan`). It cuts each source line into
   whitespace-separated chunks. Each chunk is lexed into tokens: punctuation,
   `==`/`!=`/`<=`/`>=`, keywords, `NUM` with its 31-bit range check, and `ID`.
   A `//` comment ends the line.
2. **parser** (`wlp4parse`). A table-driven LR(1) parser. It wraps the tokens
   in `BOF`/`EOF`, shifts and reduces by its transition and reduction tables,
   and prints the parse tree.
3. **type checker** (`wlp4type`). It builds the symbol table: each
   procedure's parameter types and its variables. It annotates every
   expression with `int` or `int*` and rejects ill-typed programs.
4. **code generator** (`wlp4gen`), which runs these steps in order:
   - an optimizer that folds constants and propagates the known values of
     variables, run until nothing changes;
   - a scan that records every variable whose address is taken with `&`;
   - the generator itself. It keeps locals in registers while the register
     pool lasts and otherwise in frame slots. It emits MIPS assembly: a
     prologue, the procedures, `wain`, and an epilogue.
5. **assembler** (`asm`). Two passes over the tokenized assembly. The first
   builds the label table. The second encodes each instruction and `.word`
   as four big-endian bytes.

The model is one Dafny module per stage and a few shared modules:

| module | stage |
|---|---|
| `Wrappers` | `Option` and `Result` |
| `Scanner` | the scanner |
| `Numerals` | `to_string` of integers |
| `Parser` | the LR driver |
| `Ast` | the typed abstract program |
| `TypeCheck` | the type checker |
| `Int32` | truncating 32-bit arithmetic |
| `Optimizer` | constant folding and propagation |
| `Derefs` | the dereference scan |
| `Codegen` | spec functions that give the assembly for each construct |
| `Allocation` | register and slot allocation |
| `Layout` | labels in the whole program |
| `Generator` | the generator as a class that writes lines |
| `Encoding` | MIPS word formats |
| `Assembler` | both passes |

Where the source changes state step by step, the model does too, and each
imperative part is proved equal to a pure specification function:
- the scanner's loops;
- the parser's stack loop;
- the type checker's symbol-table class;
- the optimizer's variable table;
- the dereference list;
- the generator's output, tables and counters;
- the assembler's passes.

The lemmas then state what the source promises about those functions.

## Model

| member | source | states |
|---|---|---|
| Scanner.Substr | scanner/wlp4scan.cc:141 | `substr(pos, count)` yields at most `count` characters, fewer at the end of the string |
| Scanner.DigitEnd | scanner/wlp4scan.cc:164-170 | the run of digits that starts at k ends at the first non-digit |
| Scanner.IdEnd | scanner/wlp4scan.cc:194-203 | the identifier that starts at k ends at the first character that is neither a letter nor a digit |
| Scanner.MatchKeyword | scanner/wlp4scan.cc:131-157 | the keyword found is the first in table order that fits at i and is spelled there; none is found only when no keyword fits |
| Scanner.LexOperator | scanner/wlp4scan.cc:75-129 | an operator token's lexeme is exactly the text it consumed |
| Scanner.LexNumberOrId | scanner/wlp4scan.cc:163-212 | a NUM or ID token's lexeme is exactly the non-empty text it consumed |
| Scanner.LexWord | scanner/wlp4scan.cc:130-212 | a keyword, number or identifier token spans exactly the text consumed |
| Scanner.Lex | scanner/wlp4scan.cc:22-212 | a comment is reported exactly when `//` starts at i; any token emitted spans the text consumed |
| Scanner.WordEnd | scanner/wlp4scan.cc:19 | a chunk runs to the next whitespace |
| Scanner.Chunks | scanner/wlp4scan.cc:18-20 | `lineStream >> s` yields non-empty chunks without whitespace |
| Scanner.FindKeyword | scanner/wlp4scan.cc:136-157 | the keyword loop finds the same keyword as the first-fit specification |
| Scanner.ScanNumberOrId | scanner/wlp4scan.cc:163-212 | the digit and identifier loops compute the specified token or error |
| Scanner.ScanOperator | scanner/wlp4scan.cc:75-129 | the operator branches compute the specified token or the lone-`!` error |
| Scanner.ScanWord | scanner/wlp4scan.cc:130-212 | the keyword loop, then the digit and identifier loops, compute the specified token or error |
| Scanner.ScanToken | scanner/wlp4scan.cc:22-212 | one token is scanned as specified at a position that starts no comment |
| Scanner.ScanChunk | scanner/wlp4scan.cc:20-213 | the per-chunk loop yields the specified tokens, comment flag or error |
| Scanner.ScanLine | scanner/wlp4scan.cc:15-218 | one line's chunks are scanned until a comment or an error |
| Scanner.Scan | scanner/wlp4scan.cc:11-225 | the whole input is scanned line by line and stops at the first error |
| Scanner.KeywordFacts | scanner/wlp4scan.cc:131-132 | each keyword's token kind is spelled as the keyword; every keyword is letters only |
| Scanner.KeywordsDistinct | scanner/wlp4scan.cc:131 | the ten keywords are pairwise different |
| Scanner.OperatorWellFormed | scanner/wlp4scan.cc:75-129 | every operator token's lexeme is the spelling of its kind |
| Scanner.NumberOrIdWellFormed | scanner/wlp4scan.cc:163-208 | a NUM is digits in range; an ID is a letter and then letters or digits |
| Scanner.LexWellFormed | scanner/wlp4scan.cc:22-212 | every token the lexer emits is well formed for its kind |
| Scanner.SpellingNoSpace | scanner/wlp4scan.cc:31-157 | no fixed spelling contains whitespace |
| Scanner.WellFormedNoSpace | scanner/wlp4scan.cc:144 | a well-formed lexeme contains no whitespace, so the printed `KIND lexeme` line splits back in two |
| Scanner.ChunkCover | scanner/wlp4scan.cc:20-213 | the lexemes of a scanned chunk concatenate back to the chunk's text, up to a comment |
| Scanner.ChunkWellFormed | scanner/wlp4scan.cc:20-213 | every token of a chunk is well formed |
| Scanner.ChunksWellFormed | scanner/wlp4scan.cc:18-218 | every token of a line is well formed |
| Scanner.ProgramWellFormed | scanner/wlp4scan.cc:11-219 | every token of the program is well formed and has no whitespace in its lexeme |
| Scanner.PunctuationRule | scanner/wlp4scan.cc:31-73 | a punctuation character gives its one-character token |
| Scanner.OperatorMunch | scanner/wlp4scan.cc:75-129 | `=`, `!`, `<`, `>` take a following `=` when there is one; a lone `!` is an error |
| Scanner.NoKeywordAtDigit | scanner/wlp4scan.cc:136-157 | no keyword matches at a digit |
| Scanner.NumberRule | scanner/wlp4scan.cc:163-191 | a digit run is a NUM exactly when it is one digit, or at most ten digits with no leading zero and a value of at most 2147483647 |
| Scanner.IdentifierRule | scanner/wlp4scan.cc:193-208 | a letter starts an ID that runs over letters and digits when no keyword matches |
| Scanner.UnrecognizedRule | scanner/wlp4scan.cc:211-212 | any other character is an unrecognized-character error |
| Scanner.OneKeywordAt | scanner/wlp4scan.cc:131-157 | at most one keyword can be spelled as a whole word at a position |
| Scanner.FitsSpelled | scanner/wlp4scan.cc:140-143 | a keyword that fits is spelled there as a whole word |
| Scanner.MatchFirst | scanner/wlp4scan.cc:136-157 | the search returns the first fitting keyword |
| Scanner.IdEndAt | scanner/wlp4scan.cc:199-202 | the identifier run ends at any boundary that follows letters and digits |
| Scanner.LexKeyword | scanner/wlp4scan.cc:144-153 | a matched keyword gives its own token and skips its length |
| Scanner.KeywordIntended | scanner/wlp4scan.cc:140-157 | with the corrected substring a keyword spelled as a whole word anywhere in a chunk is a keyword token |
| Scanner.LexKeywordAsId | scanner/wlp4scan.cc:193-208 | a keyword no table entry matched is lexed as an ID with the keyword's text |
| Scanner.KeywordLetters | scanner/wlp4scan.cc:131 | each keyword starts with a letter and is all letters or digits |
| Scanner.IdentifierRun | scanner/wlp4scan.cc:193-208 | an ID token is the whole maximal run of letters and digits |
| Scanner.KeywordAsWritten | scanner/wlp4scan.cc:141 | as written, a keyword is recognized only at the start of a chunk or when it ends the chunk; elsewhere it becomes an ID |
| Scanner.NoKeywordIds | scanner/wlp4scan.cc:193-208 | with the corrected substring no ID token's lexeme is a keyword |
| Scanner.ElseAfterBrace | scanner/wlp4scan.cc:141 | the chunk `}else{` scans to RBRACE ID LBRACE as written, and to RBRACE ELSE LBRACE when corrected |
| Scanner.BraceChunk | scanner/wlp4scan.cc:20-213 | the chunk `}else{` is `}`, then the token lexed at 1, then `{` |
| Numerals.DigitChar | codegen/wlp4gen.cc:1091 | the digit character has the given value |
| Numerals.Digits | codegen/wlp4gen.cc:1091 | `to_string` of a natural number is a non-empty string of digits |
| Numerals.DigitsRoundTrip | codegen/wlp4gen.cc:1091 | reading the digits of `to_string(n)` gives n back |
| Numerals.DigitsInjective | codegen/wlp4gen.cc:1091-1096 | different counters give different digit strings |
| Numerals.IntTextInjective | codegen/wlp4gen.cc:1019 | different integers give different decimal text |
| Numerals.SignChar | codegen/wlp4gen.cc:1019 | the text starts with `-` exactly for a negative number |
| Parser.Bracket | parser/wlp4parse.cc:204-214 | the input is the tokens between a BOF and an EOF token |
| Parser.FirstTransition | parser/wlp4parse.cc:280-286 | the transition found is the first entry for the symbol; none is found only when no entry has it |
| Parser.FirstReduction | parser/wlp4parse.cc:259-270 | the reduction found is the first entry whose tag is the lookahead or `.ACCEPT`; none is found only when no entry applies |
| Parser.Popped | parser/wlp4parse.cc:313-316 | the pop loop pops at most the right-hand side's length |
| Parser.PopRhsSucceeds | parser/wlp4parse.cc:313-320 | popping succeeds exactly when the right-hand side, up to an `.EMPTY`, is on top of the stack |
| Parser.OnTopStep | parser/wlp4parse.cc:313-320 | a right-hand side is on top exactly when its last symbol is and the rest is on top once that one is popped |
| Parser.PopRhsPops | parser/wlp4parse.cc:313-331 | popping removes the same number of symbols and states; the trees popped become the children, in order |
| Parser.Run | parser/wlp4parse.cc:219-350 | a successful run stops only once the input is consumed and accepted |
| Parser.FindTransition | parser/wlp4parse.cc:280-286 | the transition loop finds the specified first entry |
| Parser.FindReduction | parser/wlp4parse.cc:259-270 | the reduction loop finds the specified first entry |
| Parser.PopLoop | parser/wlp4parse.cc:313-331 | the pop loop computes the specified stacks or error |
| Parser.ParseTokens | parser/wlp4parse.cc:204-371 | the parser's main loop computes the specified parse |
| Parser.Roots | parser/wlp4parse.cc:332-335 | the root symbols of the tree stack, in order |
| Parser.YieldsAppend | parser/wlp4parse.cc:332-334 | the yield of sibling trees is the concatenation of their yields |
| Parser.InitialInv | parser/wlp4parse.cc:205-217 | the stack invariant holds before the first step |
| Parser.ShiftInv | parser/wlp4parse.cc:272-290 | a shift keeps the invariant: tree roots match the symbol stack, and the yields are the consumed input |
| Parser.PopsSplit | parser/wlp4parse.cc:313-331 | the popped trees are a suffix of the tree stack, and what remains is the prefix |
| Parser.PoppedNode | parser/wlp4parse.cc:332-334 | the node built from the popped children is a derivation of the rule |
| Parser.TopDerivation | parser/wlp4parse.cc:332-334 | children that spell the rule's right-hand side make a valid node |
| Parser.RootsSuffix | parser/wlp4parse.cc:313-331 | roots commute with taking a suffix |
| Parser.ReduceShape | parser/wlp4parse.cc:298-342 | a reduction replaces the popped trees with one node and the popped symbols with the left-hand side |
| Parser.ReduceInv | parser/wlp4parse.cc:298-342 | a reduction keeps the stack invariant |
| Parser.PopsInv | parser/wlp4parse.cc:313-335 | popping the right-hand side and pushing the new node keeps the stack invariant |
| Parser.NodeOnTop | parser/wlp4parse.cc:332-335 | pushing the new node keeps roots and yields consistent |
| Parser.NodeYield | parser/wlp4parse.cc:332-335 | replacing the popped children by their new parent leaves the yield unchanged |
| Parser.StepInv | parser/wlp4parse.cc:256-349 | each step of the main loop keeps the invariant |
| Parser.RunInv | parser/wlp4parse.cc:219-350 | the whole run keeps the invariant |
| Parser.ParseYield | parser/wlp4parse.cc:204-371 | a successful parse gives derivation trees whose leaves are exactly BOF, the tokens, EOF; a single tree yields them all |
| TypeCheck.TypesOf | context_sensitive_analysis/wlp4type.cc:496-547 | the argument vector lists each argument's type in order |
| TypeCheck.AnnotateArgs | context_sensitive_analysis/wlp4type.cc:496-547 | annotating the arguments keeps their number |
| TypeCheck.Checker.constructor | context_sensitive_analysis/wlp4type.cc:662-668 | the symbol table starts empty |
| TypeCheck.Checker.TypeArgs | context_sensitive_analysis/wlp4type.cc:496-547 | the argument loop annotates as specified and collects the argument types |
| TypeCheck.Checker.ArgList | context_sensitive_analysis/wlp4type.cc:466-547 | call arguments are checked as specified for count and types |
| TypeCheck.Checker.DeclareDcl | context_sensitive_analysis/wlp4type.cc:304-328 | the table after a declaration, or the duplicate error, is as specified |
| TypeCheck.Checker.ParamList | context_sensitive_analysis/wlp4type.cc:274-303 | parameters are declared in order, and their types are appended to the signature |
| TypeCheck.Checker.Dcls | context_sensitive_analysis/wlp4type.cc:329-358 | initialized declarations are declared and their initializers checked |
| TypeCheck.Checker.Proc | context_sensitive_analysis/wlp4type.cc:247-273 | a procedure is checked exactly as specified: same success, table, annotated tree and error |
| TypeCheck.Checker.MainProc | context_sensitive_analysis/wlp4type.cc:211-246 | wain is checked exactly as specified |
| TypeCheck.Checker.Procedures | context_sensitive_analysis/wlp4type.cc:178-246 | the procedures are checked in order, stopping at the first error |
| TypeCheck.Checker.TypeCheckProgram | context_sensitive_analysis/wlp4type.cc:662-681 | the driver computes the specified table and annotated program or error |
| TypeCheck.PrependedProcsAssoc | context_sensitive_analysis/wlp4type.cc:178-210 | prepending checked procedures is associative |
| TypeCheck.ArgsStep | context_sensitive_analysis/wlp4type.cc:496-547 | the arguments are annotated one at a time and stop at the first error |
| TypeCheck.AdditionRule | context_sensitive_analysis/wlp4type.cc:375-393 | `+` accepts int+int, int*+int and int+int*, and gives int, int* and int* |
| TypeCheck.SubtractionRule | context_sensitive_analysis/wlp4type.cc:394-410 | `-` accepts int-int, int*-int and int*-int*, and gives int, int* and int |
| TypeCheck.MultiplicativeRule | context_sensitive_analysis/wlp4type.cc:411-426 | `*`, `/` and `%` accept only int operands, and give int |
| TypeCheck.PointerRules | context_sensitive_analysis/wlp4type.cc:427-457 | `&` needs an int lvalue and gives int*; `*` needs int* and gives int; `new int[e]` needs int and gives int* |
| TypeCheck.IdentifierRule | context_sensitive_analysis/wlp4type.cc:359-374 | an identifier has its declared type in the current procedure, and is an error when undeclared |
| TypeCheck.CallRule | context_sensitive_analysis/wlp4type.cc:466-547 | a call needs a declared procedure, the right number of well-typed arguments, and each argument's type equal to the declared type of the parameter at its position; it gives int |
| TypeCheck.StatementRules | context_sensitive_analysis/wlp4type.cc:577-659 | assignment needs equal types; a test needs equal types; println needs int; delete needs int* |
| TypeCheck.DeclareRule | context_sensitive_analysis/wlp4type.cc:304-328 | a declaration fails exactly on a duplicate name; otherwise it adds only that name with its type |
| TypeCheck.ExprSound | context_sensitive_analysis/wlp4type.cc:375-410 | a successfully annotated expression satisfies the typing rules, and only its types changed |
| TypeCheck.TermSound | context_sensitive_analysis/wlp4type.cc:411-426 | the same for terms |
| TypeCheck.FactorSound | context_sensitive_analysis/wlp4type.cc:427-576 | the same for factors |
| TypeCheck.ArgsSound | context_sensitive_analysis/wlp4type.cc:496-547 | the same for argument lists |
| TypeCheck.LvalueSound | context_sensitive_analysis/wlp4type.cc:359-374 | the same for lvalues |
| TypeCheck.StmtSound | context_sensitive_analysis/wlp4type.cc:577-659 | the same for statements |
| TypeCheck.StmtsSound | context_sensitive_analysis/wlp4type.cc:577-590 | the same for statement lists |
| TypeCheck.ExprComplete | context_sensitive_analysis/wlp4type.cc:375-410 | a well-typed, correctly annotated expression is accepted unchanged |
| TypeCheck.TermComplete | context_sensitive_analysis/wlp4type.cc:411-426 | the same for terms |
| TypeCheck.FactorComplete | context_sensitive_analysis/wlp4type.cc:427-576 | the same for factors |
| TypeCheck.ArgsComplete | context_sensitive_analysis/wlp4type.cc:496-547 | the same for argument lists |
| TypeCheck.LvalueComplete | context_sensitive_analysis/wlp4type.cc:359-374 | the same for lvalues |
| TypeCheck.StmtComplete | context_sensitive_analysis/wlp4type.cc:577-659 | the same for statements |
| TypeCheck.StmtsComplete | context_sensitive_analysis/wlp4type.cc:577-590 | the same for statement lists |
| TypeCheck.AnnotateIdempotent | context_sensitive_analysis/wlp4type.cc:577-659 | annotating an annotated body again changes nothing |
| TypeCheck.DclNames | context_sensitive_analysis/wlp4type.cc:274-303 | the parameter names in order |
| TypeCheck.ParamTypes | context_sensitive_analysis/wlp4type.cc:274-303 | the parameter types in order, as the signature stores them |
| TypeCheck.InitNames | context_sensitive_analysis/wlp4type.cc:329-358 | the declared local names in order |
| TypeCheck.InitTypes | context_sensitive_analysis/wlp4type.cc:329-358 | the declared local types in order |
| TypeCheck.ProcNames | context_sensitive_analysis/wlp4type.cc:247-273 | the procedure names in order |
| TypeCheck.FreshCons | context_sensitive_analysis/wlp4type.cc:319-320 | a name list is distinct and fresh exactly when its head is new and its tail is distinct and fresh after the head |
| TypeCheck.ElemsCons | context_sensitive_analysis/wlp4type.cc:319-320 | the names of a list are its head and the names of its tail |
| TypeCheck.DistinctAppend | context_sensitive_analysis/wlp4type.cc:319-320 | distinct lists with disjoint names append to a distinct list |
| TypeCheck.ExtendsCons | context_sensitive_analysis/wlp4type.cc:304-328 | declaring a head and then a tail extends the table by the whole list |
| TypeCheck.DeclareParamsSpec | context_sensitive_analysis/wlp4type.cc:274-328 | the parameters are accepted exactly when their names are distinct and new; the table then gains exactly them, and the signature gains their types |
| TypeCheck.DeclareInitsSpec | context_sensitive_analysis/wlp4type.cc:329-358 | the locals are accepted exactly when their names are distinct, new and their initializers fit the types (`int` = NUM, `int*` = NULL); the table then gains exactly them |
| TypeCheck.ExtendsTrans | context_sensitive_analysis/wlp4type.cc:247-273 | two extensions compose |
| TypeCheck.ElemsAppend | context_sensitive_analysis/wlp4type.cc:319-320 | the names of an appended list are the union |
| TypeCheck.DeclareProcedureRule | context_sensitive_analysis/wlp4type.cc:247-273 | a second procedure with the same name is an error; an accepted one has distinct parameter and local names |
| TypeCheck.DeclareProcedureTable | context_sensitive_analysis/wlp4type.cc:247-273 | declaring a procedure adds exactly its entry, with its parameter types |
| TypeCheck.BodyRule | context_sensitive_analysis/wlp4type.cc:262-272 | an accepted body is well typed, and its return expression is an int |
| TypeCheck.PairElems | context_sensitive_analysis/wlp4type.cc:211-246 | the names of wain's two parameters |
| TypeCheck.DeclareMainRule | context_sensitive_analysis/wlp4type.cc:211-246 | wain's second parameter is an int; its parameter and local names are distinct; it adds exactly its own entry |
| TypeCheck.ProceduresStep | context_sensitive_analysis/wlp4type.cc:178-210 | the procedures are checked first to last, each against the table the earlier ones built |
| TypeCheck.ProceduresTable | context_sensitive_analysis/wlp4type.cc:178-273 | accepted procedures have distinct, new names; the table gains exactly them with their signatures |
| TypeCheck.ProceduresShape | context_sensitive_analysis/wlp4type.cc:247-273 | the checked procedures keep their names and return int |
| TypeCheck.ProgramRule | context_sensitive_analysis/wlp4type.cc:178-273 | an accepted program has distinct procedure names, each with its signature in the table, and wain's second parameter is an int |
| Int32.Wrap | codegen/wlp4gen.cc:332 | the 32-bit two's-complement value congruent to x, which is x itself when in range |
| Int32.Abs | codegen/wlp4gen.cc:359 | the magnitude is non-negative |
| Int32.QuotRem | codegen/wlp4gen.cc:359-386 | C++ `/` and `%` truncate toward zero: `a == b*q + r`, `|r| < |b|`, and r carries the sign of a |
| Int32.DivMod | codegen/wlp4gen.cc:359-386 | the Euclidean facts the truncating definitions build on |
| Int32.SignedProduct | codegen/wlp4gen.cc:359 | signed scaling of a quotient by the divisor |
| Int32.Negate | codegen/wlp4gen.cc:359 | negation moves across a product |
| Int32.TruncatedExample | codegen/wlp4gen.cc:359-386 | -7 / 2 is -3 and -7 % 2 is -1 in C++, unlike Euclidean division |
| Optimizer.OptExpr | codegen/wlp4gen.cc:406-467 | folding an expression, under either rule, keeps its type |
| Optimizer.SumNode | codegen/wlp4gen.cc:406-467 | a folded sum has the sum's type, whether folded as written (any operand types) or as intended (two ints) |
| Optimizer.OptTerm | codegen/wlp4gen.cc:324-405 | folding a term keeps its type |
| Optimizer.ProductNode | codegen/wlp4gen.cc:324-405 | a folded product has the product's type |
| Optimizer.OptFactor | codegen/wlp4gen.cc:560-592 | propagating into a factor keeps its type |
| Optimizer.OptArgs | codegen/wlp4gen.cc:585-592 | arguments keep their number |
| Optimizer.OptLvalue | codegen/wlp4gen.cc:585-592 | an lvalue keeps its type |
| Optimizer.OptStmts | codegen/wlp4gen.cc:494-556 | statement lists keep their length |
| Optimizer.OptProcedures | codegen/wlp4gen.cc:483-492 | the procedures keep their number |
| Optimizer.ExprShrinks | codegen/wlp4gen.cc:406-467 | a pass that reports a change makes the expression strictly smaller; one that does not leaves it untouched |
| Optimizer.SumShrinks | codegen/wlp4gen.cc:408-466 | the same for folding one sum |
| Optimizer.ProductShrinks | codegen/wlp4gen.cc:324-405 | the same for folding one product |
| Optimizer.LiteralSizes | codegen/wlp4gen.cc:324-467 | a literal expression or term has a fixed small size |
| Optimizer.TermShrinks | codegen/wlp4gen.cc:324-405 | the change flag means a strictly smaller term |
| Optimizer.FactorShrinks | codegen/wlp4gen.cc:560-592 | the change flag means a strictly smaller factor |
| Optimizer.ArgsShrinks | codegen/wlp4gen.cc:585-592 | the change flag means strictly smaller arguments |
| Optimizer.LvalueShrinks | codegen/wlp4gen.cc:585-592 | the change flag means a strictly smaller lvalue |
| Optimizer.TestShrinks | codegen/wlp4gen.cc:585-592 | the change flag means a strictly smaller test |
| Optimizer.StmtShrinks | codegen/wlp4gen.cc:494-556 | the change flag means a strictly smaller statement |
| Optimizer.StmtsShrinks | codegen/wlp4gen.cc:494-556 | the change flag means a strictly smaller statement list |
| Optimizer.BodyShrinks | codegen/wlp4gen.cc:472-492 | a changed body and return are strictly smaller together |
| Optimizer.ProceduresShrinks | codegen/wlp4gen.cc:483-492 | the change flag means strictly smaller procedures |
| Optimizer.ProgramShrinks | codegen/wlp4gen.cc:300-593 | a pass reports a change exactly when it changed the tree, and then the tree is strictly smaller, so the driver loop ends |
| Optimizer.FixpointStable | codegen/wlp4gen.cc:1586-1592 | the tree the driver loop stops at is left unchanged by one more pass |
| Optimizer.ExprSound | codegen/wlp4gen.cc:406-467 | under the intended rule, in any store that agrees with the variable table, the folded expression has the original's 32-bit value |
| Optimizer.TermSound | codegen/wlp4gen.cc:324-405 | the same for terms, with C++ truncating `/` and `%` and division by zero left unfolded |
| Optimizer.FactorSound | codegen/wlp4gen.cc:560-592 | the same for factors, including propagated constants |
| Optimizer.SumSound | codegen/wlp4gen.cc:408-466 | folding `int + int` and `int - int` literals keeps the value |
| Optimizer.LiteralFacts | codegen/wlp4gen.cc:324-467 | a literal evaluates to its 32-bit value and names no variable |
| Optimizer.ProductSound | codegen/wlp4gen.cc:324-405 | folding `*`, `/` and `%` literals keeps the value |
| Optimizer.PointerSumAsWritten | codegen/wlp4gen.cc:408-436 | as written, a pass over `p + 1` with p known to be 1 yields the literal 2, while the store that agrees with the table gives the sum 5; the intended pass propagates p and keeps the sum |
| Optimizer.QuotInRange | codegen/wlp4gen.cc:353-405 | a quotient and remainder of in-range operands (except MIN / -1) are in range |
| Optimizer.ScaleAtLeastTwo | codegen/wlp4gen.cc:324-351 | an arithmetic helper for the size argument |
| Optimizer.ProductFold | codegen/wlp4gen.cc:324-405 | two int literals fold: the 32-bit product, the truncated quotient or remainder, and no fold when the divisor is 0 |
| Optimizer.QuotientFold | codegen/wlp4gen.cc:324-405 | a defined, non-overflowing division of two literals folds to the truncated quotient or the C++ remainder |
| Optimizer.SumFold | codegen/wlp4gen.cc:406-467 | two literals fold to the wrapped sum or difference: as written whatever their types, as intended only when both are ints, a pointer operand otherwise left unfolded |
| Optimizer.RemainingUnion | codegen/wlp4gen.cc:560-583 | the names left after propagation distribute over union |
| Optimizer.ExprIds | codegen/wlp4gen.cc:560-583 | after a pass, an expression names exactly the variables that were not replaced by constants |
| Optimizer.TermIds | codegen/wlp4gen.cc:560-583 | the same for terms |
| Optimizer.FactorIds | codegen/wlp4gen.cc:560-583 | the same for factors |
| Optimizer.ArgsIds | codegen/wlp4gen.cc:560-583 | the same for arguments |
| Optimizer.LvalueIds | codegen/wlp4gen.cc:560-583 | the same for lvalues |
| Optimizer.PropagationRule | codegen/wlp4gen.cc:560-583 | inside a loop or branch nothing is propagated; at the top level a variable is replaced exactly when it is clean |
| Optimizer.AssignKeepsAgrees | codegen/wlp4gen.cc:494-521 | under the intended rule, which unwraps parenthesized targets, an assignment keeps the variable table in agreement with the store |
| Optimizer.ParenAssignAsWritten | codegen/wlp4gen.cc:498-518 | as written, `(x) = 5` leaves x recorded as clean with its old value, so a later use of x reads the stale constant; the intended table records 5 |
| Optimizer.DclNamesLast | codegen/wlp4gen.cc:218-239 | the names declared so far, split at the last one |
| Optimizer.SeedKeys | codegen/wlp4gen.cc:218-239 | the variable table after the declarations holds exactly the old names and the declared ones |
| Optimizer.SeedEarliest | codegen/wlp4gen.cc:218-239 | a declared variable starts clean with its initial value |
| Optimizer.ForgetsTrans | codegen/wlp4gen.cc:494-556 | dirtying composes over statements |
| Optimizer.NestedStmtForgets | codegen/wlp4gen.cc:494-556 | inside a loop or branch, a statement only marks its assigned variables dirty |
| Optimizer.NestedStmtsForgets | codegen/wlp4gen.cc:523-556 | the same for a nested statement list |
| Optimizer.TreeOptimizer.constructor | codegen/wlp4gen.cc:1586 | the variable table starts empty at nesting level 0, with the rule the passes follow |
| Optimizer.TreeOptimizer.AddDcls | codegen/wlp4gen.cc:218-239 | the declarations are recorded as specified |
| Optimizer.TreeOptimizer.OptimizeStmt | codegen/wlp4gen.cc:494-556 | a statement is optimized as specified for the optimizer's rule, and the table updated likewise |
| Optimizer.TreeOptimizer.OptimizeStmts | codegen/wlp4gen.cc:494-556 | a statement list is optimized as specified |
| Optimizer.TreeOptimizer.OptimizeProcedure | codegen/wlp4gen.cc:483-492 | a procedure is optimized as specified, and the table is then cleared |
| Optimizer.TreeOptimizer.OptimizeMain | codegen/wlp4gen.cc:472-481 | wain is optimized as specified |
| Optimizer.TreeOptimizer.OptimizeProcedures | codegen/wlp4gen.cc:300-492 | the procedures are optimized in order as specified |
| Optimizer.TreeOptimizer.OptimizeProgram | codegen/wlp4gen.cc:300-593 | one pass over the program as specified |
| Optimizer.TreeOptimizer.Optimize | codegen/wlp4gen.cc:1586-1592 | the driver loop ends at the fixpoint, where a further pass changes nothing |
| Derefs.Unwrap | codegen/wlp4gen.cc:604-616 | the lvalue left after removing every parenthesis wrapper |
| Derefs.AddrNamesUnion | codegen/wlp4gen.cc:595-625 | the names whose address is taken distribute over union |
| Derefs.ExprScan | codegen/wlp4gen.cc:595-625 | the names that the scan records for an expression are among those whose address an `&` takes; with the corrected rule they are exactly those |
| Derefs.TermScan | codegen/wlp4gen.cc:595-625 | the same for terms |
| Derefs.FactorScan | codegen/wlp4gen.cc:595-625 | the same for factors |
| Derefs.AddrScan | codegen/wlp4gen.cc:601-618 | the same for the operand of an `&`, including its own name |
| Derefs.ArgsScan | codegen/wlp4gen.cc:595-625 | the same for arguments |
| Derefs.LvalueScan | codegen/wlp4gen.cc:595-625 | the same for lvalues |
| Derefs.TestScan | codegen/wlp4gen.cc:595-625 | the same for tests |
| Derefs.StmtScan | codegen/wlp4gen.cc:595-625 | the same for statements |
| Derefs.StmtsScan | codegen/wlp4gen.cc:595-625 | the same for statement lists |
| Derefs.BodyScan | codegen/wlp4gen.cc:595-625 | the same for a body and its return |
| Derefs.ProgramScan | codegen/wlp4gen.cc:595-625 | for the whole program: the scan records only address-taken names, and with the corrected rule all of them |
| Derefs.AddrOfDerefAsWritten | codegen/wlp4gen.cc:601-618 | as written, `&*&x` records nothing although x's address is taken |
| Derefs.DerefScanner.constructor | codegen/wlp4gen.cc:1596 | the list starts empty |
| Derefs.DerefScanner.Contains | codegen/wlp4gen.cc:257-267 | the membership loop answers exactly whether the name is in the list |
| Derefs.DerefScanner.ScanExpr | codegen/wlp4gen.cc:595-625 | appends to the list exactly the names the specification records for the expression |
| Derefs.DerefScanner.ScanTerm | codegen/wlp4gen.cc:595-625 | the same for terms |
| Derefs.DerefScanner.ScanFactor | codegen/wlp4gen.cc:595-625 | the same for factors |
| Derefs.DerefScanner.ScanAddr | codegen/wlp4gen.cc:601-618 | the same for the operand of an `&` |
| Derefs.DerefScanner.ScanArgs | codegen/wlp4gen.cc:620-624 | the same for arguments |
| Derefs.DerefScanner.ScanLvalue | codegen/wlp4gen.cc:620-624 | the same for lvalues |
| Derefs.DerefScanner.ScanStmt | codegen/wlp4gen.cc:620-624 | the same for statements |
| Derefs.DerefScanner.ScanStmts | codegen/wlp4gen.cc:620-624 | the same for statement lists |
| Derefs.DerefScanner.ScanProcedures | codegen/wlp4gen.cc:620-624 | the same for the procedures |
| Derefs.DerefScanner.ScanProgram | codegen/wlp4gen.cc:1596 | the same for the whole program |
| Codegen.KindOfText | codegen/wlp4gen.cc:1089-1135 | a label's prefix identifies its kind |
| Codegen.LabelRoundTrip | codegen/wlp4gen.cc:847-1135 | every generated label's text reads back as that label |
| Codegen.LabelTextInjective | codegen/wlp4gen.cc:847-1135 | different labels have different text, so defining distinct labels never clashes in the assembler |
| Codegen.DeltaAppend | codegen/wlp4gen.cc:671-681 | the net stack words of appended code add |
| Codegen.PushPopDelta | codegen/wlp4gen.cc:671-681 | push moves the stack one word down, pop one up |
| Codegen.PopsDelta | codegen/wlp4gen.cc:1450-1456 | n pops move the stack n words up |
| Codegen.QuietDelta | codegen/wlp4gen.cc:671-681 | code without `$30` adjustments leaves the stack in place |
| Codegen.OperandsDelta | codegen/wlp4gen.cc:1155-1178 | loading two operands leaves the stack as it was |
| Codegen.SumDelta | codegen/wlp4gen.cc:1152-1311 | every sum and difference leaves the stack as it was |
| Codegen.PointerPlusIntDelta | codegen/wlp4gen.cc:1191-1219 | `int* ± int` is balanced whichever sides are in registers |
| Codegen.IntPlusPointerDelta | codegen/wlp4gen.cc:1221-1249 | `int + int*` is balanced whichever sides are in registers |
| Codegen.PointerDifferenceDelta | codegen/wlp4gen.cc:1282-1310 | `int* - int*` is balanced whichever sides are in registers |
| Codegen.BinaryDelta | codegen/wlp4gen.cc:1155-1178 | two balanced operands followed by code without `$30` adjustments are balanced |
| Codegen.BothComputed | codegen/wlp4gen.cc:1155-1178 | computing both sides with a push and a pop in between is balanced |
| Codegen.Sandwich | codegen/wlp4gen.cc:1152-1311 | balanced code between quiet code is balanced |
| Codegen.ExprDelta | codegen/wlp4gen.cc:1139-1311 | every expression's code leaves `$30` where it found it |
| Codegen.TermDelta | codegen/wlp4gen.cc:1313-1359 | every term's code is balanced |
| Codegen.FactorDelta | codegen/wlp4gen.cc:1361-1482 | every factor's code is balanced |
| Codegen.ExternDelta | codegen/wlp4gen.cc:1469-1482 | calling a runtime routine with `$31` saved is balanced |
| Codegen.NewDelta | codegen/wlp4gen.cc:1469-1482 | `new int[e]` is balanced |
| Codegen.CallDelta | codegen/wlp4gen.cc:1430-1460 | a call pops exactly the arguments it pushed, and `$29` and `$31` |
| Codegen.AddrDelta | codegen/wlp4gen.cc:1394-1428 | taking an address is balanced |
| Codegen.ShadowedCallAsWritten | codegen/wlp4gen.cc:630-669 | as written, `foo() + b` with a register-bound variable foo in $1 and b in $2 resolves the call factor to $1 and is lowered to the single line `add $3, $1, $2`, so foo is never called |
| Codegen.ArgsDelta | codegen/wlp4gen.cc:758-771 | the argument code pushes exactly one word per argument |
| Codegen.TestDelta | codegen/wlp4gen.cc:1494-1577 | every comparison is balanced |
| Codegen.CompareQuiet | codegen/wlp4gen.cc:1494-1577 | the comparison lines never adjust `$30` |
| Codegen.AssignDelta | codegen/wlp4gen.cc:1029-1084 | every assignment is balanced |
| Codegen.IfDelta | codegen/wlp4gen.cc:1086-1097 | an if statement with balanced parts is balanced |
| Codegen.WhileDelta | codegen/wlp4gen.cc:1099-1109 | a while loop with a balanced body is balanced |
| Codegen.PrintlnDelta | codegen/wlp4gen.cc:1111-1121 | println is balanced |
| Codegen.DeleteDelta | codegen/wlp4gen.cc:1123-1137 | delete is balanced on the path that calls the runtime |
| Codegen.StmtDelta | codegen/wlp4gen.cc:1029-1137 | in every statement's code, counted line by line over all paths, the `$30` decrements and increments cancel (the net count of `$30` adjustments is zero) |
| Codegen.IfStmtDelta | codegen/wlp4gen.cc:1086-1097 | an if statement with any test and branches is balanced |
| Codegen.WhileStmtDelta | codegen/wlp4gen.cc:1099-1109 | a while loop with any test and body is balanced |
| Codegen.IfUnfold | codegen/wlp4gen.cc:1086-1097 | an if statement takes the label counter, lowers its then-branch from the next number and its else-branch after that |
| Codegen.WhileUnfold | codegen/wlp4gen.cc:1099-1109 | a while loop takes the label counter and lowers its body from the next number |
| Codegen.StmtsDelta | codegen/wlp4gen.cc:1024-1027 | in every statement list's code the net count of `$30` adjustments is zero |
| Codegen.LabelsAppend | codegen/wlp4gen.cc:1086-1137 | the labels defined and targeted by appended code are the concatenation and union |
| Codegen.DefinedAppend | codegen/wlp4gen.cc:1086-1137 | the labels defined by appended code are the concatenation of both parts' |
| Codegen.TargetsAppend | codegen/wlp4gen.cc:1086-1137 | the labels targeted by appended code are the union of both parts' |
| Codegen.StraightLabels | codegen/wlp4gen.cc:1139-1482 | code without labels defines and targets none |
| Codegen.OperandsStraight | codegen/wlp4gen.cc:1155-1178 | loading operands has no labels or branches |
| Codegen.StraightAppend | codegen/wlp4gen.cc:1139-1482 | straight code appends to straight code |
| Codegen.SumStraight | codegen/wlp4gen.cc:1152-1311 | sums have no labels or branches |
| Codegen.ExprStraight | codegen/wlp4gen.cc:1139-1311 | no expression defines a label or branches to one |
| Codegen.TermStraight | codegen/wlp4gen.cc:1313-1359 | the same for terms |
| Codegen.FactorStraight | codegen/wlp4gen.cc:1361-1482 | the same for factors; `new` skips with a fixed offset, not a label |
| Codegen.NewStraight | codegen/wlp4gen.cc:1469-1482 | `new int[e]` adds no labels or branches to its operand's code |
| Codegen.CallStraight | codegen/wlp4gen.cc:1430-1460 | a call adds no labels or branches to its arguments' code |
| Codegen.PopsStraight | codegen/wlp4gen.cc:1450-1456 | pops have no labels |
| Codegen.AddrStraight | codegen/wlp4gen.cc:1394-1428 | address code has no labels |
| Codegen.ArgsStraight | codegen/wlp4gen.cc:758-771 | argument code has no labels |
| Codegen.TestStraight | codegen/wlp4gen.cc:1494-1577 | comparisons have no labels |
| Codegen.AssignStraight | codegen/wlp4gen.cc:1029-1084 | assignments have no labels |
| Codegen.DistinctConcat | codegen/wlp4gen.cc:1086-1109 | distinct disjoint label lists concatenate to a distinct list |
| Codegen.Compose | codegen/wlp4gen.cc:1024-1027 | code labelled over consecutive counter ranges is labelled over their union |
| Codegen.StraightLabelled | codegen/wlp4gen.cc:1139-1482 | straight code is well labelled without using a counter |
| Codegen.LineLabels | codegen/wlp4gen.cc:1086-1137 | the labels of a single line |
| Codegen.PairLabels | codegen/wlp4gen.cc:1086-1137 | the labels of two lines |
| Codegen.IfShape | codegen/wlp4gen.cc:1086-1097 | an if statement defines its branches' labels plus `else n` and `endif n`, and targets exactly those plus the branches' targets |
| Codegen.IfLabels | codegen/wlp4gen.cc:1086-1097 | an if statement is well labelled when its then-branch starts after the counter it took |
| Codegen.WhileShape | codegen/wlp4gen.cc:1099-1109 | a while loop defines `loop n`, its body's labels and `endWhile n`, and targets those |
| Codegen.WhileLabels | codegen/wlp4gen.cc:1099-1109 | a while loop is well labelled |
| Codegen.DeleteLabels | codegen/wlp4gen.cc:1123-1137 | delete defines `skipDelete k` from its own counter and is well labelled |
| Codegen.StmtLabels | codegen/wlp4gen.cc:1086-1137 | every statement defines each label once, numbered from the counters it consumed, and defines every label it branches to |
| Codegen.IfStmtLabels | codegen/wlp4gen.cc:1086-1097 | an if statement defines each label once, from the counters it consumed, and every label it branches to |
| Codegen.WhileStmtLabels | codegen/wlp4gen.cc:1099-1109 | the same for a while loop |
| Codegen.StmtsLabels | codegen/wlp4gen.cc:1024-1027 | the same for statement lists |
| Allocation.DeclareOk | codegen/wlp4gen.cc:1004-1021 | a declaration keeps the frame facts |
| Allocation.InitDclSound | codegen/wlp4gen.cc:932-1000 | an initialized local takes a pool register unless `&` names it; registers stay distinct and from the pool, and address-taken locals live in the frame |
| Allocation.DclsSound | codegen/wlp4gen.cc:932-1000 | the same for all declarations |
| Allocation.ParamsOk | codegen/wlp4gen.cc:917-929 | parameters take slots only and leave registers untouched |
| Allocation.ShiftApart | codegen/wlp4gen.cc:774-783 | shifting every offset keeps the slots apart |
| Allocation.ProcedureSound | codegen/wlp4gen.cc:842-874 | after a procedure, the register and slot facts hold and its slots are apart |
| Allocation.ProceduresSound | codegen/wlp4gen.cc:836-874 | the facts hold across all procedures |
| Allocation.BindWainOk | codegen/wlp4gen.cc:885-905 | wain's parameters are bound to `$1` and `$2` or to slots |
| Allocation.DclsWainOk | codegen/wlp4gen.cc:906-910 | wain's declarations keep the facts |
| Allocation.DclsFrameOk | codegen/wlp4gen.cc:932-1000 | declarations keep slots apart |
| Allocation.MainSound | codegen/wlp4gen.cc:876-915 | after wain, the allocation facts hold |
| Allocation.ProgramSound | codegen/wlp4gen.cc:826-915 | the allocation facts hold for the whole program |
| Allocation.InitialSound | codegen/wlp4gen.cc:97-100 | generation starts with no bindings and a distinct pool |
| Allocation.PoolDistinct | codegen/wlp4gen.cc:100 | the free register pool holds no register twice |
| Allocation.DistinctSplit | context_sensitive_analysis/wlp4type.cc:319-320 | a distinct list splits into disjoint distinct parts |
| Allocation.ParamSlots | codegen/wlp4gen.cc:917-929 | parameter i gets the slot `-4i` and the offset moves down by 4 per parameter |
| Allocation.Front | codegen/wlp4gen.cc:932-1000 | facts about the declarations before the last |
| Allocation.DclsTables | codegen/wlp4gen.cc:932-1000 | after the declarations, each local is in a register or a slot as the pool and the scan decide |
| Allocation.InitDclDelta | codegen/wlp4gen.cc:932-1000 | a local pushes exactly one word when it goes to the frame, none when it takes a register |
| Allocation.DclsPushes | codegen/wlp4gen.cc:932-1000 | the locals kept in the frame are pushed in declaration order, and the j-th sits at offset `-4j` |
| Allocation.ProcedureFrame | codegen/wlp4gen.cc:842-929 | parameter i of n sits at `4(n-i)`, where the caller's push wrote it; the j-th stacked local at `-4j`; address-taken locals are in the frame; with bindings dropped no name is both in a register and a slot |
| Allocation.StackWordsAppend | codegen/wlp4gen.cc:671-681 | the registers saved and restored by appended code concatenate |
| Allocation.PushPopWords | codegen/wlp4gen.cc:671-681 | a push saves its register; a pop restores it |
| Allocation.GuardedWords | codegen/wlp4gen.cc:683-716 | a conditional push or pop saves or restores only when its guard holds |
| Allocation.QuietWords | codegen/wlp4gen.cc:683-716 | code without loads or stores saves and restores nothing |
| Allocation.ParamPushes | codegen/wlp4gen.cc:692-697 | the prologue pushes exactly wain's address-taken parameters |
| Allocation.HeadQuiet | codegen/wlp4gen.cc:683-691 | the start of the prologue saves nothing |
| Allocation.TailQuiet | codegen/wlp4gen.cc:698-705 | the end of the prologue saves nothing |
| Allocation.PrologueSaves | codegen/wlp4gen.cc:683-705 | the prologue saves exactly wain's address-taken parameters |
| Allocation.BetweenQuiet | codegen/wlp4gen.cc:683-716 | quiet code around a part saves what the part saves |
| Allocation.EpilogueRestores | codegen/wlp4gen.cc:707-716 | the epilogue restores the same registers in reverse order |
| Allocation.WainSaveRestore | codegen/wlp4gen.cc:683-716 | the epilogue undoes the prologue's pushes in reverse order, so the stack is balanced |
| Allocation.WainParams | codegen/wlp4gen.cc:885-905 | an address-taken parameter of wain takes the slot its prologue push wrote |
| Allocation.WainFrame | codegen/wlp4gen.cc:876-910 | wain's parameters and stacked locals sit at the words their pushes wrote |
| Allocation.StaleBindingAsWritten | codegen/wlp4gen.cc:842-846 | as written, a local bound to `$8` in one procedure shadows a later procedure's parameter of the same name; dropping the bindings reads the argument from the frame |
| Layout.Join | codegen/wlp4gen.cc:836-840 | two labelled parts with disjoint entry labels join into one |
| Layout.EntryLine | codegen/wlp4gen.cc:847 | a procedure's label line is labelled by that label |
| Layout.Around | codegen/wlp4gen.cc:842-874 | straight code around well-labelled code keeps it well labelled |
| Layout.DclsStraight | codegen/wlp4gen.cc:932-1000 | declarations emit no labels |
| Layout.StackStraight | codegen/wlp4gen.cc:849-870 | saving and restoring `$5`-`$7` emits no labels |
| Layout.ProcedureShape | codegen/wlp4gen.cc:842-874 | a procedure's code defines its entry label and the body's labels |
| Layout.MainShape | codegen/wlp4gen.cc:876-915 | wain's code defines `wain` and the body's labels |
| Layout.ProcedureLabels | codegen/wlp4gen.cc:842-874 | each procedure is labelled by `F` plus its name |
| Layout.Heads | codegen/wlp4gen.cc:847 | the entry labels of the procedures, in order |
| Layout.ProceduresLabels | codegen/wlp4gen.cc:836-874 | distinct procedure names give distinct entry labels, and all procedures are labelled together |
| Layout.HeadsSplit | codegen/wlp4gen.cc:836-847 | with distinct procedure names the first entry label recurs nowhere after it |
| Layout.HeapStraight | codegen/wlp4gen.cc:718-738 | the heap initialization emits no labels |
| Layout.MainLabels | codegen/wlp4gen.cc:876-915 | wain is labelled by `wain` |
| Layout.PrologueLabels | codegen/wlp4gen.cc:683-705 | the prologue defines nothing and branches only to `wain` |
| Layout.EpilogueLabels | codegen/wlp4gen.cc:707-716 | the epilogue has no labels |
| Layout.BodyLabels | codegen/wlp4gen.cc:826-915 | the procedures and wain together are labelled |
| Layout.Wrapped | codegen/wlp4gen.cc:1598-1603 | the prologue and epilogue add no label definitions |
| Layout.ClosedParts | codegen/wlp4gen.cc:1598-1603 | a labelled body inside them is closed |
| Layout.MainDefined | codegen/wlp4gen.cc:881 | wain's code defines `wain` |
| Layout.ProgramClosed | codegen/wlp4gen.cc:1598-1603 | the generated program defines each label once and defines every label it branches to |
| Layout.ProgramEntries | codegen/wlp4gen.cc:847-881 | `wain` and every procedure's entry label are defined |
| Layout.ProgramLabels | codegen/wlp4gen.cc:1598-1603 | with distinct procedure names, the assembly's labels are unique, every branch target exists, and every entry is defined |
| Layout.ProcedureDefined | codegen/wlp4gen.cc:847 | each procedure's entry label is among those defined |
| Generator.Emitter.constructor | codegen/wlp4gen.cc:1598 | output starts empty |
| Generator.Emitter.Emit | codegen/wlp4gen.cc:703 | the lines are appended to the output |
| Generator.NodeSize | codegen/wlp4gen.cc:630-669 | a node's size is positive |
| Generator.NumParams | codegen/wlp4gen.cc:786-808 | the parameter count loop counts the parameters |
| Generator.CodeGen.constructor | codegen/wlp4gen.cc:1596-1598 | the tables start empty, the pool full and the counters at 0 |
| Generator.CodeGen.PushReg | codegen/wlp4gen.cc:671-676 | a push is written |
| Generator.CodeGen.PopReg | codegen/wlp4gen.cc:677-681 | a pop is written |
| Generator.CodeGen.GenCallExtern | codegen/wlp4gen.cc:1469-1482 | a runtime call with `$31` saved is written |
| Generator.CodeGen.GenNode | codegen/wlp4gen.cc:630-669 | an operand is lowered as specified |
| Generator.CodeGen.GenOperands | codegen/wlp4gen.cc:1155-1178 | two operands are loaded as specified, and the registers they end in are returned |
| Generator.CodeGen.GenExpr | codegen/wlp4gen.cc:1139-1311 | the lines written are the expression's specified code |
| Generator.CodeGen.GenSum | codegen/wlp4gen.cc:1152-1311 | the same for a sum or difference |
| Generator.CodeGen.GenPointerPlusInt | codegen/wlp4gen.cc:1191-1219 | the same for `int* ± int` |
| Generator.CodeGen.GenIntPlusPointer | codegen/wlp4gen.cc:1221-1249 | the same for `int + int*` |
| Generator.CodeGen.GenScaledBoth | codegen/wlp4gen.cc:1191-1249 | the same scaling by 4 when neither side is in a register |
| Generator.CodeGen.GenPointerDifference | codegen/wlp4gen.cc:1282-1310 | the same for `int* - int*`, divided by 4 |
| Generator.CodeGen.GenTerm | codegen/wlp4gen.cc:1313-1359 | the lines written are the term's specified code |
| Generator.CodeGen.GenFactor | codegen/wlp4gen.cc:1361-1482 | the lines written are the factor's specified code |
| Generator.CodeGen.GenNew | codegen/wlp4gen.cc:1469-1482 | `new int[e]` calls `new` and yields NULL (1) on failure |
| Generator.CodeGen.GenCall | codegen/wlp4gen.cc:1430-1460 | a call saves `$29` and `$31`, pushes the arguments, jumps to `F` plus the name, and pops them all |
| Generator.CodeGen.GenAddr | codegen/wlp4gen.cc:1394-1428 | the address of an lvalue is computed as specified |
| Generator.CodeGen.PushArgs | codegen/wlp4gen.cc:758-771 | the arguments are pushed in order, and their number is returned |
| Generator.CodeGen.PopArgs | codegen/wlp4gen.cc:1450-1456 | one pop into `$31` is written per argument |
| Generator.CodeGen.GenTest | codegen/wlp4gen.cc:1494-1577 | a comparison is written as specified, unsigned for pointers |
| Generator.CodeGen.GenAssign | codegen/wlp4gen.cc:1029-1084 | an assignment is written as specified |
| Generator.CodeGen.GenStmt | codegen/wlp4gen.cc:1029-1137 | a statement is written as specified and the counters advance as specified; the allocation is unchanged |
| Generator.CodeGen.GenIf | codegen/wlp4gen.cc:1086-1097 | an if statement takes one label number and is written as specified |
| Generator.CodeGen.GenWhile | codegen/wlp4gen.cc:1099-1109 | a while loop takes one label number and is written as specified |
| Generator.CodeGen.GenPrintln | codegen/wlp4gen.cc:1111-1121 | println is written as specified |
| Generator.CodeGen.GenDelete | codegen/wlp4gen.cc:1123-1137 | delete uses the next `skipDelete` number and leaves the label counter alone |
| Generator.CodeGen.GenStmts | codegen/wlp4gen.cc:1024-1027 | a statement list is written in order as specified |
| Generator.CodeGen.DeclareVar | codegen/wlp4gen.cc:1004-1021 | a declaration takes the next slot down |
| Generator.CodeGen.DeclareParamList | codegen/wlp4gen.cc:917-929 | the parameters take slots in order |
| Generator.CodeGen.GenInitDcl | codegen/wlp4gen.cc:932-1000 | an initialized local is bound and loaded as specified |
| Generator.CodeGen.GenDcls | codegen/wlp4gen.cc:932-1000 | all locals are bound and loaded as specified |
| Generator.CodeGen.IncrementSymbolTable | codegen/wlp4gen.cc:774-783 | every slot offset moves by the increment and nothing else changes |
| Generator.CodeGen.EnterScope | codegen/wlp4gen.cc:843-846 | entering a procedure clears the slots and resets the offset |
| Generator.CodeGen.GenProcedureFrame | codegen/wlp4gen.cc:842-858 | the label, frame pointer, parameters, locals and saved `$5`-`$7` are written, and the offsets are shifted past the arguments |
| Generator.CodeGen.GenProcedure | codegen/wlp4gen.cc:842-874 | a procedure is written as specified and the allocation becomes the specified one |
| Generator.CodeGen.GenProcedures | codegen/wlp4gen.cc:836-840 | the procedures are written in order as specified |
| Generator.CodeGen.BindParam | codegen/wlp4gen.cc:885-905 | a parameter of wain is bound as specified |
| Generator.CodeGen.GenInitHeap | codegen/wlp4gen.cc:718-738 | `init` is called with `$2 = 0` for an int first parameter |
| Generator.CodeGen.GenMainFrame | codegen/wlp4gen.cc:876-910 | wain's label, heap setup and locals are written |
| Generator.CodeGen.GenMain | codegen/wlp4gen.cc:876-915 | wain is written as specified |
| Generator.CodeGen.GenPrologue | codegen/wlp4gen.cc:683-705 | the prologue is written as specified |
| Generator.CodeGen.GenEpilogue | codegen/wlp4gen.cc:707-716 | the epilogue is written as specified |
| Generator.CodeGen.GenProgram | codegen/wlp4gen.cc:1598-1603 | the prologue, the program and the epilogue are written as specified |
| Generator.Compile | codegen/wlp4gen.cc:1580-1604 | optimizing to the fixpoint, scanning for `&`, and generating gives the specified assembly of the optimized program |
| Encoding.Narrow32 | assembler/asm.cc:55-79 | the value is narrowed to a 32-bit signed int, which leaves in-range values alone |
| Encoding.RType | assembler/asm.cc:258-314 | the register format puts s, t, d and the function code in their fields |
| Encoding.RFields | assembler/asm.cc:306-313 | the OR of shifted fields reads back field by field |
| Encoding.IType | assembler/asm.cc:586-646 | the immediate format puts the opcode, s, t and the low 16 bits in their fields |
| Encoding.IFields | assembler/asm.cc:625-644 | the OR of shifted fields reads back field by field |
| Encoding.Low16 | assembler/asm.cc:625-644 | a negative immediate is masked to its low 16 bits |
| Encoding.DecodeEncode | assembler/asm.cc:258-994 | every well-formed instruction's word decodes back to it |
| Encoding.DecodeThreeRegister | assembler/asm.cc:258-372 | the same for add, sub, slt and sltu |
| Encoding.DecodeTwoRegister | assembler/asm.cc:373-525 | the same for mult, multu, div and divu |
| Encoding.DecodeOneRegister | assembler/asm.cc:526-585 | the same for mfhi, mflo, lis, jr and jalr |
| Encoding.DecodeDestination | assembler/asm.cc:526-585 | the same for mfhi, mflo and lis |
| Encoding.DecodeJump | assembler/asm.cc:526-585 | the same for jr and jalr |
| Encoding.DecodeImmediate | assembler/asm.cc:586-954 | the same for lw, sw, beq and bne |
| Encoding.WordBytes | assembler/asm.cc:41-52 | a word is written as four bytes, most significant first, and reads back as that word |
| Encoding.BytesRoundTrip | assembler/asm.cc:41-52 | four bytes read as a word are written back unchanged |
| Encoding.Bytes | assembler/asm.cc:41-52 | the output has four bytes per word |
| Encoding.BytesAt | assembler/asm.cc:41-52 | the k-th word occupies bytes 4k to 4k+3 |
| Encoding.BytesAppend | assembler/asm.cc:41-52 | the output of consecutive words concatenates |
| Assembler.Extend | assembler/asm.cc:165-181 | the label table gains exactly the names, mapped to the given address |
| Assembler.DistinctAppend | assembler/asm.cc:168-181 | an appended list is distinct exactly when both parts are and they are disjoint |
| Assembler.ScanLabelsSpec | assembler/asm.cc:160-184 | a line's labels are accepted exactly when they are distinct and new; they are then bound to the current address |
| Assembler.FirstPassErrExtends | assembler/asm.cc:155-184 | the first duplicate label stops the first pass |
| Assembler.LineDefsInAll | assembler/asm.cc:155-184 | every label of a line is among the program's labels |
| Assembler.FirstPassSpec | assembler/asm.cc:155-184 | the first pass succeeds exactly when all labels are distinct; it then binds each label to 4 times the number of instruction lines before it |
| Assembler.FirstPassAddresses | assembler/asm.cc:155-184 | after a successful first pass each label maps to 4 times the number of instruction lines before its line |
| Assembler.BuildSymbolTable | assembler/asm.cc:155-184 | the first-pass loop computes the specified table or duplicate error |
| Assembler.Operand | assembler/asm.cc:120-127 | an operand is present exactly when the next token has an allowed kind |
| Assembler.Register | assembler/asm.cc:55-60 | a register is accepted exactly when its number is 0 to 31 |
| Assembler.Immediate | assembler/asm.cc:62-79 | a decimal immediate must be in -32768..32767 and a hex one in 0..0xffff; it is then masked to 16 bits |
| Assembler.Instruction | assembler/asm.cc:225-1002 | an instruction consumes at least one token and produces at most one word |
| Assembler.OtherInstruction | assembler/asm.cc:586-1002 | the memory, branch and jump instructions and label tokens consume at least one token and produce at most one word |
| Assembler.SecondPassErrExtends | assembler/asm.cc:193-1009 | the first error stops the second pass |
| Assembler.PrependPrepend | assembler/asm.cc:193-1009 | prepending words is associative |
| Assembler.EncodeLine | assembler/asm.cc:205-1003 | one line's loop encodes as specified |
| Assembler.Encode2 | assembler/asm.cc:193-1009 | the second-pass loop writes the specified bytes or error |
| Assembler.Assemble | assembler/asm.cc:130-1038 | the whole assembler computes the specified bytes or the first error |
| Assembler.WordDirectiveSpec | assembler/asm.cc:225-256 | `.word n` is accepted exactly for 0 ≤ n < 2^32 and `.word label` exactly for a defined label, and emits that value |
| Assembler.BranchToLabel | assembler/asm.cc:818-954 | a branch to a label encodes the offset `(label - pc) / 4` with pc already past the branch |

## Left out

- Input and output. Standard input becomes a parameter: text lines for the scanner, tokens for the parser, a typed tree for the generator and tokenized lines for the assembler. Printed output becomes a returned value: tokens, trees, a table, assembly lines or bytes. The text formats between stages are not modelled, and `printSymbolTable`, `printParseTree` and the `; ...` comment lines the generator writes, `; Optimizations: N` among them, are left out.
- The grammar and the LR tables are not built in. The parser takes them as a parameter, as the source reads them from its input (parser/wlp4parse.cc:98-193). Parser.Run takes a `fuel` bound on the number of steps, because the tables are arbitrary and the loop need not end; with too little fuel it returns an error.
- Parse trees are not converted into the typed tree. The type checker and the generator work on the `Ast` datatypes, which hold exactly the productions of the WLP4 grammar. The `wellTyped` flag and the `isConstant`/`constantValue` node fields (codegen/wlp4gen.cc:27-31) stand for the node types and the optimizer's literals.
- The assembler takes already-tokenized lines. The token scanner of the assembler is not part of this model. `toNumber` on an ID token, and words written before an error, are not modelled: an error returns no bytes.
- Scanner.NumberRule: accepts a NUM above 2147483647 as out of range, as the source does. The type system's 32-bit intent for literals between 2^31 and 2^32 is not modelled further.
- Int32.QuotRem: a zero divisor is undefined behaviour in C++. The optimizer does not fold it, and the MIPS `div` at run time is not modelled.
- Int32.Wrap: the optimizer folds literals with C++ `int` arithmetic (codegen/wlp4gen.cc:332, 412, 443), where signed overflow and `INT_MIN / -1` are undefined behaviour. The model chooses the two's-complement result modulo 2^32, which is what the target's `mult`, `add`, `sub` and `div` compute; the C++ program itself promises no value there. Optimizer.ProductFold, Optimizer.QuotientFold and Optimizer.SumFold state their folded values under that choice.
- Optimizer.OptProcedure: the source combines the walk over the statements and the walk over the return expression with `|` (codegen/wlp4gen.cc:488), whose operands C++ leaves unsequenced. The model walks the statements first, so the return expression sees the table they leave. The other order is not modelled.
- Optimizer.OptMain: the same choice for wain (codegen/wlp4gen.cc:477).
- Codegen.StmtDelta: the balance is a static count of the `$30` adjustments in the emitted lines, over all paths together. It is not run-time balance: when `delete` skips the runtime call on NULL (codegen/wlp4gen.cc:1123-1137), the `sub $30, $30, 4` of the `push $1` before the branch runs but the matching pop is jumped over, so one word stays on the stack.
- Memory management (`delete` of tree nodes, the destructor) and exceptions as control flow are left out. Each error becomes an `Err` value.
- Run-time semantics of the generated MIPS code are not modelled. Its correctness is stated as a static stack balance (Codegen.StmtDelta), label discipline (Layout.ProgramLabels) and frame layout (Allocation.ProcedureFrame, Allocation.WainFrame). There is no instruction-level simulation.
- Several source behaviours are modelled as written but are not stated as findings, because proving them wrong would need a MIPS machine model:
  - `*p = e` reusing a register;
  - `$5` being clobbered by a nested sum;
  - recursion overwriting locals held in registers;
  - the stack after a skipped `delete`;
  - a call `foo(...)` whose callee shares its name with a register-bound variable, lowered as that variable with no call made (Codegen.ShadowedCallAsWritten);
  - a negative folded literal printed in `.word`;
  - a missing slot printing an empty offset (the `Blank` operand).
- Generator.Compile: uses the corrected rules: sums folded only for two ints and parenthesized assignment targets recorded in the optimizer (Optimizer.OptRule), bindings dropped at entry (Codegen.EntryRule), and `*` seen through in the scan (Derefs.ScanRule). The as-written rules stay available to every spec function and lemma as a parameter.
- DropBindings: forgets the names in the register table at procedure entry but does not return the registers to the pool. This is the smallest change that removes the stale binding; a full `clearRegTable` is not modelled.

## Findings

| source | as written | input that shows it | evidently intended | confidence | as-written member | corrected member |
|---|---|---|---|---|---|---|
| scanner/wlp4scan.cc:141 | `s.substr(i, i + keyword.length())` passes an end position where a length is expected, so past the first character the compared text is longer than the keyword unless the keyword ends the chunk | the chunk `}else{` scans to RBRACE ID(else) LBRACE | `substr(i, keyword.length())`, giving RBRACE ELSE LBRACE | high, not executed | Scanner.ElseAfterBrace | Scanner.KeywordIntended |
| codegen/wlp4gen.cc:842-846 | entering a procedure clears the symbol table but not the register table, so a later procedure's parameter can resolve to an earlier procedure's register | `int f() { int x = 1; return x; } int g(int x) { return x; }` compiles g's `return x` to `add $3, $0, $8` | each procedure starts without register bindings and reads its parameter from the frame | high, not executed | Allocation.StaleBindingAsWritten | Allocation.ProcedureFrame |
| codegen/wlp4gen.cc:601-618 | the scan stops at the unwrapped operand of `&` and never visits a factor under `*` there | `&*&x` does not record x, although its address is taken | every `&x` anywhere in the tree records x | medium, not executed | Derefs.AddrOfDerefAsWritten | Derefs.ProgramScan |
| codegen/wlp4gen.cc:408-436 | `expr PLUS term` folds two constants without checking their types | with `p` an `int*` known to be 1, `p + 1` folds to the int 2 and drops the scaling by 4 | fold only when both operands are `int` | high, not executed | Optimizer.PointerSumAsWritten | Optimizer.ExprSound |
| codegen/wlp4gen.cc:498-518 | an assignment dirties and re-records its target only when the lvalue is `ID` directly, so a parenthesized target is missed | `int x = 1; (x) = 5; return x;` propagates the stale 1 | unwrap the parentheses, like `getVarNameFromLvalue` | high, not executed | Optimizer.ParenAssignAsWritten | Optimizer.AssignKeepsAgrees |
