/** The WLP4 program tree shared by the type checker and the code generator.
    One constructor per production of the WLP4 grammar; every expression,
    term, factor and lvalue node carries the type annotation the type checker
    writes into it (`Untyped` before checking, the empty type string). */
module Ast {

  /** Type annotations: the source's strings "", "int" and "int*". */
  datatype Ty = Untyped | Int | IntStar

  /** dcl -> type ID, where type -> INT gives Int and type -> INT STAR gives IntStar. */
  datatype Dcl = Dcl(ty: Ty, name: string)

  /** The literal after BECOMES in dcls -> dcls dcl BECOMES NUM|NULL SEMI. */
  datatype Init = NumInit(value: int) | NullInit

  datatype InitDcl = InitDcl(dcl: Dcl, init: Init)

  /** expr -> expr PLUS term | expr MINUS term */
  datatype AddOp = Plus | Minus

  /** term -> term STAR factor | term SLASH factor | term PCT factor */
  datatype MulOp = Star | Slash | Pct

  /** test -> expr EQ|NE|LT|LE|GE|GT expr */
  datatype RelOp = Eq | Ne | Lt | Le | Ge | Gt

  datatype Expr =
    | ETerm(term: Term, ty: Ty)                         // expr -> term
    | EBin(aop: AddOp, left: Expr, right: Term, ty: Ty) // expr -> expr PLUS|MINUS term

  datatype Term =
    | TFactor(factor: Factor, ty: Ty)                       // term -> factor
    | TBin(mop: MulOp, tleft: Term, tright: Factor, ty: Ty) // term -> term STAR|SLASH|PCT factor

  datatype Factor =
    | FId(name: string, ty: Ty)                        // factor -> ID
    | FNum(value: int, ty: Ty)                         // factor -> NUM
    | FNull(ty: Ty)                                    // factor -> NULL
    | FParen(expr: Expr, ty: Ty)                       // factor -> LPAREN expr RPAREN
    | FAddr(lvalue: Lvalue, ty: Ty)                    // factor -> AMP lvalue
    | FDeref(inner: Factor, ty: Ty)                    // factor -> STAR factor
    | FNew(size: Expr, ty: Ty)                         // factor -> NEW INT LBRACK expr RBRACK
    | FCall(callee: string, args: seq<Expr>, ty: Ty)   // factor -> ID LPAREN [arglist] RPAREN

  datatype Lvalue =
    | LId(name: string, ty: Ty)      // lvalue -> ID
    | LDeref(target: Factor, ty: Ty) // lvalue -> STAR factor
    | LParen(lv: Lvalue, ty: Ty)     // lvalue -> LPAREN lvalue RPAREN

  datatype Test = Test(rop: RelOp, lhs: Expr, rhs: Expr)

  datatype Stmt =
    | Assign(target: Lvalue, value: Expr)                          // lvalue BECOMES expr SEMI
    | If(cond: Test, thenBranch: seq<Stmt>, elseBranch: seq<Stmt>) // IF (test) {stmts} ELSE {stmts}
    | While(guard: Test, body: seq<Stmt>)                          // WHILE (test) {stmts}
    | Println(arg: Expr)                                           // PRINTLN (expr);
    | Delete(ptr: Expr)                                            // DELETE [] expr;

  /** procedure -> INT ID LPAREN params RPAREN LBRACE dcls statements RETURN expr SEMI RBRACE */
  datatype Procedure = Procedure(name: string, params: seq<Dcl>, dcls: seq<InitDcl>,
                                 body: seq<Stmt>, ret: Expr)

  /** main -> INT WAIN LPAREN dcl COMMA dcl RPAREN LBRACE dcls statements RETURN expr SEMI RBRACE */
  datatype Main = Main(first: Dcl, second: Dcl, dcls: seq<InitDcl>, body: seq<Stmt>, ret: Expr)

  /** start -> BOF procedures EOF, procedures -> procedure procedures | main */
  datatype Program = Program(procedures: seq<Procedure>, main: Main)

  /** The name wain's variables are filed under. */
  const WainName: string := "wain"
}
