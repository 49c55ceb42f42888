/** The WLP4 type checker (context-sensitive analysis).  It walks the program
    tree once, files every procedure's parameter types and variable types in
    a table, writes a type into every expression node and stops at the first
    error.  Expression and statement annotation only read the table and are
    functions returning the annotated copy; the declaration handlers, which
    grow the table, are methods of `Checker` proved against the functions. */
module TypeCheck {
  import opened Wrappers
  import opened Ast

  /** A procedure's entry: its parameter types in order and its variables. */
  datatype ProcEntry = ProcEntry(params: seq<Ty>, vars: map<string, Ty>)

  type Table = map<string, ProcEntry>

  datatype TypeError =
    | DuplicateProcedure(proc: string)
    | DuplicateVariable(variable: string)
    | SecondParamNotInt
    | ReturnNotInt(proc: string)
    | WrongInitType(variable: string)
    | UndeclaredVariable(variable: string)
    | UndeclaredProcedure(proc: string)
    | WrongArgCount(proc: string)
    | WrongArgTypes(proc: string)
    | BadAdd(left: Ty, right: Ty)
    | BadSub(left: Ty, right: Ty)
    | BadMulDivMod(left: Ty, right: Ty)
    | AddressOfNonInt
    | DerefNonPointer
    | NewNonInt
    | AssignMismatch
    | TestMismatch
    | PrintNonInt
    | DeleteNonPointer

  /** The table's entry for `ctx`; a missing entry reads as empty, as the
      source's map subscript creates one. */
  function Entry(tab: Table, ctx: string): ProcEntry {
    if ctx in tab then tab[ctx] else ProcEntry([], map[])
  }

  // ---------------------------------------------------------------------
  // The typing rules of the binary operators
  // ---------------------------------------------------------------------

  function AddResult(op: AddOp, a: Ty, b: Ty): Result<Ty, TypeError> {
    match op
    case Plus =>
      if a == Int && b == Int then Ok(Int)
      else if a == IntStar && b == Int then Ok(IntStar)
      else if a == Int && b == IntStar then Ok(IntStar)
      else Err(BadAdd(a, b))
    case Minus =>
      if a == Int && b == Int then Ok(Int)
      else if a == IntStar && b == Int then Ok(IntStar)
      else if a == IntStar && b == IntStar then Ok(Int)
      else Err(BadSub(a, b))
  }

  function MulResult(a: Ty, b: Ty): Result<Ty, TypeError> {
    if a == Int && b == Int then Ok(Int) else Err(BadMulDivMod(a, b))
  }

  function TypesOf(es: seq<Expr>): (ts: seq<Ty>)
    ensures |ts| == |es| && forall i :: 0 <= i < |es| ==> ts[i] == es[i].ty
  {
    seq(|es|, i requires 0 <= i < |es| => es[i].ty)
  }

  // ---------------------------------------------------------------------
  // Annotating expressions (read-only in the table)
  // ---------------------------------------------------------------------

  function AnnotateExpr(tab: Table, ctx: string, e: Expr): Result<Expr, TypeError>
    decreases e
  {
    match e
    case ETerm(t, _) =>
      var t' :- AnnotateTerm(tab, ctx, t);
      Ok(ETerm(t', t'.ty))
    case EBin(op, l, t, _) =>
      var l' :- AnnotateExpr(tab, ctx, l);
      var t' :- AnnotateTerm(tab, ctx, t);
      var ty :- AddResult(op, l'.ty, t'.ty);
      Ok(EBin(op, l', t', ty))
  }

  function AnnotateTerm(tab: Table, ctx: string, t: Term): Result<Term, TypeError>
    decreases t
  {
    match t
    case TFactor(f, _) =>
      var f' :- AnnotateFactor(tab, ctx, f);
      Ok(TFactor(f', f'.ty))
    case TBin(op, l, f, _) =>
      var l' :- AnnotateTerm(tab, ctx, l);
      var f' :- AnnotateFactor(tab, ctx, f);
      var ty :- MulResult(l'.ty, f'.ty);
      Ok(TBin(op, l', f', ty))
  }

  function AnnotateFactor(tab: Table, ctx: string, f: Factor): Result<Factor, TypeError>
    decreases f
  {
    match f
    case FId(x, _) =>
      var vars := Entry(tab, ctx).vars;
      if x in vars then Ok(FId(x, vars[x])) else Err(UndeclaredVariable(x))
    case FNum(v, _) => Ok(FNum(v, Int))
    case FNull(_) => Ok(FNull(IntStar))
    case FParen(e, _) =>
      var e' :- AnnotateExpr(tab, ctx, e);
      Ok(FParen(e', e'.ty))
    case FAddr(lv, _) =>
      var lv' :- AnnotateLvalue(tab, ctx, lv);
      if lv'.ty != Int then Err(AddressOfNonInt) else Ok(FAddr(lv', IntStar))
    case FDeref(g, _) =>
      var g' :- AnnotateFactor(tab, ctx, g);
      if g'.ty != IntStar then Err(DerefNonPointer) else Ok(FDeref(g', Int))
    case FNew(e, _) =>
      var e' :- AnnotateExpr(tab, ctx, e);
      if e'.ty != Int then Err(NewNonInt) else Ok(FNew(e', IntStar))
    case FCall(callee, args, _) =>
      if callee !in tab then Err(UndeclaredProcedure(callee))
      else if |args| == 0 then
        if |tab[callee].params| != 0 then Err(WrongArgCount(callee)) else Ok(FCall(callee, [], Int))
      else
        var args' :- CheckCallArgs(tab, ctx, callee, args);
        Ok(FCall(callee, args', Int))
  }

  /** factor -> ID LPAREN arglist RPAREN: every argument is typed in the
      caller's context first; then the count and then the positional types
      are compared with the callee's parameter list. */
  function CheckCallArgs(tab: Table, ctx: string, callee: string, args: seq<Expr>): Result<seq<Expr>, TypeError>
    requires callee in tab
    decreases args, 1
  {
    var args' :- AnnotateArgs(tab, ctx, args);
    if |args'| != |tab[callee].params| then Err(WrongArgCount(callee))
    else if TypesOf(args') != tab[callee].params then Err(WrongArgTypes(callee))
    else Ok(args')
  }

  function AnnotateArgs(tab: Table, ctx: string, args: seq<Expr>): (r: Result<seq<Expr>, TypeError>)
    ensures r.Ok? ==> |r.value| == |args|
    decreases args, 0
  {
    if |args| == 0 then Ok([])
    else
      var a :- AnnotateExpr(tab, ctx, args[0]);
      var rest :- AnnotateArgs(tab, ctx, args[1..]);
      Ok([a] + rest)
  }

  function AnnotateLvalue(tab: Table, ctx: string, lv: Lvalue): Result<Lvalue, TypeError>
    decreases lv
  {
    match lv
    case LId(x, _) =>
      var vars := Entry(tab, ctx).vars;
      if x in vars then Ok(LId(x, vars[x])) else Err(UndeclaredVariable(x))
    case LDeref(g, _) =>
      var g' :- AnnotateFactor(tab, ctx, g);
      if g'.ty != IntStar then Err(DerefNonPointer) else Ok(LDeref(g', Int))
    case LParen(inner, _) =>
      var inner' :- AnnotateLvalue(tab, ctx, inner);
      Ok(LParen(inner', inner'.ty))
  }

  // ---------------------------------------------------------------------
  // Annotating statements (read-only in the table)
  // ---------------------------------------------------------------------

  function AnnotateTest(tab: Table, ctx: string, t: Test): Result<Test, TypeError> {
    var l :- AnnotateExpr(tab, ctx, t.lhs);
    var r :- AnnotateExpr(tab, ctx, t.rhs);
    if l.ty != r.ty then Err(TestMismatch) else Ok(Test(t.rop, l, r))
  }

  function AnnotateStmt(tab: Table, ctx: string, s: Stmt): Result<Stmt, TypeError>
    decreases s
  {
    match s
    case Assign(lv, e) =>
      var lv' :- AnnotateLvalue(tab, ctx, lv);
      var e' :- AnnotateExpr(tab, ctx, e);
      if lv'.ty != e'.ty then Err(AssignMismatch) else Ok(Assign(lv', e'))
    case If(t, a, b) =>
      var t' :- AnnotateTest(tab, ctx, t);
      var a' :- AnnotateStmts(tab, ctx, a);
      var b' :- AnnotateStmts(tab, ctx, b);
      Ok(If(t', a', b'))
    case While(t, a) =>
      var t' :- AnnotateTest(tab, ctx, t);
      var a' :- AnnotateStmts(tab, ctx, a);
      Ok(While(t', a'))
    case Println(e) =>
      var e' :- AnnotateExpr(tab, ctx, e);
      if e'.ty != Int then Err(PrintNonInt) else Ok(Println(e'))
    case Delete(e) =>
      var e' :- AnnotateExpr(tab, ctx, e);
      if e'.ty != IntStar then Err(DeleteNonPointer) else Ok(Delete(e'))
  }

  function AnnotateStmts(tab: Table, ctx: string, ss: seq<Stmt>): Result<seq<Stmt>, TypeError>
    decreases ss
  {
    if |ss| == 0 then Ok([])
    else
      var s :- AnnotateStmt(tab, ctx, ss[0]);
      var rest :- AnnotateStmts(tab, ctx, ss[1..]);
      Ok([s] + rest)
  }

  // ---------------------------------------------------------------------
  // Declarations and procedures (the table grows)
  // ---------------------------------------------------------------------

  /** dcl -> type ID: a name already among `ctx`'s variables is an error. */
  function Declare(tab: Table, ctx: string, d: Dcl): Result<Table, TypeError> {
    var entry := Entry(tab, ctx);
    if d.name in entry.vars then Err(DuplicateVariable(d.name))
    else Ok(tab[ctx := ProcEntry(entry.params, entry.vars[d.name := d.ty])])
  }

  /** paramlist: declare each parameter, then append its type to the signature. */
  function DeclareParams(tab: Table, ctx: string, ps: seq<Dcl>): Result<Table, TypeError>
    decreases |ps|
  {
    if |ps| == 0 then Ok(tab)
    else
      var t1 :- Declare(tab, ctx, ps[0]);
      var e := Entry(t1, ctx);
      DeclareParams(t1[ctx := ProcEntry(e.params + [ps[0].ty], e.vars)], ctx, ps[1..])
  }

  /** The initializer check of dcls -> dcls dcl BECOMES NUM|NULL SEMI. */
  function InitFits(d: InitDcl): bool {
    match d.init
    case NumInit(_) => d.dcl.ty == Int
    case NullInit => d.dcl.ty == IntStar
  }

  /** dcls: earlier declarations first; each declares its name, then checks
      that the initializer matches the declared type. */
  function DeclareInits(tab: Table, ctx: string, ds: seq<InitDcl>): Result<Table, TypeError>
    decreases |ds|
  {
    if |ds| == 0 then Ok(tab)
    else
      var t1 :- Declare(tab, ctx, ds[0].dcl);
      if !InitFits(ds[0]) then Err(WrongInitType(ds[0].dcl.name))
      else DeclareInits(t1, ctx, ds[1..])
  }

  /** procedure, up to its body: the name is registered before its
      parameters and declarations are analysed, so the body may call the
      procedure itself. */
  function DeclareProcedure(tab: Table, p: Procedure): Result<Table, TypeError> {
    if p.name in tab then Err(DuplicateProcedure(p.name))
    else
      var t2 :- DeclareParams(tab[p.name := ProcEntry([], map[])], p.name, p.params);
      DeclareInits(t2, p.name, p.dcls)
  }

  /** The statements, then the return expression, which must be int. */
  function CheckBody(tab: Table, ctx: string, body: seq<Stmt>, ret: Expr): Result<(seq<Stmt>, Expr), TypeError> {
    var b :- AnnotateStmts(tab, ctx, body);
    var r :- AnnotateExpr(tab, ctx, ret);
    if r.ty != Int then Err(ReturnNotInt(ctx)) else Ok((b, r))
  }

  function CheckProcedure(tab: Table, p: Procedure): Result<(Table, Procedure), TypeError> {
    var t :- DeclareProcedure(tab, p);
    var (b, r) :- CheckBody(t, p.name, p.body, p.ret);
    Ok((t, Procedure(p.name, p.params, p.dcls, b, r)))
  }

  /** main, up to its body: wain's two parameters become variables but not
      signature entries, and the second must be int. */
  function DeclareMain(tab: Table, m: Main): Result<Table, TypeError> {
    var t1 :- Declare(tab, WainName, m.first);
    var t2 :- Declare(t1, WainName, m.second);
    if m.second.ty != Int then Err(SecondParamNotInt)
    else DeclareInits(t2, WainName, m.dcls)
  }

  function CheckMain(tab: Table, m: Main): Result<(Table, Main), TypeError> {
    var t :- DeclareMain(tab, m);
    var (b, r) :- CheckBody(t, WainName, m.body, m.ret);
    Ok((t, Main(m.first, m.second, m.dcls, b, r)))
  }

  function CheckProcedures(tab: Table, ps: seq<Procedure>): Result<(Table, seq<Procedure>), TypeError>
    decreases |ps|
  {
    if |ps| == 0 then Ok((tab, []))
    else
      var (t1, p) :- CheckProcedure(tab, ps[0]);
      var (t2, rest) :- CheckProcedures(t1, ps[1..]);
      Ok((t2, [p] + rest))
  }

  /** start -> BOF procedures EOF, checked from an empty table. */
  function CheckProgram(prog: Program): Result<(Table, Program), TypeError> {
    var (t1, ps) :- CheckProcedures(map[], prog.procedures);
    var (t2, m) :- CheckMain(t1, prog.main);
    Ok((t2, Program(ps, m)))
  }

  // ---------------------------------------------------------------------
  // The checker object: the table and the handlers that grow it
  // ---------------------------------------------------------------------

  /** `r` reports what `spec` computes and `now` is the table it produces. */
  predicate Mirrors(r: Result<(), TypeError>, spec: Result<Table, TypeError>, now: Table) {
    match spec
    case Ok(t) => r.Ok? && now == t
    case Err(e) => r == Err(e)
  }

  /** Prepend `done` onto the value of a later result. */
  function Prepended<T>(done: seq<T>, r: Result<seq<T>, TypeError>): Result<seq<T>, TypeError> {
    if r.Ok? then Ok(done + r.value) else r
  }

  lemma PrependedNil<T>(r: Result<seq<T>, TypeError>)
    ensures Prepended([], r) == r
  {
    if r.Ok? {
      assert [] + r.value == r.value;
    }
  }

  class Checker {
    var table: Table

    constructor ()
      ensures table == map[]
    {
      table := map[];
    }

    /** The arglist loop: type each argument in turn in the caller's
        context, collecting the argument types. */
    method TypeArgs(ctx: string, args: seq<Expr>) returns (r: Result<seq<Expr>, TypeError>, argVector: seq<Ty>)
      ensures r == AnnotateArgs(table, ctx, args)
      ensures r.Ok? ==> argVector == TypesOf(r.value)
    {
      argVector := [];
      var annotated: seq<Expr> := [];
      var i := 0;
      PrependedNil(AnnotateArgs(table, ctx, args));
      while i < |args|
        invariant 0 <= i <= |args|
        invariant |argVector| == |annotated| == i
        invariant forall k :: 0 <= k < i ==> argVector[k] == annotated[k].ty
        invariant AnnotateArgs(table, ctx, args) == Prepended(annotated, AnnotateArgs(table, ctx, args[i..]))
      {
        ArgsStep(table, ctx, args, i);
        var a := AnnotateExpr(table, ctx, args[i]);
        if a.Err? {
          return Err(a.error), argVector;
        }
        PrependedAssoc(annotated, [a.value], AnnotateArgs(table, ctx, args[i + 1..]));
        argVector := argVector + [a.value.ty];
        annotated := annotated + [a.value];
        i := i + 1;
      }
      assert args[i..] == [];
      assert annotated + [] == annotated;
      return Ok(annotated), argVector;
    }

    /** The arglist handler: collect the argument types, then compare their
        count and each position with the callee's signature. */
    method ArgList(ctx: string, callee: string, args: seq<Expr>) returns (r: Result<seq<Expr>, TypeError>)
      requires callee in table
      ensures r == CheckCallArgs(table, ctx, callee, args)
    {
      var annotated, argVector := TypeArgs(ctx, args);
      if annotated.Err? {
        return annotated;
      }
      var params := table[callee].params;
      if |argVector| != |params| {
        return Err(WrongArgCount(callee));
      }
      var k := 0;
      while k < |params|
        invariant 0 <= k <= |params|
        invariant forall j :: 0 <= j < k ==> argVector[j] == params[j]
      {
        if argVector[k] != params[k] {
          return Err(WrongArgTypes(callee));
        }
        k := k + 1;
      }
      return annotated;
    }

    /** dcl -> type ID in the variable context `ctx`. */
    method DeclareDcl(ctx: string, d: Dcl) returns (r: Result<(), TypeError>)
      modifies this
      ensures Mirrors(r, Declare(old(table), ctx, d), table)
    {
      var entry := if ctx in table then table[ctx] else ProcEntry([], map[]);
      if d.name in entry.vars {
        return Err(DuplicateVariable(d.name));
      }
      table := table[ctx := ProcEntry(entry.params, entry.vars[d.name := d.ty])];
      return Ok(());
    }

    method ParamList(ctx: string, ps: seq<Dcl>) returns (r: Result<(), TypeError>)
      modifies this
      ensures Mirrors(r, DeclareParams(old(table), ctx, ps), table)
    {
      var i := 0;
      while i < |ps|
        invariant 0 <= i <= |ps|
        invariant DeclareParams(old(table), ctx, ps) == DeclareParams(table, ctx, ps[i..])
      {
        assert ps[i..][1..] == ps[i + 1..];
        var d := DeclareDcl(ctx, ps[i]);
        if d.Err? {
          return d;
        }
        var e := if ctx in table then table[ctx] else ProcEntry([], map[]);
        table := table[ctx := ProcEntry(e.params + [ps[i].ty], e.vars)];
        i := i + 1;
      }
      return Ok(());
    }

    method Dcls(ctx: string, ds: seq<InitDcl>) returns (r: Result<(), TypeError>)
      modifies this
      ensures Mirrors(r, DeclareInits(old(table), ctx, ds), table)
    {
      var i := 0;
      while i < |ds|
        invariant 0 <= i <= |ds|
        invariant DeclareInits(old(table), ctx, ds) == DeclareInits(table, ctx, ds[i..])
      {
        assert ds[i..][1..] == ds[i + 1..];
        var d := DeclareDcl(ctx, ds[i].dcl);
        if d.Err? {
          return d;
        }
        var fits := match ds[i].init
          case NumInit(_) => ds[i].dcl.ty == Int
          case NullInit => ds[i].dcl.ty == IntStar;
        if !fits {
          return Err(WrongInitType(ds[i].dcl.name));
        }
        i := i + 1;
      }
      return Ok(());
    }

    method Proc(p: Procedure) returns (r: Result<Procedure, TypeError>)
      modifies this
      ensures CheckProcedure(old(table), p).Ok? <==> r.Ok?
      ensures r.Ok? ==> CheckProcedure(old(table), p).value == (table, r.value)
      ensures r.Err? ==> CheckProcedure(old(table), p).error == r.error
    {
      if p.name in table {
        return Err(DuplicateProcedure(p.name));
      }
      table := table[p.name := ProcEntry([], map[])];
      var d := ParamList(p.name, p.params);
      if d.Err? {
        return Err(d.error);
      }
      d := Dcls(p.name, p.dcls);
      if d.Err? {
        return Err(d.error);
      }
      var body := AnnotateStmts(table, p.name, p.body);
      if body.Err? {
        return Err(body.error);
      }
      var ret := AnnotateExpr(table, p.name, p.ret);
      if ret.Err? {
        return Err(ret.error);
      }
      if ret.value.ty != Int {
        return Err(ReturnNotInt(p.name));
      }
      return Ok(Procedure(p.name, p.params, p.dcls, body.value, ret.value));
    }

    method MainProc(m: Main) returns (r: Result<Main, TypeError>)
      modifies this
      ensures CheckMain(old(table), m).Ok? <==> r.Ok?
      ensures r.Ok? ==> CheckMain(old(table), m).value == (table, r.value)
      ensures r.Err? ==> CheckMain(old(table), m).error == r.error
    {
      var d := DeclareDcl(WainName, m.first);
      if d.Err? {
        return Err(d.error);
      }
      d := DeclareDcl(WainName, m.second);
      if d.Err? {
        return Err(d.error);
      }
      if m.second.ty != Int {
        return Err(SecondParamNotInt);
      }
      d := Dcls(WainName, m.dcls);
      if d.Err? {
        return Err(d.error);
      }
      var body := AnnotateStmts(table, WainName, m.body);
      if body.Err? {
        return Err(body.error);
      }
      var ret := AnnotateExpr(table, WainName, m.ret);
      if ret.Err? {
        return Err(ret.error);
      }
      if ret.value.ty != Int {
        return Err(ReturnNotInt(WainName));
      }
      return Ok(Main(m.first, m.second, m.dcls, body.value, ret.value));
    }

    method Procedures(ps: seq<Procedure>) returns (r: Result<seq<Procedure>, TypeError>)
      modifies this
      ensures CheckProcedures(old(table), ps).Ok? <==> r.Ok?
      ensures r.Ok? ==> CheckProcedures(old(table), ps).value == (table, r.value)
      ensures r.Err? ==> CheckProcedures(old(table), ps).error == r.error
    {
      var done: seq<Procedure> := [];
      var i := 0;
      PrependedProcsNil(CheckProcedures(table, ps));
      while i < |ps|
        invariant 0 <= i <= |ps|
        invariant CheckProcedures(old(table), ps) == PrependedProcs(done, CheckProcedures(table, ps[i..]))
      {
        assert ps[i..][1..] == ps[i + 1..];
        ProceduresCons(table, ps[i..]);
        var p := Proc(ps[i]);
        if p.Err? {
          return Err(p.error);
        }
        PrependedProcsAssoc(done, p.value, CheckProcedures(table, ps[i + 1..]));
        done := done + [p.value];
        i := i + 1;
      }
      assert ps[i..] == [];
      assert done + [] == done;
      return Ok(done);
    }
  }

  /** One step of the procedure list, as the loop above takes it. */
  lemma ProceduresCons(tab: Table, ps: seq<Procedure>)
    requires |ps| > 0
    ensures CheckProcedure(tab, ps[0]).Err? ==> CheckProcedures(tab, ps) == Err(CheckProcedure(tab, ps[0]).error)
    ensures CheckProcedure(tab, ps[0]).Ok? ==>
              CheckProcedures(tab, ps)
              == PrependedProcs([CheckProcedure(tab, ps[0]).value.1],
                                CheckProcedures(CheckProcedure(tab, ps[0]).value.0, ps[1..]))
  {
  }

  function PrependedProcs(done: seq<Procedure>, r: Result<(Table, seq<Procedure>), TypeError>): Result<(Table, seq<Procedure>), TypeError> {
    if r.Ok? then Ok((r.value.0, done + r.value.1)) else r
  }

  lemma PrependedProcsAssoc(done: seq<Procedure>, p: Procedure, r: Result<(Table, seq<Procedure>), TypeError>)
    ensures PrependedProcs(done + [p], r) == PrependedProcs(done, PrependedProcs([p], r))
  {
    if r.Ok? {
      assert done + [p] + r.value.1 == done + ([p] + r.value.1);
    }
  }

  lemma PrependedProcsNil(r: Result<(Table, seq<Procedure>), TypeError>)
    ensures PrependedProcs([], r) == r
  {
    if r.Ok? {
      assert [] + r.value.1 == r.value.1;
    }
  }

  /** One step of the argument loop, unfolded once. */
  lemma ArgsStep(tab: Table, ctx: string, args: seq<Expr>, i: nat)
    requires i < |args|
    ensures var a := AnnotateExpr(tab, ctx, args[i]);
      AnnotateArgs(tab, ctx, args[i..])
        == if a.Err? then Err(a.error) else Prepended([a.value], AnnotateArgs(tab, ctx, args[i + 1..]))
  {
    assert args[i..][0] == args[i];
    assert args[i..][1..] == args[i + 1..];
  }

  lemma PrependedAssoc<T>(done: seq<T>, next: seq<T>, r: Result<seq<T>, TypeError>)
    ensures Prepended(done + next, r) == Prepended(done, Prepended(next, r))
  {
    if r.Ok? {
      assert done + next + r.value == done + (next + r.value);
    }
  }

  /** The whole checker: a fresh table, the procedures in order, then wain. */
  method TypeCheckProgram(prog: Program) returns (r: Result<(Table, Program), TypeError>)
    ensures r == CheckProgram(prog)
  {
    var c := new Checker();
    var ps := c.Procedures(prog.procedures);
    if ps.Err? {
      return Err(ps.error);
    }
    var m := c.MainProc(prog.main);
    if m.Err? {
      return Err(m.error);
    }
    return Ok((c.table, Program(ps.value, m.value)));
  }

  // ---------------------------------------------------------------------
  // The typing rules, one lemma per production
  // ---------------------------------------------------------------------

  /** expr -> expr PLUS term: int+int is int, int*+int and int+int* are int*,
      anything else (int*+int* included) is an error. */
  lemma AdditionRule(tab: Table, ctx: string, l: Expr, r: Term, ty: Ty)
    requires AnnotateExpr(tab, ctx, l).Ok? && AnnotateTerm(tab, ctx, r).Ok?
    ensures var a := AnnotateExpr(tab, ctx, l).value.ty;
            var b := AnnotateTerm(tab, ctx, r).value.ty;
            var res := AnnotateExpr(tab, ctx, EBin(Plus, l, r, ty));
            && (res.Ok? <==> (a == Int && b == Int) || (a == IntStar && b == Int) || (a == Int && b == IntStar))
            && (res.Ok? ==> res.value.ty == (if a == Int && b == Int then Int else IntStar))
            && (res.Err? ==> res.error == BadAdd(a, b))
  {
  }

  /** expr -> expr MINUS term: int-int is int, int*-int is int*, int*-int*
      is int, anything else (int-int* included) is an error. */
  lemma SubtractionRule(tab: Table, ctx: string, l: Expr, r: Term, ty: Ty)
    requires AnnotateExpr(tab, ctx, l).Ok? && AnnotateTerm(tab, ctx, r).Ok?
    ensures var a := AnnotateExpr(tab, ctx, l).value.ty;
            var b := AnnotateTerm(tab, ctx, r).value.ty;
            var res := AnnotateExpr(tab, ctx, EBin(Minus, l, r, ty));
            && (res.Ok? <==> (a == Int && b == Int) || (a == IntStar && b == Int) || (a == IntStar && b == IntStar))
            && (res.Ok? ==> res.value.ty == (if a == IntStar && b == Int then IntStar else Int))
            && (res.Err? ==> res.error == BadSub(a, b))
  {
  }

  /** term -> term STAR|SLASH|PCT factor: both operands int, result int. */
  lemma MultiplicativeRule(tab: Table, ctx: string, op: MulOp, l: Term, r: Factor, ty: Ty)
    requires AnnotateTerm(tab, ctx, l).Ok? && AnnotateFactor(tab, ctx, r).Ok?
    ensures var a := AnnotateTerm(tab, ctx, l).value.ty;
            var b := AnnotateFactor(tab, ctx, r).value.ty;
            var res := AnnotateTerm(tab, ctx, TBin(op, l, r, ty));
            && (res.Ok? <==> a == Int && b == Int)
            && (res.Ok? ==> res.value.ty == Int)
            && (res.Err? ==> res.error == BadMulDivMod(a, b))
  {
  }

  /** The pointer forms: &lvalue needs an int lvalue and is int*; *factor,
      as a factor or as an lvalue, needs int* and is int; new int[e] needs an
      int size and is int*. */
  lemma PointerRules(tab: Table, ctx: string, lv: Lvalue, g: Factor, e: Expr, ty: Ty)
    ensures var a := AnnotateLvalue(tab, ctx, lv);
            var res := AnnotateFactor(tab, ctx, FAddr(lv, ty));
            a.Ok? ==> (res.Ok? <==> a.value.ty == Int) && (res.Ok? ==> res.value.ty == IntStar)
                      && (res.Err? ==> res.error == AddressOfNonInt)
    ensures var a := AnnotateFactor(tab, ctx, g);
            var res := AnnotateFactor(tab, ctx, FDeref(g, ty));
            var res2 := AnnotateLvalue(tab, ctx, LDeref(g, ty));
            a.Ok? ==> (res.Ok? <==> a.value.ty == IntStar) && (res.Ok? ==> res.value.ty == Int)
                      && (res.Err? ==> res.error == DerefNonPointer)
                      && (res2.Ok? <==> a.value.ty == IntStar) && (res2.Ok? ==> res2.value.ty == Int)
                      && (res2.Err? ==> res2.error == DerefNonPointer)
    ensures var a := AnnotateExpr(tab, ctx, e);
            var res := AnnotateFactor(tab, ctx, FNew(e, ty));
            a.Ok? ==> (res.Ok? <==> a.value.ty == Int) && (res.Ok? ==> res.value.ty == IntStar)
                      && (res.Err? ==> res.error == NewNonInt)
  {
  }

  /** factor -> ID and lvalue -> ID: an undeclared name is an error, a
      declared one receives exactly its recorded type. */
  lemma IdentifierRule(tab: Table, ctx: string, x: string, ty: Ty)
    ensures x !in Entry(tab, ctx).vars ==>
              && AnnotateFactor(tab, ctx, FId(x, ty)) == Err(UndeclaredVariable(x))
              && AnnotateLvalue(tab, ctx, LId(x, ty)) == Err(UndeclaredVariable(x))
    ensures x in Entry(tab, ctx).vars ==>
              && AnnotateFactor(tab, ctx, FId(x, ty)) == Ok(FId(x, Entry(tab, ctx).vars[x]))
              && AnnotateLvalue(tab, ctx, LId(x, ty)) == Ok(LId(x, Entry(tab, ctx).vars[x]))
  {
  }

  /** A call is well typed exactly when the callee is declared, every
      argument is well typed, and the arguments agree with the parameter
      list in number and position by position; the call is then int.  The
      errors come in the source's order: callee, arguments, count, types. */
  lemma CallRule(tab: Table, ctx: string, f: string, args: seq<Expr>, ty: Ty)
    ensures var res := AnnotateFactor(tab, ctx, FCall(f, args, ty));
            var a := AnnotateArgs(tab, ctx, args);
            && (f !in tab ==> res == Err(UndeclaredProcedure(f)))
            && (f in tab && a.Err? ==> res == Err(a.error))
            && (f in tab && a.Ok? && |args| != |tab[f].params| ==> res == Err(WrongArgCount(f)))
            && (res.Ok? <==> f in tab && a.Ok? && |args| == |tab[f].params|
                             && forall i :: 0 <= i < |args| ==> a.value[i].ty == tab[f].params[i])
            && (res.Ok? ==> res.value == FCall(f, a.value, Int))
  {
    var a := AnnotateArgs(tab, ctx, args);
    if f in tab && a.Ok? {
      var ts := TypesOf(a.value);
      if |args| == |tab[f].params| && forall i :: 0 <= i < |args| ==> a.value[i].ty == tab[f].params[i] {
        assert ts == tab[f].params;
      }
    }
  }

  /** The statement checks: assignment sides and test operands must have
      equal types, println takes an int and delete an int*. */
  lemma StatementRules(tab: Table, ctx: string, lv: Lvalue, e: Expr, t: Test)
    ensures var a := AnnotateLvalue(tab, ctx, lv);
            var b := AnnotateExpr(tab, ctx, e);
            var res := AnnotateStmt(tab, ctx, Assign(lv, e));
            a.Ok? && b.Ok? ==> (res.Ok? <==> a.value.ty == b.value.ty)
                               && (res.Err? ==> res.error == AssignMismatch)
    ensures var a := AnnotateExpr(tab, ctx, t.lhs);
            var b := AnnotateExpr(tab, ctx, t.rhs);
            var res := AnnotateTest(tab, ctx, t);
            a.Ok? && b.Ok? ==> (res.Ok? <==> a.value.ty == b.value.ty)
                               && (res.Err? ==> res.error == TestMismatch)
    ensures var b := AnnotateExpr(tab, ctx, e);
            var p := AnnotateStmt(tab, ctx, Println(e));
            var d := AnnotateStmt(tab, ctx, Delete(e));
            b.Ok? ==> (p.Ok? <==> b.value.ty == Int) && (p.Err? ==> p.error == PrintNonInt)
                      && (d.Ok? <==> b.value.ty == IntStar) && (d.Err? ==> d.error == DeleteNonPointer)
  {
  }

  /** Declaring a name already in the procedure's variable map is an error
      and never overwrites it; otherwise exactly that binding is added and
      every other entry of the table is kept. */
  lemma DeclareRule(tab: Table, ctx: string, d: Dcl)
    ensures var vars := Entry(tab, ctx).vars;
            var r := Declare(tab, ctx, d);
            && (r.Err? <==> d.name in vars)
            && (r.Err? ==> r.error == DuplicateVariable(d.name))
            && (r.Ok? ==> && r.value.Keys == tab.Keys + {ctx}
                          && (forall n :: n in tab && n != ctx ==> r.value[n] == tab[n])
                          && Entry(r.value, ctx).params == Entry(tab, ctx).params
                          && Entry(r.value, ctx).vars.Keys == vars.Keys + {d.name}
                          && Entry(r.value, ctx).vars[d.name] == d.ty
                          && forall n :: n in vars ==> Entry(r.value, ctx).vars[n] == vars[n])
  {
  }

  // ---------------------------------------------------------------------
  // Annotation is sound and complete for a declarative typing judgement
  // ---------------------------------------------------------------------

  /** Every annotation reset to the untyped state: the tree's shape. */
  function EraseExpr(e: Expr): Expr
    decreases e
  {
    match e
    case ETerm(t, _) => ETerm(EraseTerm(t), Untyped)
    case EBin(op, l, t, _) => EBin(op, EraseExpr(l), EraseTerm(t), Untyped)
  }

  function EraseTerm(t: Term): Term
    decreases t
  {
    match t
    case TFactor(f, _) => TFactor(EraseFactor(f), Untyped)
    case TBin(op, l, f, _) => TBin(op, EraseTerm(l), EraseFactor(f), Untyped)
  }

  function EraseFactor(f: Factor): Factor
    decreases f
  {
    match f
    case FId(x, _) => FId(x, Untyped)
    case FNum(v, _) => FNum(v, Untyped)
    case FNull(_) => FNull(Untyped)
    case FParen(e, _) => FParen(EraseExpr(e), Untyped)
    case FAddr(lv, _) => FAddr(EraseLvalue(lv), Untyped)
    case FDeref(g, _) => FDeref(EraseFactor(g), Untyped)
    case FNew(e, _) => FNew(EraseExpr(e), Untyped)
    case FCall(c, args, _) => FCall(c, EraseArgs(args), Untyped)
  }

  function EraseArgs(args: seq<Expr>): seq<Expr>
    decreases args
  {
    if |args| == 0 then [] else [EraseExpr(args[0])] + EraseArgs(args[1..])
  }

  function EraseLvalue(lv: Lvalue): Lvalue
    decreases lv
  {
    match lv
    case LId(x, _) => LId(x, Untyped)
    case LDeref(g, _) => LDeref(EraseFactor(g), Untyped)
    case LParen(inner, _) => LParen(EraseLvalue(inner), Untyped)
  }

  function EraseTest(t: Test): Test {
    Test(t.rop, EraseExpr(t.lhs), EraseExpr(t.rhs))
  }

  function EraseStmt(s: Stmt): Stmt
    decreases s
  {
    match s
    case Assign(lv, e) => Assign(EraseLvalue(lv), EraseExpr(e))
    case If(t, a, b) => If(EraseTest(t), EraseStmts(a), EraseStmts(b))
    case While(t, a) => While(EraseTest(t), EraseStmts(a))
    case Println(e) => Println(EraseExpr(e))
    case Delete(e) => Delete(EraseExpr(e))
  }

  function EraseStmts(ss: seq<Stmt>): seq<Stmt>
    decreases ss
  {
    if |ss| == 0 then [] else [EraseStmt(ss[0])] + EraseStmts(ss[1..])
  }

  /** The typing judgement: every node's annotation follows from its
      children's annotations and the table by the rules of the language. */
  predicate TypedExpr(tab: Table, ctx: string, e: Expr)
    decreases e
  {
    match e
    case ETerm(t, ty) => TypedTerm(tab, ctx, t) && ty == t.ty
    case EBin(op, l, t, ty) =>
      TypedExpr(tab, ctx, l) && TypedTerm(tab, ctx, t) && AddResult(op, l.ty, t.ty) == Ok(ty)
  }

  predicate TypedTerm(tab: Table, ctx: string, t: Term)
    decreases t
  {
    match t
    case TFactor(f, ty) => TypedFactor(tab, ctx, f) && ty == f.ty
    case TBin(_, l, f, ty) =>
      TypedTerm(tab, ctx, l) && TypedFactor(tab, ctx, f) && MulResult(l.ty, f.ty) == Ok(ty)
  }

  predicate TypedFactor(tab: Table, ctx: string, f: Factor)
    decreases f
  {
    match f
    case FId(x, ty) => x in Entry(tab, ctx).vars && ty == Entry(tab, ctx).vars[x]
    case FNum(_, ty) => ty == Int
    case FNull(ty) => ty == IntStar
    case FParen(e, ty) => TypedExpr(tab, ctx, e) && ty == e.ty
    case FAddr(lv, ty) => TypedLvalue(tab, ctx, lv) && lv.ty == Int && ty == IntStar
    case FDeref(g, ty) => TypedFactor(tab, ctx, g) && g.ty == IntStar && ty == Int
    case FNew(e, ty) => TypedExpr(tab, ctx, e) && e.ty == Int && ty == IntStar
    case FCall(c, args, ty) =>
      c in tab && TypedArgs(tab, ctx, args) && TypesOf(args) == tab[c].params && ty == Int
  }

  predicate TypedArgs(tab: Table, ctx: string, args: seq<Expr>)
    decreases args
  {
    |args| == 0 || (TypedExpr(tab, ctx, args[0]) && TypedArgs(tab, ctx, args[1..]))
  }

  predicate TypedLvalue(tab: Table, ctx: string, lv: Lvalue)
    decreases lv
  {
    match lv
    case LId(x, ty) => x in Entry(tab, ctx).vars && ty == Entry(tab, ctx).vars[x]
    case LDeref(g, ty) => TypedFactor(tab, ctx, g) && g.ty == IntStar && ty == Int
    case LParen(inner, ty) => TypedLvalue(tab, ctx, inner) && ty == inner.ty
  }

  predicate TypedTest(tab: Table, ctx: string, t: Test) {
    TypedExpr(tab, ctx, t.lhs) && TypedExpr(tab, ctx, t.rhs) && t.lhs.ty == t.rhs.ty
  }

  predicate TypedStmt(tab: Table, ctx: string, s: Stmt)
    decreases s
  {
    match s
    case Assign(lv, e) => TypedLvalue(tab, ctx, lv) && TypedExpr(tab, ctx, e) && lv.ty == e.ty
    case If(t, a, b) => TypedTest(tab, ctx, t) && TypedStmts(tab, ctx, a) && TypedStmts(tab, ctx, b)
    case While(t, a) => TypedTest(tab, ctx, t) && TypedStmts(tab, ctx, a)
    case Println(e) => TypedExpr(tab, ctx, e) && e.ty == Int
    case Delete(e) => TypedExpr(tab, ctx, e) && e.ty == IntStar
  }

  predicate TypedStmts(tab: Table, ctx: string, ss: seq<Stmt>)
    decreases ss
  {
    |ss| == 0 || (TypedStmt(tab, ctx, ss[0]) && TypedStmts(tab, ctx, ss[1..]))
  }

  /** Soundness: an annotated tree satisfies the judgement and differs from
      its input only in its annotations. */
  lemma {:induction false} ExprSound(tab: Table, ctx: string, e: Expr)
    requires AnnotateExpr(tab, ctx, e).Ok?
    ensures TypedExpr(tab, ctx, AnnotateExpr(tab, ctx, e).value)
    ensures EraseExpr(AnnotateExpr(tab, ctx, e).value) == EraseExpr(e)
    decreases e
  {
    match e
    case ETerm(t, _) => TermSound(tab, ctx, t);
    case EBin(_, l, t, _) => ExprSound(tab, ctx, l); TermSound(tab, ctx, t);
  }

  lemma {:induction false} TermSound(tab: Table, ctx: string, t: Term)
    requires AnnotateTerm(tab, ctx, t).Ok?
    ensures TypedTerm(tab, ctx, AnnotateTerm(tab, ctx, t).value)
    ensures EraseTerm(AnnotateTerm(tab, ctx, t).value) == EraseTerm(t)
    decreases t
  {
    match t
    case TFactor(f, _) => FactorSound(tab, ctx, f);
    case TBin(_, l, f, _) => TermSound(tab, ctx, l); FactorSound(tab, ctx, f);
  }

  lemma {:induction false} FactorSound(tab: Table, ctx: string, f: Factor)
    requires AnnotateFactor(tab, ctx, f).Ok?
    ensures TypedFactor(tab, ctx, AnnotateFactor(tab, ctx, f).value)
    ensures EraseFactor(AnnotateFactor(tab, ctx, f).value) == EraseFactor(f)
    decreases f
  {
    match f
    case FId(_, _) =>
    case FNum(_, _) =>
    case FNull(_) =>
    case FParen(e, _) => ExprSound(tab, ctx, e);
    case FAddr(lv, _) => LvalueSound(tab, ctx, lv);
    case FDeref(g, _) => FactorSound(tab, ctx, g);
    case FNew(e, _) => ExprSound(tab, ctx, e);
    case FCall(c, args, _) =>
      if |args| > 0 {
        ArgsSound(tab, ctx, args);
      }
  }

  lemma {:induction false} ArgsSound(tab: Table, ctx: string, args: seq<Expr>)
    requires AnnotateArgs(tab, ctx, args).Ok?
    ensures TypedArgs(tab, ctx, AnnotateArgs(tab, ctx, args).value)
    ensures EraseArgs(AnnotateArgs(tab, ctx, args).value) == EraseArgs(args)
    decreases args
  {
    if |args| > 0 {
      ExprSound(tab, ctx, args[0]);
      ArgsSound(tab, ctx, args[1..]);
      var a := AnnotateExpr(tab, ctx, args[0]).value;
      var rest := AnnotateArgs(tab, ctx, args[1..]).value;
      assert ([a] + rest)[0] == a;
      assert ([a] + rest)[1..] == rest;
    }
  }

  lemma {:induction false} LvalueSound(tab: Table, ctx: string, lv: Lvalue)
    requires AnnotateLvalue(tab, ctx, lv).Ok?
    ensures TypedLvalue(tab, ctx, AnnotateLvalue(tab, ctx, lv).value)
    ensures EraseLvalue(AnnotateLvalue(tab, ctx, lv).value) == EraseLvalue(lv)
    decreases lv
  {
    match lv
    case LId(_, _) =>
    case LDeref(g, _) => FactorSound(tab, ctx, g);
    case LParen(inner, _) => LvalueSound(tab, ctx, inner);
  }

  lemma {:induction false} StmtSound(tab: Table, ctx: string, s: Stmt)
    requires AnnotateStmt(tab, ctx, s).Ok?
    ensures TypedStmt(tab, ctx, AnnotateStmt(tab, ctx, s).value)
    ensures EraseStmt(AnnotateStmt(tab, ctx, s).value) == EraseStmt(s)
    decreases s
  {
    match s
    case Assign(lv, e) => LvalueSound(tab, ctx, lv); ExprSound(tab, ctx, e);
    case If(t, a, b) =>
      ExprSound(tab, ctx, t.lhs); ExprSound(tab, ctx, t.rhs);
      StmtsSound(tab, ctx, a); StmtsSound(tab, ctx, b);
    case While(t, a) =>
      ExprSound(tab, ctx, t.lhs); ExprSound(tab, ctx, t.rhs);
      StmtsSound(tab, ctx, a);
    case Println(e) => ExprSound(tab, ctx, e);
    case Delete(e) => ExprSound(tab, ctx, e);
  }

  lemma {:induction false} StmtsSound(tab: Table, ctx: string, ss: seq<Stmt>)
    requires AnnotateStmts(tab, ctx, ss).Ok?
    ensures TypedStmts(tab, ctx, AnnotateStmts(tab, ctx, ss).value)
    ensures EraseStmts(AnnotateStmts(tab, ctx, ss).value) == EraseStmts(ss)
    decreases ss
  {
    if |ss| > 0 {
      StmtSound(tab, ctx, ss[0]);
      StmtsSound(tab, ctx, ss[1..]);
      var s := AnnotateStmt(tab, ctx, ss[0]).value;
      var rest := AnnotateStmts(tab, ctx, ss[1..]).value;
      assert ([s] + rest)[0] == s;
      assert ([s] + rest)[1..] == rest;
    }
  }

  /** Completeness: a tree that satisfies the judgement is annotated to
      itself, so annotating an annotated tree changes nothing. */
  lemma {:induction false} ExprComplete(tab: Table, ctx: string, e: Expr)
    requires TypedExpr(tab, ctx, e)
    ensures AnnotateExpr(tab, ctx, e) == Ok(e)
    decreases e
  {
    match e
    case ETerm(t, _) => TermComplete(tab, ctx, t);
    case EBin(_, l, t, _) => ExprComplete(tab, ctx, l); TermComplete(tab, ctx, t);
  }

  lemma {:induction false} TermComplete(tab: Table, ctx: string, t: Term)
    requires TypedTerm(tab, ctx, t)
    ensures AnnotateTerm(tab, ctx, t) == Ok(t)
    decreases t
  {
    match t
    case TFactor(f, _) => FactorComplete(tab, ctx, f);
    case TBin(_, l, f, _) => TermComplete(tab, ctx, l); FactorComplete(tab, ctx, f);
  }

  lemma {:induction false} FactorComplete(tab: Table, ctx: string, f: Factor)
    requires TypedFactor(tab, ctx, f)
    ensures AnnotateFactor(tab, ctx, f) == Ok(f)
    decreases f
  {
    match f
    case FId(_, _) =>
    case FNum(_, _) =>
    case FNull(_) =>
    case FParen(e, _) => ExprComplete(tab, ctx, e);
    case FAddr(lv, _) => LvalueComplete(tab, ctx, lv);
    case FDeref(g, _) => FactorComplete(tab, ctx, g);
    case FNew(e, _) => ExprComplete(tab, ctx, e);
    case FCall(c, args, _) =>
      if |args| > 0 {
        ArgsComplete(tab, ctx, args);
      } else {
        assert |TypesOf(args)| == 0;
      }
  }

  lemma {:induction false} ArgsComplete(tab: Table, ctx: string, args: seq<Expr>)
    requires TypedArgs(tab, ctx, args)
    ensures AnnotateArgs(tab, ctx, args) == Ok(args)
    decreases args
  {
    if |args| > 0 {
      ExprComplete(tab, ctx, args[0]);
      ArgsComplete(tab, ctx, args[1..]);
      assert [args[0]] + args[1..] == args;
    }
  }

  lemma {:induction false} LvalueComplete(tab: Table, ctx: string, lv: Lvalue)
    requires TypedLvalue(tab, ctx, lv)
    ensures AnnotateLvalue(tab, ctx, lv) == Ok(lv)
    decreases lv
  {
    match lv
    case LId(_, _) =>
    case LDeref(g, _) => FactorComplete(tab, ctx, g);
    case LParen(inner, _) => LvalueComplete(tab, ctx, inner);
  }

  lemma {:induction false} StmtComplete(tab: Table, ctx: string, s: Stmt)
    requires TypedStmt(tab, ctx, s)
    ensures AnnotateStmt(tab, ctx, s) == Ok(s)
    decreases s
  {
    match s
    case Assign(lv, e) => LvalueComplete(tab, ctx, lv); ExprComplete(tab, ctx, e);
    case If(t, a, b) =>
      ExprComplete(tab, ctx, t.lhs); ExprComplete(tab, ctx, t.rhs);
      StmtsComplete(tab, ctx, a); StmtsComplete(tab, ctx, b);
    case While(t, a) =>
      ExprComplete(tab, ctx, t.lhs); ExprComplete(tab, ctx, t.rhs);
      StmtsComplete(tab, ctx, a);
    case Println(e) => ExprComplete(tab, ctx, e);
    case Delete(e) => ExprComplete(tab, ctx, e);
  }

  lemma {:induction false} StmtsComplete(tab: Table, ctx: string, ss: seq<Stmt>)
    requires TypedStmts(tab, ctx, ss)
    ensures AnnotateStmts(tab, ctx, ss) == Ok(ss)
    decreases ss
  {
    if |ss| > 0 {
      StmtComplete(tab, ctx, ss[0]);
      StmtsComplete(tab, ctx, ss[1..]);
      assert [ss[0]] + ss[1..] == ss;
    }
  }

  /** Annotation is idempotent on statement lists. */
  lemma AnnotateIdempotent(tab: Table, ctx: string, ss: seq<Stmt>)
    requires AnnotateStmts(tab, ctx, ss).Ok?
    ensures AnnotateStmts(tab, ctx, AnnotateStmts(tab, ctx, ss).value) == AnnotateStmts(tab, ctx, ss)
  {
    StmtsSound(tab, ctx, ss);
    StmtsComplete(tab, ctx, AnnotateStmts(tab, ctx, ss).value);
  }

  // ---------------------------------------------------------------------
  // Declarations: names are distinct, signatures are in paramlist order
  // ---------------------------------------------------------------------

  function DclNames(ps: seq<Dcl>): (ns: seq<string>)
    ensures |ns| == |ps| && forall i :: 0 <= i < |ps| ==> ns[i] == ps[i].name
  {
    seq(|ps|, i requires 0 <= i < |ps| => ps[i].name)
  }

  function ParamTypes(ps: seq<Dcl>): (ts: seq<Ty>)
    ensures |ts| == |ps| && forall i :: 0 <= i < |ps| ==> ts[i] == ps[i].ty
  {
    seq(|ps|, i requires 0 <= i < |ps| => ps[i].ty)
  }

  function InitNames(ds: seq<InitDcl>): (ns: seq<string>)
    ensures |ns| == |ds| && forall i :: 0 <= i < |ds| ==> ns[i] == ds[i].dcl.name
  {
    seq(|ds|, i requires 0 <= i < |ds| => ds[i].dcl.name)
  }

  function InitTypes(ds: seq<InitDcl>): (ts: seq<Ty>)
    ensures |ts| == |ds| && forall i :: 0 <= i < |ds| ==> ts[i] == ds[i].dcl.ty
  {
    seq(|ds|, i requires 0 <= i < |ds| => ds[i].dcl.ty)
  }

  function ProcNames(ps: seq<Procedure>): (ns: seq<string>)
    ensures |ns| == |ps| && forall i :: 0 <= i < |ps| ==> ns[i] == ps[i].name
  {
    seq(|ps|, i requires 0 <= i < |ps| => ps[i].name)
  }

  predicate Distinct(ns: seq<string>) {
    forall i, j :: 0 <= i < j < |ns| ==> ns[i] != ns[j]
  }

  predicate FreshIn(ns: seq<string>, used: set<string>) {
    forall i :: 0 <= i < |ns| ==> ns[i] !in used
  }

  function Elems(ns: seq<string>): set<string> {
    set i | 0 <= i < |ns| :: ns[i]
  }

  lemma FreshCons(ns: seq<string>, used: set<string>)
    requires |ns| > 0
    ensures (Distinct(ns) && FreshIn(ns, used))
            <==> (ns[0] !in used && Distinct(ns[1..]) && FreshIn(ns[1..], used + {ns[0]}))
  {
    if ns[0] !in used && Distinct(ns[1..]) && FreshIn(ns[1..], used + {ns[0]}) {
      forall i, j | 0 <= i < j < |ns|
        ensures ns[i] != ns[j]
      {
        assert ns[j] == ns[1..][j - 1];
        if i > 0 {
          assert ns[i] == ns[1..][i - 1];
        }
      }
    }
    if Distinct(ns) && FreshIn(ns, used) {
      forall k | 0 <= k < |ns[1..]|
        ensures ns[1..][k] !in used + {ns[0]}
      {
        assert ns[1..][k] == ns[k + 1];
      }
    }
  }

  lemma ElemsCons(ns: seq<string>)
    requires |ns| > 0
    ensures Elems(ns) == {ns[0]} + Elems(ns[1..])
  {
    forall n | n in Elems(ns)
      ensures n in {ns[0]} + Elems(ns[1..])
    {
      var i :| 0 <= i < |ns| && ns[i] == n;
      if i > 0 {
        assert ns[1..][i - 1] == n;
      }
    }
    forall n | n in Elems(ns[1..])
      ensures n in Elems(ns)
    {
      var i :| 0 <= i < |ns[1..]| && ns[1..][i] == n;
      assert ns[i + 1] == n;
    }
  }

  lemma DistinctAppend(a: seq<string>, b: seq<string>)
    requires Distinct(a) && Distinct(b) && FreshIn(b, Elems(a))
    ensures Distinct(a + b)
  {
    forall i, j | 0 <= i < j < |a + b|
      ensures (a + b)[i] != (a + b)[j]
    {
      if j >= |a| && i < |a| {
        assert (a + b)[j] == b[j - |a|];
        assert a[i] in Elems(a);
      } else if i >= |a| {
        assert (a + b)[j] == b[j - |a|] && (a + b)[i] == b[i - |a|];
      }
    }
  }

  /** `t` is `tab` with only `ctx`'s entry changed: signature `params`, the
      old variables kept, and the `k`-th name of `ns` bound to `ts[k]`. */
  predicate Extends(tab: Table, t: Table, ctx: string, params: seq<Ty>, ns: seq<string>, ts: seq<Ty>)
    requires ctx in tab && |ns| == |ts|
  {
    && t.Keys == tab.Keys
    && (forall n :: n in tab && n != ctx ==> t[n] == tab[n])
    && t[ctx].params == params
    && t[ctx].vars.Keys == tab[ctx].vars.Keys + Elems(ns)
    && (forall n :: n in tab[ctx].vars ==> t[ctx].vars[n] == tab[ctx].vars[n])
    && (forall i :: 0 <= i < |ns| ==> ns[i] in t[ctx].vars && t[ctx].vars[ns[i]] == ts[i])
  }

  /** Declaring a fresh name and then extending by the rest extends by all. */
  lemma ExtendsCons(tab: Table, t1: Table, t: Table, ctx: string, p1: seq<Ty>, params: seq<Ty>,
                    ns: seq<string>, ts: seq<Ty>)
    requires ctx in tab && |ns| == |ts| && |ns| > 0 && ns[0] !in tab[ctx].vars
    requires t1 == tab[ctx := ProcEntry(p1, tab[ctx].vars[ns[0] := ts[0]])]
    requires Extends(t1, t, ctx, params, ns[1..], ts[1..])
    ensures Extends(tab, t, ctx, params, ns, ts)
  {
    ElemsCons(ns);
    forall i | 0 <= i < |ns|
      ensures ns[i] in t[ctx].vars && t[ctx].vars[ns[i]] == ts[i]
    {
      if i > 0 {
        assert ns[i] == ns[1..][i - 1] && ts[i] == ts[1..][i - 1];
      }
    }
  }

  /** A fresh first parameter is bound and appended to the signature. */
  lemma DeclareParamsStep(tab: Table, ctx: string, ps: seq<Dcl>)
    requires ctx in tab && |ps| > 0
    ensures ps[0].name in tab[ctx].vars ==> DeclareParams(tab, ctx, ps) == Err(DuplicateVariable(ps[0].name))
    ensures var e := tab[ctx];
      ps[0].name !in e.vars ==>
      DeclareParams(tab, ctx, ps)
      == DeclareParams(tab[ctx := ProcEntry(e.params + [ps[0].ty], e.vars[ps[0].name := ps[0].ty])], ctx, ps[1..])
  {
    var d := ps[0];
    var entry := tab[ctx];
    if d.name !in entry.vars {
      var t0 := tab[ctx := ProcEntry(entry.params, entry.vars[d.name := d.ty])];
      assert Declare(tab, ctx, d) == Ok(t0);
      assert Entry(t0, ctx) == ProcEntry(entry.params, entry.vars[d.name := d.ty]);
      assert t0[ctx := ProcEntry(entry.params + [d.ty], entry.vars[d.name := d.ty])]
          == tab[ctx := ProcEntry(entry.params + [d.ty], entry.vars[d.name := d.ty])];
    }
  }

  /** The parameter list is accepted exactly when its names are distinct
      and new to the procedure; the signature then grows by the parameter
      types in order and each name is bound to its declared type. */
  lemma DeclareParamsSpec(tab: Table, ctx: string, ps: seq<Dcl>)
    requires ctx in tab
    ensures DeclareParams(tab, ctx, ps).Ok?
            <==> Distinct(DclNames(ps)) && FreshIn(DclNames(ps), tab[ctx].vars.Keys)
    ensures DeclareParams(tab, ctx, ps).Ok? ==>
              Extends(tab, DeclareParams(tab, ctx, ps).value, ctx,
                      tab[ctx].params + ParamTypes(ps), DclNames(ps), ParamTypes(ps))
  {
    DeclareParamsAccepts(tab, ctx, ps);
    if DeclareParams(tab, ctx, ps).Ok? {
      DeclareParamsExtends(tab, ctx, ps);
    }
  }

  lemma {:induction false} DeclareParamsAccepts(tab: Table, ctx: string, ps: seq<Dcl>)
    requires ctx in tab
    ensures DeclareParams(tab, ctx, ps).Ok?
            <==> Distinct(DclNames(ps)) && FreshIn(DclNames(ps), tab[ctx].vars.Keys)
    decreases |ps|
  {
    if |ps| > 0 {
      var names := DclNames(ps);
      var d := ps[0];
      var entry := tab[ctx];
      FreshCons(names, entry.vars.Keys);
      if d.name !in entry.vars {
        var t1 := tab[ctx := ProcEntry(entry.params + [d.ty], entry.vars[d.name := d.ty])];
        DeclareParamsStep(tab, ctx, ps);
        assert DclNames(ps[1..]) == names[1..];
        assert t1[ctx].vars.Keys == entry.vars.Keys + {names[0]};
        DeclareParamsAccepts(t1, ctx, ps[1..]);
      }
    }
  }

  lemma ExtendsParam(tab: Table, t1: Table, t: Table, ctx: string, ps: seq<Dcl>)
    requires ctx in tab && |ps| > 0 && ps[0].name !in tab[ctx].vars
    requires t1 == tab[ctx := ProcEntry(tab[ctx].params + [ps[0].ty], tab[ctx].vars[ps[0].name := ps[0].ty])]
    requires Extends(t1, t, ctx, t1[ctx].params + ParamTypes(ps[1..]), DclNames(ps[1..]), ParamTypes(ps[1..]))
    ensures Extends(tab, t, ctx, tab[ctx].params + ParamTypes(ps), DclNames(ps), ParamTypes(ps))
  {
    var names := DclNames(ps);
    var ts := ParamTypes(ps);
    var P := tab[ctx].params + ts;
    assert DclNames(ps[1..]) == names[1..];
    assert ParamTypes(ps[1..]) == ts[1..];
    assert t1[ctx].params + ParamTypes(ps[1..]) == P;
    ExtendsCons(tab, t1, t, ctx, tab[ctx].params + [ps[0].ty], P, names, ts);
  }

  lemma {:induction false} DeclareParamsExtends(tab: Table, ctx: string, ps: seq<Dcl>)
    requires ctx in tab && DeclareParams(tab, ctx, ps).Ok?
    ensures Extends(tab, DeclareParams(tab, ctx, ps).value, ctx,
                    tab[ctx].params + ParamTypes(ps), DclNames(ps), ParamTypes(ps))
    decreases |ps|
  {
    var names := DclNames(ps);
    if |ps| == 0 {
      assert tab[ctx].params + ParamTypes(ps) == tab[ctx].params;
      assert Elems(names) == {};
    } else {
      var d := ps[0];
      var entry := tab[ctx];
      DeclareParamsStep(tab, ctx, ps);
      var t1 := tab[ctx := ProcEntry(entry.params + [d.ty], entry.vars[d.name := d.ty])];
      assert DclNames(ps[1..]) == names[1..];
      DeclareParamsExtends(t1, ctx, ps[1..]);
      ExtendsParam(tab, t1, DeclareParams(t1, ctx, ps[1..]).value, ctx, ps);
    }
  }

  /** The declarations are accepted exactly when their names are distinct
      and new and every initializer matches its declared type (NUM for int,
      NULL for int*); each name is then bound to its declared type. */
  lemma {:induction false} DeclareInitsSpec(tab: Table, ctx: string, ds: seq<InitDcl>)
    requires ctx in tab
    ensures DeclareInits(tab, ctx, ds).Ok?
            <==> && Distinct(InitNames(ds)) && FreshIn(InitNames(ds), tab[ctx].vars.Keys)
                 && forall i :: 0 <= i < |ds| ==> InitFits(ds[i])
    ensures DeclareInits(tab, ctx, ds).Ok? ==>
              Extends(tab, DeclareInits(tab, ctx, ds).value, ctx, tab[ctx].params, InitNames(ds), InitTypes(ds))
    decreases |ds|
  {
    var names := InitNames(ds);
    if |ds| == 0 {
      assert Elems(names) == {};
    } else {
      var d := ds[0].dcl;
      var entry := tab[ctx];
      FreshCons(names, entry.vars.Keys);
      if d.name !in entry.vars {
        var t1 := tab[ctx := ProcEntry(entry.params, entry.vars[d.name := d.ty])];
        assert InitNames(ds[1..]) == names[1..];
        assert t1[ctx].vars.Keys == entry.vars.Keys + {names[0]};
        DeclareInitsSpec(t1, ctx, ds[1..]);
        if InitFits(ds[0]) {
          assert DeclareInits(tab, ctx, ds) == DeclareInits(t1, ctx, ds[1..]);
          var r := DeclareInits(t1, ctx, ds[1..]);
          if r.Ok? {
            assert InitTypes(ds[1..]) == InitTypes(ds)[1..];
            ExtendsCons(tab, t1, r.value, ctx, entry.params, entry.params, names, InitTypes(ds));
          }
          if (forall i :: 0 <= i < |ds| ==> InitFits(ds[i])) {
            assert forall i :: 0 <= i < |ds[1..]| ==> InitFits(ds[1..][i]) by {
              forall i | 0 <= i < |ds[1..]| ensures InitFits(ds[1..][i]) {
                assert ds[1..][i] == ds[i + 1];
              }
            }
          }
          if (forall i :: 0 <= i < |ds[1..]| ==> InitFits(ds[1..][i])) {
            forall i | 0 <= i < |ds| ensures InitFits(ds[i]) {
              if i > 0 {
                assert ds[i] == ds[1..][i - 1];
              }
            }
          }
        }
      }
    }
  }

  // ---------------------------------------------------------------------
  // Procedures, wain and the whole program
  // ---------------------------------------------------------------------

  /** Two extensions of the same entry in a row are one extension. */
  lemma ExtendsTrans(tab: Table, t2: Table, t: Table, ctx: string, params: seq<Ty>,
                     ns1: seq<string>, ts1: seq<Ty>, ns2: seq<string>, ts2: seq<Ty>)
    requires ctx in tab && |ns1| == |ts1| && |ns2| == |ts2|
    requires Extends(tab, t2, ctx, params, ns1, ts1)
    requires Extends(t2, t, ctx, params, ns2, ts2)
    ensures Extends(tab, t, ctx, params, ns1 + ns2, ts1 + ts2)
  {
    ElemsAppend(ns1, ns2);
    var ns, ts := ns1 + ns2, ts1 + ts2;
    forall i | 0 <= i < |ns|
      ensures ns[i] in t[ctx].vars && t[ctx].vars[ns[i]] == ts[i]
    {
      if i >= |ns1| {
        assert ns[i] == ns2[i - |ns1|] && ts[i] == ts2[i - |ns1|];
      }
    }
  }

  lemma ElemsAppend(a: seq<string>, b: seq<string>)
    ensures Elems(a + b) == Elems(a) + Elems(b)
  {
    forall x | x in Elems(a + b) ensures x in Elems(a) + Elems(b) {
      var i :| 0 <= i < |a + b| && (a + b)[i] == x;
      if i >= |a| { assert b[i - |a|] == x; }
    }
    forall x | x in Elems(a) + Elems(b) ensures x in Elems(a + b) {
      if x in Elems(a) {
        var i :| 0 <= i < |a| && a[i] == x;
        assert (a + b)[i] == x;
      } else {
        var i :| 0 <= i < |b| && b[i] == x;
        assert (a + b)[|a| + i] == x;
      }
    }
  }

  /** A procedure name already in the table is an error.  Otherwise the
      procedure's fresh entry is extended by its parameters and then its
      declarations: the signature is its parameter types in order, all
      names are distinct, each is bound to its declared type and every
      initializer fits. */
  lemma DeclareProcedureRule(tab: Table, p: Procedure)
    ensures p.name in tab ==> DeclareProcedure(tab, p) == Err(DuplicateProcedure(p.name))
    ensures DeclareProcedure(tab, p).Ok? ==>
              && p.name !in tab
              && Distinct(DclNames(p.params) + InitNames(p.dcls))
              && (forall i :: 0 <= i < |p.dcls| ==> InitFits(p.dcls[i]))
              && Extends(tab[p.name := ProcEntry([], map[])], DeclareProcedure(tab, p).value, p.name,
                         ParamTypes(p.params), DclNames(p.params) + InitNames(p.dcls),
                         ParamTypes(p.params) + InitTypes(p.dcls))
  {
    if p.name !in tab && DeclareProcedure(tab, p).Ok? {
      var t1 := tab[p.name := ProcEntry([], map[])];
      assert DeclareParams(t1, p.name, p.params).Ok?;
      assert DeclareProcedure(tab, p) == DeclareInits(DeclareParams(t1, p.name, p.params).value, p.name, p.dcls);
      EntryExtends(t1, p.name, p.params, p.dcls);
    }
  }

  /** Parameters, then declarations, into an entry that starts empty. */
  lemma EntryExtends(t1: Table, ctx: string, params: seq<Dcl>, dcls: seq<InitDcl>)
    requires ctx in t1 && t1[ctx] == ProcEntry([], map[])
    requires DeclareParams(t1, ctx, params).Ok?
    requires DeclareInits(DeclareParams(t1, ctx, params).value, ctx, dcls).Ok?
    ensures var t := DeclareInits(DeclareParams(t1, ctx, params).value, ctx, dcls).value;
      && Distinct(DclNames(params) + InitNames(dcls))
      && (forall i :: 0 <= i < |dcls| ==> InitFits(dcls[i]))
      && Extends(t1, t, ctx, ParamTypes(params), DclNames(params) + InitNames(dcls),
                 ParamTypes(params) + InitTypes(dcls))
  {
    DeclareParamsSpec(t1, ctx, params);
    var t2 := DeclareParams(t1, ctx, params).value;
    assert [] + ParamTypes(params) == ParamTypes(params);
    DeclareInitsSpec(t2, ctx, dcls);
    var t := DeclareInits(t2, ctx, dcls).value;
    ExtendsTrans(t1, t2, t, ctx, ParamTypes(params), DclNames(params), ParamTypes(params),
                 InitNames(dcls), InitTypes(dcls));
    assert t2[ctx].vars.Keys == Elems(DclNames(params));
    DistinctAppend(DclNames(params), InitNames(dcls));
  }

  /** Declaring a procedure adds exactly its own entry, whose signature is
      its parameter types. */
  lemma DeclareProcedureTable(tab: Table, p: Procedure)
    ensures DeclareProcedure(tab, p).Ok? ==>
              var t := DeclareProcedure(tab, p).value;
              && t.Keys == tab.Keys + {p.name}
              && (forall n :: n in tab ==> t[n] == tab[n])
              && t[p.name].params == ParamTypes(p.params)
  {
    DeclareProcedureRule(tab, p);
  }

  /** An accepted body is well typed, keeps its shape and returns an int. */
  lemma BodyRule(tab: Table, ctx: string, body: seq<Stmt>, ret: Expr)
    ensures CheckBody(tab, ctx, body, ret).Ok? ==>
              var (b, r) := CheckBody(tab, ctx, body, ret).value;
              && TypedStmts(tab, ctx, b) && EraseStmts(b) == EraseStmts(body)
              && TypedExpr(tab, ctx, r) && EraseExpr(r) == EraseExpr(ret) && r.ty == Int
  {
    if CheckBody(tab, ctx, body, ret).Ok? {
      StmtsSound(tab, ctx, body);
      ExprSound(tab, ctx, ret);
    }
  }

  lemma PairElems(a: string, b: string)
    ensures Elems([a, b]) == {a, b}
  {
    assert [a, b][0] == a && [a, b][1] == b;
  }

  /** wain: its parameter and declaration names are distinct and new, its
      second parameter is int, and only wain's variables change (its
      signature stays as it was). */
  lemma DeclareMainRule(tab: Table, m: Main)
    ensures DeclareMain(tab, m).Ok? ==>
              var t := DeclareMain(tab, m).value;
              var names := [m.first.name, m.second.name] + InitNames(m.dcls);
              && m.second.ty == Int
              && Distinct(names) && FreshIn(names, Entry(tab, WainName).vars.Keys)
              && t.Keys == tab.Keys + {WainName}
              && (forall n :: n in tab && n != WainName ==> t[n] == tab[n])
              && t[WainName].params == Entry(tab, WainName).params
              && (forall i :: 0 <= i < |m.dcls| ==> InitFits(m.dcls[i]))
    ensures (var vars := Entry(tab, WainName).vars;
             m.first.name !in vars && m.second.name !in vars && m.first.name != m.second.name
             && m.second.ty != Int) ==> DeclareMain(tab, m) == Err(SecondParamNotInt)
  {
    if DeclareMain(tab, m).Ok? {
      var e := Entry(tab, WainName);
      var t1 := Declare(tab, WainName, m.first).value;
      var t2 := Declare(t1, WainName, m.second).value;
      assert t2[WainName].vars.Keys == e.vars.Keys + {m.first.name, m.second.name};
      DeclareInitsSpec(t2, WainName, m.dcls);
      var two := [m.first.name, m.second.name];
      PairElems(m.first.name, m.second.name);
      DistinctAppend(two, InitNames(m.dcls));
      var names := two + InitNames(m.dcls);
      forall i | 0 <= i < |names|
        ensures names[i] !in e.vars.Keys
      {
        if i >= 2 {
          assert names[i] == InitNames(m.dcls)[i - 2];
        }
      }
    }
  }

  /** One procedure, then the rest. */
  lemma ProceduresStep(tab: Table, ps: seq<Procedure>)
    requires |ps| > 0 && CheckProcedures(tab, ps).Ok?
    ensures CheckProcedure(tab, ps[0]).Ok?
    ensures var t1 := CheckProcedure(tab, ps[0]).value.0;
            && CheckProcedures(t1, ps[1..]).Ok?
            && CheckProcedures(tab, ps).value.0 == CheckProcedures(t1, ps[1..]).value.0
            && CheckProcedures(tab, ps).value.1
               == [CheckProcedure(tab, ps[0]).value.1] + CheckProcedures(t1, ps[1..]).value.1
  {
  }

  /** Accepted procedures have distinct names new to the table; each adds
      its own entry, whose signature is its parameter types in order. */
  lemma {:induction false} ProceduresTable(tab: Table, ps: seq<Procedure>)
    ensures CheckProcedures(tab, ps).Ok? ==>
              var t := CheckProcedures(tab, ps).value.0;
              && Distinct(ProcNames(ps)) && FreshIn(ProcNames(ps), tab.Keys)
              && t.Keys == tab.Keys + Elems(ProcNames(ps))
              && (forall n :: n in tab ==> t[n] == tab[n])
              && (forall i :: 0 <= i < |ps| ==> t[ps[i].name].params == ParamTypes(ps[i].params))
    decreases |ps|
  {
    var names := ProcNames(ps);
    if |ps| == 0 {
      assert Elems(names) == {};
    } else if CheckProcedures(tab, ps).Ok? {
      ProceduresStep(tab, ps);
      var t1 := CheckProcedure(tab, ps[0]).value.0;
      assert t1 == DeclareProcedure(tab, ps[0]).value;
      DeclareProcedureTable(tab, ps[0]);
      ProceduresTable(t1, ps[1..]);
      var t := CheckProcedures(tab, ps).value.0;
      assert ProcNames(ps[1..]) == names[1..];
      FreshCons(names, tab.Keys);
      ElemsCons(names);
      forall i | 0 <= i < |ps|
        ensures t[ps[i].name].params == ParamTypes(ps[i].params)
      {
        if i > 0 {
          assert ps[i] == ps[1..][i - 1];
        }
      }
    }
  }

  /** An accepted procedure keeps its name and has an int return expression. */
  lemma ProcedureShape(tab: Table, p: Procedure)
    ensures CheckProcedure(tab, p).Ok? ==>
              CheckProcedure(tab, p).value.1.name == p.name && CheckProcedure(tab, p).value.1.ret.ty == Int
  {
    if CheckProcedure(tab, p).Ok? {
      BodyRule(DeclareProcedure(tab, p).value, p.name, p.body, p.ret);
    }
  }

  /** Accepted procedures come back one for one, in order, under their own
      names and with int return expressions. */
  lemma {:induction false} ProceduresShape(tab: Table, ps: seq<Procedure>)
    ensures CheckProcedures(tab, ps).Ok? ==>
              var qs := CheckProcedures(tab, ps).value.1;
              && |qs| == |ps|
              && (forall i :: 0 <= i < |ps| ==> qs[i].name == ps[i].name && qs[i].ret.ty == Int)
    decreases |ps|
  {
    if |ps| > 0 && CheckProcedures(tab, ps).Ok? {
      ProceduresStep(tab, ps);
      var t1 := CheckProcedure(tab, ps[0]).value.0;
      ProcedureShape(tab, ps[0]);
      ProceduresShape(t1, ps[1..]);
      var qs' := CheckProcedures(t1, ps[1..]).value.1;
      var qs := CheckProcedures(tab, ps).value.1;
      forall i | 0 <= i < |ps|
        ensures qs[i].name == ps[i].name && qs[i].ret.ty == Int
      {
        if i > 0 {
          assert ps[i] == ps[1..][i - 1];
          assert qs[i] == qs'[i - 1];
        }
      }
    }
  }

  /** An accepted main has an int second parameter and an int return
      expression. */
  lemma MainShape(tab: Table, m: Main)
    ensures CheckMain(tab, m).Ok? ==> m.second.ty == Int && CheckMain(tab, m).value.1.ret.ty == Int
  {
    DeclareMainRule(tab, m);
    if CheckMain(tab, m).Ok? {
      BodyRule(DeclareMain(tab, m).value, WainName, m.body, m.ret);
    }
  }

  /** An accepted program: procedure names are distinct, every procedure's
      recorded signature is its parameter types in order, wain's second
      parameter is int, and every return expression is int. */
  lemma ProgramRule(prog: Program)
    ensures CheckProgram(prog).Ok? ==>
              var t := CheckProgram(prog).value.0;
              var q := CheckProgram(prog).value.1;
              var ps := prog.procedures;
              && Distinct(ProcNames(ps))
              && (forall i :: 0 <= i < |ps| ==> ps[i].name in t && t[ps[i].name].params == ParamTypes(ps[i].params))
              && prog.main.second.ty == Int
              && |q.procedures| == |ps|
              && (forall i :: 0 <= i < |ps| ==> q.procedures[i].ret.ty == Int)
              && q.main.ret.ty == Int
  {
    if CheckProgram(prog).Ok? {
      ProceduresTable(map[], prog.procedures);
      ProceduresShape(map[], prog.procedures);
      var (t1, ps) := CheckProcedures(map[], prog.procedures).value;
      MainShape(t1, prog.main);
      DeclareMainRule(t1, prog.main);
      assert CheckProgram(prog).value == (DeclareMain(t1, prog.main).value, Program(ps, CheckMain(t1, prog.main).value.1));
      var ps0 := prog.procedures;
      forall i | 0 <= i < |ps0|
        ensures ps0[i].name in t1
      {
        assert ps0[i].name == ProcNames(ps0)[i];
      }
    }
  }

}
