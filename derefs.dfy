/** The dereference scan that runs after optimization and before code
    generation: every variable whose address is taken with `&` is recorded
    in `dereferencedVariables`, and the allocator then keeps it out of
    registers (an address must point into the frame). */
module Derefs {
  import opened Ast

  /** AsWritten stops at `factor -> AMP lvalue` once the lvalue has been
      unwrapped; Intended also scans the factor of an `lvalue -> STAR factor`
      found there, so that the inner `&x` of `&*&x` is seen. */
  datatype ScanRule = AsWritten | Intended

  function Elems(s: seq<string>): set<string> {
    set x | x in s
  }

  lemma ElemsAppend(a: seq<string>, b: seq<string>)
    ensures Elems(a + b) == Elems(a) + Elems(b)
  {
    forall x | x in Elems(a + b) ensures x in Elems(a) + Elems(b) {
      var i :| 0 <= i < |a + b| && (a + b)[i] == x;
      if i >= |a| {
        assert b[i - |a|] == x;
      }
    }
  }

  /** Names recorded part by part are the names of the parts together. */
  lemma Regroup(d: seq<string>, l: seq<string>, r: seq<string>, a: seq<string>, b: seq<string>)
    ensures d + l + r + a + b == d + (l + r + a + b)
  {
  }

  // ---------------------------------------------------------------------
  // The scan: names recorded, in the order they are met
  // ---------------------------------------------------------------------

  function DerefsExpr(rule: ScanRule, e: Expr): seq<string>
    decreases e
  {
    match e
    case ETerm(t, _) => DerefsTerm(rule, t)
    case EBin(_, l, t, _) => DerefsExpr(rule, l) + DerefsTerm(rule, t)
  }

  function DerefsTerm(rule: ScanRule, t: Term): seq<string>
    decreases t
  {
    match t
    case TFactor(f, _) => DerefsFactor(rule, f)
    case TBin(_, l, f, _) => DerefsTerm(rule, l) + DerefsFactor(rule, f)
  }

  function DerefsFactor(rule: ScanRule, f: Factor): seq<string>
    decreases f
  {
    match f
    case FId(_, _) => []
    case FNum(_, _) => []
    case FNull(_) => []
    case FParen(e, _) => DerefsExpr(rule, e)
    case FAddr(lv, _) => DerefsAddr(rule, lv)
    case FDeref(g, _) => DerefsFactor(rule, g)
    case FNew(e, _) => DerefsExpr(rule, e)
    case FCall(_, args, _) => DerefsArgs(rule, args)
  }

  /** The lvalue of `factor -> AMP lvalue`, unwrapped through parentheses. */
  function DerefsAddr(rule: ScanRule, lv: Lvalue): seq<string>
    decreases lv
  {
    match lv
    case LId(x, _) => [x]
    case LParen(inner, _) => DerefsAddr(rule, inner)
    case LDeref(g, _) => if rule == Intended then DerefsFactor(rule, g) else []
  }

  function DerefsArgs(rule: ScanRule, args: seq<Expr>): seq<string>
    decreases args
  {
    if |args| == 0 then [] else DerefsExpr(rule, args[0]) + DerefsArgs(rule, args[1..])
  }

  /** An lvalue that is not under `&` (an assignment target). */
  function DerefsLvalue(rule: ScanRule, lv: Lvalue): seq<string>
    decreases lv
  {
    match lv
    case LId(_, _) => []
    case LDeref(g, _) => DerefsFactor(rule, g)
    case LParen(inner, _) => DerefsLvalue(rule, inner)
  }

  function DerefsTest(rule: ScanRule, t: Test): seq<string> {
    DerefsExpr(rule, t.lhs) + DerefsExpr(rule, t.rhs)
  }

  function DerefsStmt(rule: ScanRule, s: Stmt): seq<string>
    decreases s
  {
    match s
    case Assign(lv, e) => DerefsLvalue(rule, lv) + DerefsExpr(rule, e)
    case If(t, a, b) => DerefsTest(rule, t) + DerefsStmts(rule, a) + DerefsStmts(rule, b)
    case While(t, body) => DerefsTest(rule, t) + DerefsStmts(rule, body)
    case Println(e) => DerefsExpr(rule, e)
    case Delete(e) => DerefsExpr(rule, e)
  }

  function DerefsStmts(rule: ScanRule, ss: seq<Stmt>): seq<string>
    decreases ss
  {
    if |ss| == 0 then [] else DerefsStmt(rule, ss[0]) + DerefsStmts(rule, ss[1..])
  }

  /** Parameters and declarations hold no expression; the statements and
      the return expression are scanned. */
  function DerefsBody(rule: ScanRule, body: seq<Stmt>, ret: Expr): seq<string> {
    DerefsStmts(rule, body) + DerefsExpr(rule, ret)
  }

  function DerefsProcedures(rule: ScanRule, ps: seq<Procedure>): seq<string>
    decreases ps
  {
    if |ps| == 0 then []
    else DerefsBody(rule, ps[0].body, ps[0].ret) + DerefsProcedures(rule, ps[1..])
  }

  function DerefsProgram(rule: ScanRule, prog: Program): seq<string> {
    DerefsProcedures(rule, prog.procedures) + DerefsBody(rule, prog.main.body, prog.main.ret)
  }

  // ---------------------------------------------------------------------
  // Reference: the operands of every `&` in the tree
  // ---------------------------------------------------------------------

  /** The lvalue left once the LPAREN lvalue RPAREN wrappers are removed. */
  function Unwrap(lv: Lvalue): (r: Lvalue)
    ensures !r.LParen?
    decreases lv
  {
    if lv.LParen? then Unwrap(lv.lv) else lv
  }

  /** Every lvalue that appears as the operand of `factor -> AMP lvalue`,
      however deeply nested. */
  function OperandsExpr(e: Expr): set<Lvalue>
    decreases e
  {
    match e
    case ETerm(t, _) => OperandsTerm(t)
    case EBin(_, l, t, _) => OperandsExpr(l) + OperandsTerm(t)
  }

  function OperandsTerm(t: Term): set<Lvalue>
    decreases t
  {
    match t
    case TFactor(f, _) => OperandsFactor(f)
    case TBin(_, l, f, _) => OperandsTerm(l) + OperandsFactor(f)
  }

  function OperandsFactor(f: Factor): set<Lvalue>
    decreases f
  {
    match f
    case FId(_, _) => {}
    case FNum(_, _) => {}
    case FNull(_) => {}
    case FParen(e, _) => OperandsExpr(e)
    case FAddr(lv, _) => {lv} + OperandsLvalue(lv)
    case FDeref(g, _) => OperandsFactor(g)
    case FNew(e, _) => OperandsExpr(e)
    case FCall(_, args, _) => OperandsArgs(args)
  }

  function OperandsArgs(args: seq<Expr>): set<Lvalue>
    decreases args
  {
    if |args| == 0 then {} else OperandsExpr(args[0]) + OperandsArgs(args[1..])
  }

  function OperandsLvalue(lv: Lvalue): set<Lvalue>
    decreases lv
  {
    match lv
    case LId(_, _) => {}
    case LDeref(g, _) => OperandsFactor(g)
    case LParen(inner, _) => OperandsLvalue(inner)
  }

  function OperandsStmt(s: Stmt): set<Lvalue>
    decreases s
  {
    match s
    case Assign(lv, e) => OperandsLvalue(lv) + OperandsExpr(e)
    case If(t, a, b) => OperandsExpr(t.lhs) + OperandsExpr(t.rhs) + OperandsStmts(a) + OperandsStmts(b)
    case While(t, body) => OperandsExpr(t.lhs) + OperandsExpr(t.rhs) + OperandsStmts(body)
    case Println(e) => OperandsExpr(e)
    case Delete(e) => OperandsExpr(e)
  }

  function OperandsStmts(ss: seq<Stmt>): set<Lvalue>
    decreases ss
  {
    if |ss| == 0 then {} else OperandsStmt(ss[0]) + OperandsStmts(ss[1..])
  }

  function OperandsProgram(prog: Program): set<Lvalue>
    decreases prog.procedures
  {
    if |prog.procedures| == 0 then OperandsStmts(prog.main.body) + OperandsExpr(prog.main.ret)
    else
      var p := prog.procedures[0];
      OperandsStmts(p.body) + OperandsExpr(p.ret) + OperandsProgram(Program(prog.procedures[1..], prog.main))
  }

  /** The names whose address is taken: `&x`, `&(x)`, `&((x))`, ... */
  function AddrNames(ls: set<Lvalue>): set<string> {
    set lv | lv in ls && Unwrap(lv).LId? :: Unwrap(lv).name
  }

  lemma AddrNamesUnion(a: set<Lvalue>, b: set<Lvalue>)
    ensures AddrNames(a + b) == AddrNames(a) + AddrNames(b)
  {
  }

  // ---------------------------------------------------------------------
  // The intended scan records exactly the names whose address is taken;
  // the scan as written records only such names, but can miss some
  // ---------------------------------------------------------------------

  lemma {:induction false} ExprScan(rule: ScanRule, e: Expr)
    ensures Elems(DerefsExpr(rule, e)) <= AddrNames(OperandsExpr(e))
    ensures rule == Intended ==> Elems(DerefsExpr(rule, e)) == AddrNames(OperandsExpr(e))
    decreases e
  {
    match e
    case ETerm(t, _) => TermScan(rule, t);
    case EBin(_, l, t, _) =>
      ExprScan(rule, l);
      TermScan(rule, t);
      ElemsAppend(DerefsExpr(rule, l), DerefsTerm(rule, t));
      AddrNamesUnion(OperandsExpr(l), OperandsTerm(t));
  }

  lemma {:induction false} TermScan(rule: ScanRule, t: Term)
    ensures Elems(DerefsTerm(rule, t)) <= AddrNames(OperandsTerm(t))
    ensures rule == Intended ==> Elems(DerefsTerm(rule, t)) == AddrNames(OperandsTerm(t))
    decreases t
  {
    match t
    case TFactor(f, _) => FactorScan(rule, f);
    case TBin(_, l, f, _) =>
      TermScan(rule, l);
      FactorScan(rule, f);
      ElemsAppend(DerefsTerm(rule, l), DerefsFactor(rule, f));
      AddrNamesUnion(OperandsTerm(l), OperandsFactor(f));
  }

  lemma {:induction false} FactorScan(rule: ScanRule, f: Factor)
    ensures Elems(DerefsFactor(rule, f)) <= AddrNames(OperandsFactor(f))
    ensures rule == Intended ==> Elems(DerefsFactor(rule, f)) == AddrNames(OperandsFactor(f))
    decreases f
  {
    match f
    case FId(_, _) =>
    case FNum(_, _) =>
    case FNull(_) =>
    case FParen(e, _) => ExprScan(rule, e);
    case FAddr(lv, _) =>
      AddrScan(rule, lv);
      AddrNamesUnion({lv}, OperandsLvalue(lv));
      assert AddrNames({lv}) == if Unwrap(lv).LId? then {Unwrap(lv).name} else {};
    case FDeref(g, _) => FactorScan(rule, g);
    case FNew(e, _) => ExprScan(rule, e);
    case FCall(_, args, _) => ArgsScan(rule, args);
  }

  lemma {:induction false} AddrScan(rule: ScanRule, lv: Lvalue)
    ensures var own := if Unwrap(lv).LId? then {Unwrap(lv).name} else {};
            && Elems(DerefsAddr(rule, lv)) <= own + AddrNames(OperandsLvalue(lv))
            && (rule == Intended ==> Elems(DerefsAddr(rule, lv)) == own + AddrNames(OperandsLvalue(lv)))
    decreases lv
  {
    match lv
    case LId(x, _) => assert Elems([x]) == {x};
    case LParen(inner, _) => AddrScan(rule, inner);
    case LDeref(g, _) => FactorScan(rule, g);
  }

  lemma {:induction false} ArgsScan(rule: ScanRule, args: seq<Expr>)
    ensures Elems(DerefsArgs(rule, args)) <= AddrNames(OperandsArgs(args))
    ensures rule == Intended ==> Elems(DerefsArgs(rule, args)) == AddrNames(OperandsArgs(args))
    decreases args
  {
    if |args| > 0 {
      ExprScan(rule, args[0]);
      ArgsScan(rule, args[1..]);
      ElemsAppend(DerefsExpr(rule, args[0]), DerefsArgs(rule, args[1..]));
      AddrNamesUnion(OperandsExpr(args[0]), OperandsArgs(args[1..]));
    }
  }

  lemma {:induction false} LvalueScan(rule: ScanRule, lv: Lvalue)
    ensures Elems(DerefsLvalue(rule, lv)) <= AddrNames(OperandsLvalue(lv))
    ensures rule == Intended ==> Elems(DerefsLvalue(rule, lv)) == AddrNames(OperandsLvalue(lv))
    decreases lv
  {
    match lv
    case LId(_, _) =>
    case LDeref(g, _) => FactorScan(rule, g);
    case LParen(inner, _) => LvalueScan(rule, inner);
  }

  lemma TestScan(rule: ScanRule, t: Test)
    ensures Elems(DerefsTest(rule, t)) <= AddrNames(OperandsExpr(t.lhs) + OperandsExpr(t.rhs))
    ensures rule == Intended ==>
              Elems(DerefsTest(rule, t)) == AddrNames(OperandsExpr(t.lhs) + OperandsExpr(t.rhs))
  {
    ExprScan(rule, t.lhs);
    ExprScan(rule, t.rhs);
    ElemsAppend(DerefsExpr(rule, t.lhs), DerefsExpr(rule, t.rhs));
    AddrNamesUnion(OperandsExpr(t.lhs), OperandsExpr(t.rhs));
  }

  lemma {:induction false} StmtScan(rule: ScanRule, s: Stmt)
    ensures Elems(DerefsStmt(rule, s)) <= AddrNames(OperandsStmt(s))
    ensures rule == Intended ==> Elems(DerefsStmt(rule, s)) == AddrNames(OperandsStmt(s))
    decreases s
  {
    match s
    case Assign(lv, e) =>
      LvalueScan(rule, lv);
      ExprScan(rule, e);
      ElemsAppend(DerefsLvalue(rule, lv), DerefsExpr(rule, e));
      AddrNamesUnion(OperandsLvalue(lv), OperandsExpr(e));
    case If(t, a, b) =>
      TestScan(rule, t);
      StmtsScan(rule, a);
      StmtsScan(rule, b);
      ElemsAppend(DerefsTest(rule, t), DerefsStmts(rule, a));
      ElemsAppend(DerefsTest(rule, t) + DerefsStmts(rule, a), DerefsStmts(rule, b));
      var ts := OperandsExpr(t.lhs) + OperandsExpr(t.rhs);
      AddrNamesUnion(ts, OperandsStmts(a));
      AddrNamesUnion(ts + OperandsStmts(a), OperandsStmts(b));
    case While(t, body) =>
      TestScan(rule, t);
      StmtsScan(rule, body);
      ElemsAppend(DerefsTest(rule, t), DerefsStmts(rule, body));
      AddrNamesUnion(OperandsExpr(t.lhs) + OperandsExpr(t.rhs), OperandsStmts(body));
    case Println(e) => ExprScan(rule, e);
    case Delete(e) => ExprScan(rule, e);
  }

  lemma {:induction false} StmtsScan(rule: ScanRule, ss: seq<Stmt>)
    ensures Elems(DerefsStmts(rule, ss)) <= AddrNames(OperandsStmts(ss))
    ensures rule == Intended ==> Elems(DerefsStmts(rule, ss)) == AddrNames(OperandsStmts(ss))
    decreases ss
  {
    if |ss| > 0 {
      StmtScan(rule, ss[0]);
      StmtsScan(rule, ss[1..]);
      ElemsAppend(DerefsStmt(rule, ss[0]), DerefsStmts(rule, ss[1..]));
      AddrNamesUnion(OperandsStmt(ss[0]), OperandsStmts(ss[1..]));
    }
  }

  lemma BodyScan(rule: ScanRule, body: seq<Stmt>, ret: Expr)
    ensures Elems(DerefsBody(rule, body, ret)) <= AddrNames(OperandsStmts(body) + OperandsExpr(ret))
    ensures rule == Intended ==>
              Elems(DerefsBody(rule, body, ret)) == AddrNames(OperandsStmts(body) + OperandsExpr(ret))
  {
    StmtsScan(rule, body);
    ExprScan(rule, ret);
    ElemsAppend(DerefsStmts(rule, body), DerefsExpr(rule, ret));
    AddrNamesUnion(OperandsStmts(body), OperandsExpr(ret));
  }

  /** Over a whole program: the intended scan records exactly the names
      whose address is taken anywhere; the scan as written records no other
      name. */
  lemma {:induction false} ProgramScan(rule: ScanRule, prog: Program)
    ensures Elems(DerefsProgram(rule, prog)) <= AddrNames(OperandsProgram(prog))
    ensures rule == Intended ==> Elems(DerefsProgram(rule, prog)) == AddrNames(OperandsProgram(prog))
    decreases prog.procedures
  {
    var m := prog.main;
    BodyScan(rule, m.body, m.ret);
    if |prog.procedures| == 0 {
      assert DerefsProgram(rule, prog) == [] + DerefsBody(rule, m.body, m.ret);
    } else {
      var p := prog.procedures[0];
      var rest := Program(prog.procedures[1..], m);
      ProgramScan(rule, rest);
      BodyScan(rule, p.body, p.ret);
      assert DerefsProgram(rule, prog) ==
             DerefsBody(rule, p.body, p.ret) + DerefsProgram(rule, rest);
      ElemsAppend(DerefsBody(rule, p.body, p.ret), DerefsProgram(rule, rest));
      AddrNamesUnion(OperandsStmts(p.body) + OperandsExpr(p.ret), OperandsProgram(rest));
    }
  }

  /** As written, `&*&x` is missed: x's address is taken, but the scan
      returns at the outer `&` once it finds `lvalue -> STAR factor`, so x
      may be given a register and then `&x` yields x's value. */
  lemma AddrOfDerefAsWritten()
    ensures var f := FAddr(LDeref(FAddr(LId("x", Int), IntStar), Int), IntStar);
            && AddrNames(OperandsFactor(f)) == {"x"}
            && DerefsFactor(AsWritten, f) == []
            && DerefsFactor(Intended, f) == ["x"]
  {
    var inner := LId("x", Int);
    var outer := LDeref(FAddr(inner, IntStar), Int);
    assert OperandsFactor(FAddr(outer, IntStar)) == {outer, inner};
    assert Unwrap(inner) == inner;
  }

  // ---------------------------------------------------------------------
  // The scanner as it runs: a list appended to while the tree is walked
  // ---------------------------------------------------------------------

  class DerefScanner {
    /** dereferencedVariables */
    var dereferenced: seq<string>

    constructor()
      ensures dereferenced == []
    {
      dereferenced := [];
    }

    /** inDereferencedVars: a linear search of the list. */
    method Contains(x: string) returns (found: bool)
      ensures found <==> x in dereferenced
    {
      for i := 0 to |dereferenced|
        invariant x !in dereferenced[..i]
      {
        if dereferenced[i] == x {
          return true;
        }
      }
      return false;
    }

    method ScanExpr(rule: ScanRule, e: Expr)
      modifies this
      ensures dereferenced == old(dereferenced) + DerefsExpr(rule, e)
      decreases e
    {
      match e
      case ETerm(t, _) => ScanTerm(rule, t);
      case EBin(_, l, t, _) =>
        ScanExpr(rule, l);
        ScanTerm(rule, t);
    }

    method ScanTerm(rule: ScanRule, t: Term)
      modifies this
      ensures dereferenced == old(dereferenced) + DerefsTerm(rule, t)
      decreases t
    {
      match t
      case TFactor(f, _) => ScanFactor(rule, f);
      case TBin(_, l, f, _) =>
        ScanTerm(rule, l);
        ScanFactor(rule, f);
    }

    method ScanFactor(rule: ScanRule, f: Factor)
      modifies this
      ensures dereferenced == old(dereferenced) + DerefsFactor(rule, f)
      decreases f
    {
      match f
      case FId(_, _) =>
      case FNum(_, _) =>
      case FNull(_) =>
      case FParen(e, _) => ScanExpr(rule, e);
      case FAddr(lv, _) => ScanAddr(rule, lv);
      case FDeref(g, _) => ScanFactor(rule, g);
      case FNew(e, _) => ScanExpr(rule, e);
      case FCall(_, args, _) => ScanArgs(rule, args);
    }

    /** factor -> AMP lvalue: parentheses are unwrapped, an ID is recorded. */
    method ScanAddr(rule: ScanRule, lv: Lvalue)
      modifies this
      ensures dereferenced == old(dereferenced) + DerefsAddr(rule, lv)
      decreases lv
    {
      match lv
      case LId(x, _) => dereferenced := dereferenced + [x];
      case LParen(inner, _) => ScanAddr(rule, inner);
      case LDeref(g, _) =>
        if rule == Intended {
          ScanFactor(rule, g);
        }
    }

    method ScanArgs(rule: ScanRule, args: seq<Expr>)
      modifies this
      ensures dereferenced == old(dereferenced) + DerefsArgs(rule, args)
      decreases args
    {
      if |args| > 0 {
        ScanExpr(rule, args[0]);
        ScanArgs(rule, args[1..]);
      }
    }

    method ScanLvalue(rule: ScanRule, lv: Lvalue)
      modifies this
      ensures dereferenced == old(dereferenced) + DerefsLvalue(rule, lv)
      decreases lv
    {
      match lv
      case LId(_, _) =>
      case LDeref(g, _) => ScanFactor(rule, g);
      case LParen(inner, _) => ScanLvalue(rule, inner);
    }

    method ScanStmt(rule: ScanRule, s: Stmt)
      modifies this
      ensures dereferenced == old(dereferenced) + DerefsStmt(rule, s)
      decreases s
    {
      match s
      case Assign(lv, e) =>
        ScanLvalue(rule, lv);
        ScanExpr(rule, e);
      case If(t, a, b) =>
        ghost var d0 := dereferenced;
        ScanExpr(rule, t.lhs);
        ScanExpr(rule, t.rhs);
        ScanStmts(rule, a);
        ScanStmts(rule, b);
        Regroup(d0, DerefsExpr(rule, t.lhs), DerefsExpr(rule, t.rhs), DerefsStmts(rule, a), DerefsStmts(rule, b));
      case While(t, body) =>
        ghost var d0 := dereferenced;
        ScanExpr(rule, t.lhs);
        ScanExpr(rule, t.rhs);
        ScanStmts(rule, body);
        Regroup(d0, DerefsExpr(rule, t.lhs), DerefsExpr(rule, t.rhs), DerefsStmts(rule, body), []);
      case Println(e) => ScanExpr(rule, e);
      case Delete(e) => ScanExpr(rule, e);
    }

    method ScanStmts(rule: ScanRule, ss: seq<Stmt>)
      modifies this
      ensures dereferenced == old(dereferenced) + DerefsStmts(rule, ss)
      decreases ss
    {
      if |ss| > 0 {
        ScanStmt(rule, ss[0]);
        ScanStmts(rule, ss[1..]);
      }
    }

    /** procedures -> procedure procedures | main: each procedure's
        statements and return expression, front to back. */
    method ScanProcedures(rule: ScanRule, ps: seq<Procedure>)
      modifies this
      ensures dereferenced == old(dereferenced) + DerefsProcedures(rule, ps)
      decreases ps
    {
      if |ps| > 0 {
        ScanStmts(rule, ps[0].body);
        ScanExpr(rule, ps[0].ret);
        ScanProcedures(rule, ps[1..]);
      }
    }

    /** checkForDereferences on the whole tree. */
    method ScanProgram(rule: ScanRule, prog: Program)
      modifies this
      ensures dereferenced == old(dereferenced) + DerefsProgram(rule, prog)
    {
      ScanProcedures(rule, prog.procedures);
      ScanStmts(rule, prog.main.body);
      ScanExpr(rule, prog.main.ret);
    }
  }
}
