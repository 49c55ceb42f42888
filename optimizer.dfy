/** The tree optimizer that runs between type checking and code generation:
    constant folding of literal arithmetic and constant propagation of
    variables whose value is known, repeated until a pass leaves the tree
    as it was.  A pass walks the tree once, carrying the variable table
    (`varTable`: name -> last literal value and a dirty flag) and the
    if/while nesting depth (`ifWhileNestLevel`). */
module Optimizer {
  import opened Wrappers
  import opened Ast
  import opened Int32

  /** A varTable entry: the literal last stored and whether the variable
      has since been written in a way the optimizer did not follow. */
  datatype Known = Known(value: int, dirty: bool)

  type VarTable = map<string, Known>

  /** A rewritten node and whether anything inside it was rewritten. */
  datatype Opt<T> = Opt(node: T, changed: bool)

  /** A rewritten statement or statement list, with the table after it. */
  datatype Pass<T> = Pass(vars: VarTable, node: T, changed: bool)

  /** Which behaviour a pass follows where the source's differs from what
      its authors evidently meant: sums folded whatever their operand types
      and only a bare `lvalue -> ID` target recorded (AsWritten), or sums
      folded only for two ints and parenthesized targets unwrapped
      (Intended). */
  datatype OptRule = AsWritten | Intended

  predicate Clean(vars: VarTable, x: string) { x in vars && !vars[x].dirty }

  // ---------------------------------------------------------------------
  // 32-bit values of the arithmetic operators
  // ---------------------------------------------------------------------

  /** term STAR|SLASH|PCT factor on 32-bit operands: what C++ `*`, `/`, `%`
      and the target's mult/div with mflo/mfhi compute.  A zero divisor has
      no value. */
  function MulValue(op: MulOp, a: int, b: int): Option<int> {
    match op
    case Star => Some(Wrap(a * b))
    case Slash => if b == 0 then None else Some(Wrap(Quot(a, b)))
    case Pct => if b == 0 then None else Some(Wrap(Rem(a, b)))
  }

  /** expr PLUS|MINUS term on 32-bit operands as the generated code computes
      it for each pair of operand types: pointer arithmetic scales the int
      side by 4, and a pointer difference is divided by 4. */
  function AddValue(op: AddOp, lt: Ty, rt: Ty, a: int, b: int): Option<int> {
    if lt == Int && rt == Int then Some(if op == Plus then Wrap(a + b) else Wrap(a - b))
    else if op == Plus && lt == IntStar && rt == Int then Some(Wrap(a + Wrap(b * 4)))
    else if op == Plus && lt == Int && rt == IntStar then Some(Wrap(Wrap(a * 4) + b))
    else if op == Minus && lt == IntStar && rt == Int then Some(Wrap(a - Wrap(b * 4)))
    else if op == Minus && lt == IntStar && rt == IntStar then Some(Wrap(Quot(Wrap(a - b), 4)))
    else None
  }

  // ---------------------------------------------------------------------
  // Constant folding of one node (its children already optimized)
  // ---------------------------------------------------------------------

  /** factor -> NUM */
  function FactorLiteral(f: Factor): Option<int> {
    if f.FNum? then Some(f.value) else None
  }

  /** term -> factor -> NUM */
  function TermLiteral(t: Term): Option<int> {
    if t.TFactor? then FactorLiteral(t.factor) else None
  }

  /** expr -> term -> factor -> NUM */
  function ExprLiteral(e: Expr): Option<int> {
    if e.ETerm? then TermLiteral(e.term) else None
  }

  /** term op factor with two literal operands folds into their value;
      a zero divisor is left unfolded. */
  function FoldProduct(op: MulOp, l: Term, r: Factor): Option<int> {
    var a :- TermLiteral(l);
    var b :- FactorLiteral(r);
    MulValue(op, Wrap(a), Wrap(b))
  }

  /** expr op term with two literal operands.  As written the literals are
      folded whatever the operands' types; the intended fold is applied only
      when both operands are typed int, so that pointer arithmetic (a
      propagated NULL plus an int) keeps its scaling. */
  function FoldSum(rule: OptRule, op: AddOp, l: Expr, r: Term): Option<int> {
    if rule == Intended && (l.ty != Int || r.ty != Int) then None
    else
      var a :- ExprLiteral(l);
      var b :- TermLiteral(r);
      AddValue(op, Int, Int, Wrap(a), Wrap(b))
  }

  // ---------------------------------------------------------------------
  // One pass over expressions (they read the table and never change it)
  // ---------------------------------------------------------------------

  function OptExpr(rule: OptRule, vars: VarTable, nest: nat, e: Expr): (r: Opt<Expr>)
    ensures r.node.ty == e.ty
    decreases e
  {
    match e
    case ETerm(t, ty) =>
      var o := OptTerm(rule, vars, nest, t);
      Opt(ETerm(o.node, ty), o.changed)
    case EBin(op, l, t, ty) =>
      SumNode(rule, op, OptExpr(rule, vars, nest, l), OptTerm(rule, vars, nest, t), ty)
  }

  /** expr -> expr op term after its operands: folded into
      expr -> term -> factor -> NUM, or rebuilt from the rewritten operands. */
  function SumNode(rule: OptRule, op: AddOp, a: Opt<Expr>, b: Opt<Term>, ty: Ty): (r: Opt<Expr>)
    ensures r.node.ty == ty
  {
    match FoldSum(rule, op, a.node, b.node)
    case Some(v) => Opt(ETerm(TFactor(FNum(v, Int), Int), ty), true)
    case None => Opt(EBin(op, a.node, b.node, ty), a.changed || b.changed)
  }

  function OptTerm(rule: OptRule, vars: VarTable, nest: nat, t: Term): (r: Opt<Term>)
    ensures r.node.ty == t.ty
    decreases t
  {
    match t
    case TFactor(f, ty) =>
      var o := OptFactor(rule, vars, nest, f);
      Opt(TFactor(o.node, ty), o.changed)
    case TBin(op, l, f, ty) =>
      ProductNode(op, OptTerm(rule, vars, nest, l), OptFactor(rule, vars, nest, f), ty)
  }

  /** term -> term op factor after its operands: folded into
      term -> factor -> NUM, or rebuilt from the rewritten operands. */
  function ProductNode(op: MulOp, a: Opt<Term>, b: Opt<Factor>, ty: Ty): (r: Opt<Term>)
    ensures r.node.ty == ty
  {
    match FoldProduct(op, a.node, b.node)
    case Some(v) => Opt(TFactor(FNum(v, Int), ty), true)
    case None => Opt(TBin(op, a.node, b.node, ty), a.changed || b.changed)
  }

  /** factor -> ID becomes factor -> NUM, keeping the factor's own type,
      outside every if/while body when the table knows a clean value. */
  function OptFactor(rule: OptRule, vars: VarTable, nest: nat, f: Factor): (r: Opt<Factor>)
    ensures r.node.ty == f.ty
    decreases f
  {
    match f
    case FId(x, ty) =>
      if nest == 0 && Clean(vars, x) then Opt(FNum(vars[x].value, ty), true) else Opt(f, false)
    case FNum(_, _) => Opt(f, false)
    case FNull(_) => Opt(f, false)
    case FParen(e, ty) =>
      var o := OptExpr(rule, vars, nest, e);
      Opt(FParen(o.node, ty), o.changed)
    case FAddr(lv, ty) =>
      var o := OptLvalue(rule, vars, nest, lv);
      Opt(FAddr(o.node, ty), o.changed)
    case FDeref(g, ty) =>
      var o := OptFactor(rule, vars, nest, g);
      Opt(FDeref(o.node, ty), o.changed)
    case FNew(e, ty) =>
      var o := OptExpr(rule, vars, nest, e);
      Opt(FNew(o.node, ty), o.changed)
    case FCall(callee, args, ty) =>
      var o := OptArgs(rule, vars, nest, args);
      Opt(FCall(callee, o.node, ty), o.changed)
  }

  function OptArgs(rule: OptRule, vars: VarTable, nest: nat, args: seq<Expr>): (r: Opt<seq<Expr>>)
    ensures |r.node| == |args|
    decreases args
  {
    if |args| == 0 then Opt([], false)
    else
      var a := OptExpr(rule, vars, nest, args[0]);
      var rest := OptArgs(rule, vars, nest, args[1..]);
      Opt([a.node] + rest.node, a.changed || rest.changed)
  }

  /** An lvalue reached under `&` is walked like any other node: lvalue -> ID
      has no child to rewrite, and the factor under `*` can be rewritten. */
  function OptLvalue(rule: OptRule, vars: VarTable, nest: nat, lv: Lvalue): (r: Opt<Lvalue>)
    ensures r.node.ty == lv.ty
    decreases lv
  {
    match lv
    case LId(_, _) => Opt(lv, false)
    case LDeref(g, ty) =>
      var o := OptFactor(rule, vars, nest, g);
      Opt(LDeref(o.node, ty), o.changed)
    case LParen(inner, ty) =>
      var o := OptLvalue(rule, vars, nest, inner);
      Opt(LParen(o.node, ty), o.changed)
  }

  function OptTest(rule: OptRule, vars: VarTable, nest: nat, t: Test): Opt<Test> {
    var l := OptExpr(rule, vars, nest, t.lhs);
    var r := OptExpr(rule, vars, nest, t.rhs);
    Opt(Test(t.rop, l.node, r.node), l.changed || r.changed)
  }

  // ---------------------------------------------------------------------
  // The table: seeding from declarations and updating on assignment
  // ---------------------------------------------------------------------

  /** What a declaration's initializer records: its literal, or 1 for NULL. */
  function InitKnown(init: Init): Known {
    match init
    case NumInit(v) => Known(v, false)
    case NullInit => Known(1, false)
  }

  /** dcls -> dcls dcl BECOMES NUM|NULL SEMI: the last declaration is
      recorded first, then the earlier ones. */
  function Seed(vars: VarTable, ds: seq<InitDcl>): VarTable
    decreases |ds|
  {
    if |ds| == 0 then vars
    else
      var d := ds[|ds| - 1];
      Seed(vars[d.dcl.name := InitKnown(d.init)], ds[..|ds| - 1])
  }

  /** The entry after a write the optimizer cannot follow (`operator[]`
      creates a default entry for an unknown name; only its flag is read). */
  function Dirtied(vars: VarTable, x: string): VarTable {
    vars[x := if x in vars then vars[x].(dirty := true) else Known(0, true)]
  }

  /** The variable an assignment writes by name: lvalue -> ID under any
      number of parentheses; `*factor` writes memory, not a name. */
  function Target(lv: Lvalue): Option<string> {
    match lv
    case LId(x, _) => Some(x)
    case LParen(inner, _) => Target(inner)
    case LDeref(_, _) => None
  }

  /** The variable whose entry an assignment updates: as written only an
      lvalue that is `lvalue -> ID` itself; intended, the target under any
      parentheses. */
  function Recorded(rule: OptRule, lv: Lvalue): Option<string> {
    if rule == AsWritten then (if lv.LId? then Some(lv.name) else None) else Target(lv)
  }

  /** The table after `lvalue = rhs` (rhs already optimized): inside an
      if/while, or with a non-literal rhs, the recorded variable becomes
      dirty; a literal rhs at the outer level is recorded as clean. */
  function AssignTable(rule: OptRule, vars: VarTable, nest: nat, lv: Lvalue, rhs: Expr): VarTable {
    match Recorded(rule, lv)
    case None => vars
    case Some(x) =>
      if nest != 0 then Dirtied(vars, x)
      else match ExprLiteral(rhs)
        case Some(v) => vars[x := Known(v, false)]
        case None => Dirtied(vars, x)
  }

  // ---------------------------------------------------------------------
  // One pass over statements, procedures and the program
  // ---------------------------------------------------------------------

  /** if/while bodies and tests are walked one level deeper. */
  function OptStmt(rule: OptRule, vars: VarTable, nest: nat, s: Stmt): Pass<Stmt>
    decreases s
  {
    match s
    case Assign(lv, e) =>
      var o := OptExpr(rule, vars, nest, e);
      Pass(AssignTable(rule, vars, nest, lv, o.node), Assign(lv, o.node), o.changed)
    case If(t, a, b) =>
      var ot := OptTest(rule, vars, nest + 1, t);
      var pa := OptStmts(rule, vars, nest + 1, a);
      var pb := OptStmts(rule, pa.vars, nest + 1, b);
      Pass(pb.vars, If(ot.node, pa.node, pb.node), ot.changed || pa.changed || pb.changed)
    case While(t, body) =>
      var ot := OptTest(rule, vars, nest + 1, t);
      var pb := OptStmts(rule, vars, nest + 1, body);
      Pass(pb.vars, While(ot.node, pb.node), ot.changed || pb.changed)
    case Println(e) =>
      var o := OptExpr(rule, vars, nest, e);
      Pass(vars, Println(o.node), o.changed)
    case Delete(e) =>
      var o := OptExpr(rule, vars, nest, e);
      Pass(vars, Delete(o.node), o.changed)
  }

  function OptStmts(rule: OptRule, vars: VarTable, nest: nat, ss: seq<Stmt>): (r: Pass<seq<Stmt>>)
    ensures |r.node| == |ss|
    decreases ss
  {
    if |ss| == 0 then Pass(vars, [], false)
    else
      var p := OptStmt(rule, vars, nest, ss[0]);
      var q := OptStmts(rule, p.vars, nest, ss[1..]);
      Pass(q.vars, [p.node] + q.node, p.changed || q.changed)
  }

  /** procedure: the declarations seed the table, then the statements and
      the return expression are walked; the table is cleared afterwards. */
  function OptProcedure(rule: OptRule, vars: VarTable, nest: nat, p: Procedure): Opt<Procedure> {
    var pb := OptStmts(rule, Seed(vars, p.dcls), nest, p.body);
    var r := OptExpr(rule, pb.vars, nest, p.ret);
    Opt(Procedure(p.name, p.params, p.dcls, pb.node, r.node), pb.changed || r.changed)
  }

  function OptMain(rule: OptRule, vars: VarTable, nest: nat, m: Main): Opt<Main> {
    var pb := OptStmts(rule, Seed(vars, m.dcls), nest, m.body);
    var r := OptExpr(rule, pb.vars, nest, m.ret);
    Opt(Main(m.first, m.second, m.dcls, pb.node, r.node), pb.changed || r.changed)
  }

  /** The first procedure starts from the given table, every later one from
      the empty table its predecessor leaves. */
  function OptProcedures(rule: OptRule, vars: VarTable, nest: nat, ps: seq<Procedure>): (r: Opt<seq<Procedure>>)
    ensures |r.node| == |ps|
    decreases |ps|
  {
    if |ps| == 0 then Opt([], false)
    else
      var o := OptProcedure(rule, vars, nest, ps[0]);
      var rest := OptProcedures(rule, map[], nest, ps[1..]);
      Opt([o.node] + rest.node, o.changed || rest.changed)
  }

  function OptProgram(rule: OptRule, vars: VarTable, nest: nat, prog: Program): Opt<Program> {
    var ps := OptProcedures(rule, vars, nest, prog.procedures);
    var m := OptMain(rule, if |prog.procedures| == 0 then vars else map[], nest, prog.main);
    Opt(Program(ps.node, m.node), ps.changed || m.changed)
  }

  /** One pass as the driver runs it: an empty table, outside every body. */
  function OptPass(rule: OptRule, prog: Program): Opt<Program> {
    OptProgram(rule, map[], 0, prog)
  }

  /** Passes are repeated until one reports no change. */
  function Fixpoint(rule: OptRule, prog: Program): Program
    decreases ProgramSize(prog)
  {
    var o := OptPass(rule, prog);
    if o.changed then
      ProgramShrinks(rule, map[], 0, prog);
      Fixpoint(rule, o.node)
    else prog
  }

  // ---------------------------------------------------------------------
  // A pass reports a change exactly when it rewrote something, and every
  // rewrite makes the tree smaller (an ID weighs more than a NUM)
  // ---------------------------------------------------------------------

  function ExprSize(e: Expr): nat
    decreases e
  {
    match e
    case ETerm(t, _) => 1 + TermSize(t)
    case EBin(_, l, t, _) => 1 + ExprSize(l) + TermSize(t)
  }

  function TermSize(t: Term): nat
    decreases t
  {
    match t
    case TFactor(f, _) => 1 + FactorSize(f)
    case TBin(_, l, f, _) => 1 + TermSize(l) + FactorSize(f)
  }

  function FactorSize(f: Factor): nat
    decreases f
  {
    match f
    case FId(_, _) => 2
    case FNum(_, _) => 1
    case FNull(_) => 1
    case FParen(e, _) => 1 + ExprSize(e)
    case FAddr(lv, _) => 1 + LvalueSize(lv)
    case FDeref(g, _) => 1 + FactorSize(g)
    case FNew(e, _) => 1 + ExprSize(e)
    case FCall(_, args, _) => 1 + ArgsSize(args)
  }

  function ArgsSize(args: seq<Expr>): nat
    decreases args
  {
    if |args| == 0 then 0 else ExprSize(args[0]) + ArgsSize(args[1..])
  }

  function LvalueSize(lv: Lvalue): nat
    decreases lv
  {
    match lv
    case LId(_, _) => 1
    case LDeref(g, _) => 1 + FactorSize(g)
    case LParen(inner, _) => 1 + LvalueSize(inner)
  }

  function TestSize(t: Test): nat {
    ExprSize(t.lhs) + ExprSize(t.rhs)
  }

  function StmtSize(s: Stmt): nat
    decreases s
  {
    match s
    case Assign(lv, e) => 1 + LvalueSize(lv) + ExprSize(e)
    case If(t, a, b) => 1 + TestSize(t) + StmtsSize(a) + StmtsSize(b)
    case While(t, body) => 1 + TestSize(t) + StmtsSize(body)
    case Println(e) => 1 + ExprSize(e)
    case Delete(e) => 1 + ExprSize(e)
  }

  function StmtsSize(ss: seq<Stmt>): nat
    decreases ss
  {
    if |ss| == 0 then 0 else StmtSize(ss[0]) + StmtsSize(ss[1..])
  }

  function ProceduresSize(ps: seq<Procedure>): nat {
    if |ps| == 0 then 0 else StmtsSize(ps[0].body) + ExprSize(ps[0].ret) + ProceduresSize(ps[1..])
  }

  function ProgramSize(prog: Program): nat {
    ProceduresSize(prog.procedures) + StmtsSize(prog.main.body) + ExprSize(prog.main.ret)
  }

  /** The shape all the shrink lemmas share: a reported change means a
      strictly smaller node, no reported change means the very same node. */
  predicate Shrinks<T(==)>(o: Opt<T>, x: T, newSize: nat, oldSize: nat) {
    && (o.changed ==> newSize < oldSize)
    && (!o.changed ==> o.node == x)
  }

  lemma {:induction false} ExprShrinks(rule: OptRule, vars: VarTable, nest: nat, e: Expr)
    ensures var o := OptExpr(rule, vars, nest, e); Shrinks(o, e, ExprSize(o.node), ExprSize(e))
    decreases e
  {
    match e
    case ETerm(t, _) => TermShrinks(rule, vars, nest, t);
    case EBin(op, l, t, ty) =>
      ExprShrinks(rule, vars, nest, l);
      TermShrinks(rule, vars, nest, t);
      SumShrinks(rule, op, OptExpr(rule, vars, nest, l), OptTerm(rule, vars, nest, t), l, t, ty);
  }

  lemma SumShrinks(rule: OptRule, op: AddOp, a: Opt<Expr>, b: Opt<Term>, l: Expr, t: Term, ty: Ty)
    requires Shrinks(a, l, ExprSize(a.node), ExprSize(l))
    requires Shrinks(b, t, TermSize(b.node), TermSize(t))
    ensures var o := SumNode(rule, op, a, b, ty); Shrinks(o, EBin(op, l, t, ty), ExprSize(o.node), ExprSize(EBin(op, l, t, ty)))
  {
    if FoldSum(rule, op, a.node, b.node).Some? {
      LiteralSizes(a.node, b.node);
      var v := FoldSum(rule, op, a.node, b.node).value;
      LiteralSizes(ETerm(TFactor(FNum(v, Int), Int), ty), TFactor(FNum(v, Int), Int));
    }
  }

  lemma ProductShrinks(op: MulOp, a: Opt<Term>, b: Opt<Factor>, l: Term, f: Factor, ty: Ty)
    requires Shrinks(a, l, TermSize(a.node), TermSize(l))
    requires Shrinks(b, f, FactorSize(b.node), FactorSize(f))
    ensures var o := ProductNode(op, a, b, ty); Shrinks(o, TBin(op, l, f, ty), TermSize(o.node), TermSize(TBin(op, l, f, ty)))
  {
    if FoldProduct(op, a.node, b.node).Some? {
      LiteralSizes(ETerm(a.node, Untyped), a.node);
    }
  }

  /** A literal operand has the fixed size the fold replaces. */
  lemma LiteralSizes(e: Expr, t: Term)
    ensures ExprLiteral(e).Some? ==> ExprSize(e) == 3
    ensures TermLiteral(t).Some? ==> TermSize(t) == 2
  {
    if ExprLiteral(e).Some? {
      assert TermSize(e.term) == 1 + FactorSize(e.term.factor);
    }
  }

  lemma {:induction false} TermShrinks(rule: OptRule, vars: VarTable, nest: nat, t: Term)
    ensures var o := OptTerm(rule, vars, nest, t); Shrinks(o, t, TermSize(o.node), TermSize(t))
    decreases t
  {
    match t
    case TFactor(f, _) => FactorShrinks(rule, vars, nest, f);
    case TBin(op, l, f, ty) =>
      TermShrinks(rule, vars, nest, l);
      FactorShrinks(rule, vars, nest, f);
      ProductShrinks(op, OptTerm(rule, vars, nest, l), OptFactor(rule, vars, nest, f), l, f, ty);
  }

  lemma {:induction false} FactorShrinks(rule: OptRule, vars: VarTable, nest: nat, f: Factor)
    ensures var o := OptFactor(rule, vars, nest, f); Shrinks(o, f, FactorSize(o.node), FactorSize(f))
    decreases f
  {
    match f
    case FId(_, _) =>
    case FNum(_, _) =>
    case FNull(_) =>
    case FParen(e, _) => ExprShrinks(rule, vars, nest, e);
    case FAddr(lv, _) => LvalueShrinks(rule, vars, nest, lv);
    case FDeref(g, _) => FactorShrinks(rule, vars, nest, g);
    case FNew(e, _) => ExprShrinks(rule, vars, nest, e);
    case FCall(_, args, _) => ArgsShrinks(rule, vars, nest, args);
  }

  lemma {:induction false} ArgsShrinks(rule: OptRule, vars: VarTable, nest: nat, args: seq<Expr>)
    ensures var o := OptArgs(rule, vars, nest, args); Shrinks(o, args, ArgsSize(o.node), ArgsSize(args))
    decreases args
  {
    if |args| > 0 {
      ExprShrinks(rule, vars, nest, args[0]);
      ArgsShrinks(rule, vars, nest, args[1..]);
      var o := OptArgs(rule, vars, nest, args);
      assert o.node[1..] == OptArgs(rule, vars, nest, args[1..]).node;
      if !o.changed {
        assert args == [args[0]] + args[1..];
      }
    }
  }

  lemma {:induction false} LvalueShrinks(rule: OptRule, vars: VarTable, nest: nat, lv: Lvalue)
    ensures var o := OptLvalue(rule, vars, nest, lv); Shrinks(o, lv, LvalueSize(o.node), LvalueSize(lv))
    decreases lv
  {
    match lv
    case LId(_, _) =>
    case LDeref(g, _) => FactorShrinks(rule, vars, nest, g);
    case LParen(inner, _) => LvalueShrinks(rule, vars, nest, inner);
  }

  lemma TestShrinks(rule: OptRule, vars: VarTable, nest: nat, t: Test)
    ensures var o := OptTest(rule, vars, nest, t); Shrinks(o, t, TestSize(o.node), TestSize(t))
  {
    ExprShrinks(rule, vars, nest, t.lhs);
    ExprShrinks(rule, vars, nest, t.rhs);
  }

  lemma {:induction false} StmtShrinks(rule: OptRule, vars: VarTable, nest: nat, s: Stmt)
    ensures var p := OptStmt(rule, vars, nest, s); Shrinks(Opt(p.node, p.changed), s, StmtSize(p.node), StmtSize(s))
    decreases s
  {
    match s
    case Assign(_, e) => ExprShrinks(rule, vars, nest, e);
    case If(t, a, b) =>
      TestShrinks(rule, vars, nest + 1, t);
      StmtsShrinks(rule, vars, nest + 1, a);
      StmtsShrinks(rule, OptStmts(rule, vars, nest + 1, a).vars, nest + 1, b);
    case While(t, body) =>
      TestShrinks(rule, vars, nest + 1, t);
      StmtsShrinks(rule, vars, nest + 1, body);
    case Println(e) => ExprShrinks(rule, vars, nest, e);
    case Delete(e) => ExprShrinks(rule, vars, nest, e);
  }

  lemma {:induction false} StmtsShrinks(rule: OptRule, vars: VarTable, nest: nat, ss: seq<Stmt>)
    ensures var p := OptStmts(rule, vars, nest, ss); Shrinks(Opt(p.node, p.changed), ss, StmtsSize(p.node), StmtsSize(ss))
    decreases ss
  {
    if |ss| > 0 {
      StmtShrinks(rule, vars, nest, ss[0]);
      var p := OptStmt(rule, vars, nest, ss[0]);
      StmtsShrinks(rule, p.vars, nest, ss[1..]);
      var r := OptStmts(rule, vars, nest, ss);
      assert r.node[0] == p.node;
      assert r.node[1..] == OptStmts(rule, p.vars, nest, ss[1..]).node;
      if !r.changed {
        assert ss == [ss[0]] + ss[1..];
      }
    }
  }

  lemma BodyShrinks(rule: OptRule, vars: VarTable, nest: nat, body: seq<Stmt>, ret: Expr)
    ensures var pb := OptStmts(rule, vars, nest, body);
            var r := OptExpr(rule, pb.vars, nest, ret);
            && (pb.changed || r.changed ==> StmtsSize(pb.node) + ExprSize(r.node) < StmtsSize(body) + ExprSize(ret))
            && (!pb.changed ==> pb.node == body)
            && (!r.changed ==> r.node == ret)
  {
    StmtsShrinks(rule, vars, nest, body);
    ExprShrinks(rule, OptStmts(rule, vars, nest, body).vars, nest, ret);
  }

  lemma {:induction false} ProceduresShrinks(rule: OptRule, vars: VarTable, nest: nat, ps: seq<Procedure>)
    ensures var o := OptProcedures(rule, vars, nest, ps); Shrinks(o, ps, ProceduresSize(o.node), ProceduresSize(ps))
    decreases |ps|
  {
    if |ps| > 0 {
      var p := ps[0];
      BodyShrinks(rule, Seed(vars, p.dcls), nest, p.body, p.ret);
      ProceduresShrinks(rule, map[], nest, ps[1..]);
      var o := OptProcedures(rule, vars, nest, ps);
      assert o.node[0] == OptProcedure(rule, vars, nest, p).node;
      assert o.node[1..] == OptProcedures(rule, map[], nest, ps[1..]).node;
      if !o.changed {
        assert ps == [p] + ps[1..];
      }
    }
  }

  /** A pass reports a change exactly when the program it returns differs
      from the one it was given, and a changed program is smaller. */
  lemma ProgramShrinks(rule: OptRule, vars: VarTable, nest: nat, prog: Program)
    ensures var o := OptProgram(rule, vars, nest, prog);
            && (o.changed ==> ProgramSize(o.node) < ProgramSize(prog))
            && (o.changed <==> o.node != prog)
  {
    ProceduresShrinks(rule, vars, nest, prog.procedures);
    var m := prog.main;
    BodyShrinks(rule, Seed(if |prog.procedures| == 0 then vars else map[], m.dcls), nest, m.body, m.ret);
    var o := OptProgram(rule, vars, nest, prog);
    var om := OptMain(rule, if |prog.procedures| == 0 then vars else map[], nest, m);
    assert ProgramSize(o.node) == ProceduresSize(o.node.procedures) + StmtsSize(om.node.body) + ExprSize(om.node.ret);
    if !o.changed {
      assert om.node == m;
    }
  }

  /** The driver's result is one no further pass changes. */
  lemma {:induction false} FixpointStable(rule: OptRule, prog: Program)
    ensures !OptPass(rule, Fixpoint(rule, prog)).changed
    decreases ProgramSize(prog)
  {
    var o := OptPass(rule, prog);
    if o.changed {
      ProgramShrinks(rule, map[], 0, prog);
      FixpointStable(rule, o.node);
    }
  }

  // ---------------------------------------------------------------------
  // What the rewrites preserve: the value the generated code computes
  // ---------------------------------------------------------------------

  /** The run-time values of the variables (register or frame contents). */
  type Store = map<string, int>

  /** The value an expression's code leaves in $3, for expressions that
      touch no memory and call nothing: literals, variables, NULL (the
      value 1), parentheses and the arithmetic operators with the
      instruction choices the code generator makes for each operand type. */
  function EvalExpr(s: Store, e: Expr): Option<int>
    decreases e
  {
    match e
    case ETerm(t, _) => EvalTerm(s, t)
    case EBin(op, l, t, _) =>
      var a :- EvalExpr(s, l);
      var b :- EvalTerm(s, t);
      AddValue(op, l.ty, t.ty, a, b)
  }

  function EvalTerm(s: Store, t: Term): Option<int>
    decreases t
  {
    match t
    case TFactor(f, _) => EvalFactor(s, f)
    case TBin(op, l, f, _) =>
      var a :- EvalTerm(s, l);
      var b :- EvalFactor(s, f);
      MulValue(op, a, b)
  }

  function EvalFactor(s: Store, f: Factor): Option<int>
    decreases f
  {
    match f
    case FId(x, _) => if x in s then Some(Wrap(s[x])) else None
    case FNum(v, _) => Some(Wrap(v))
    case FNull(_) => Some(1)
    case FParen(e, _) => EvalExpr(s, e)
    case _ => None
  }

  /** The table tells the truth: every clean entry holds the variable's
      run-time value. */
  ghost predicate Agrees(s: Store, vars: VarTable) {
    forall x :: Clean(vars, x) ==> x in s && Wrap(s[x]) == Wrap(vars[x].value)
  }

  /** Folding and propagation never change an expression's value when the
      table tells the truth. */
  lemma {:induction false} ExprSound(vars: VarTable, nest: nat, s: Store, e: Expr)
    requires Agrees(s, vars)
    ensures EvalExpr(s, OptExpr(Intended, vars, nest, e).node) == EvalExpr(s, e)
    decreases e
  {
    match e
    case ETerm(t, _) => TermSound(vars, nest, s, t);
    case EBin(op, l, t, ty) =>
      ExprSound(vars, nest, s, l);
      TermSound(vars, nest, s, t);
      SumSound(op, OptExpr(Intended, vars, nest, l), OptTerm(Intended, vars, nest, t), l, t, ty, s);
  }

  lemma {:induction false} TermSound(vars: VarTable, nest: nat, s: Store, t: Term)
    requires Agrees(s, vars)
    ensures EvalTerm(s, OptTerm(Intended, vars, nest, t).node) == EvalTerm(s, t)
    decreases t
  {
    match t
    case TFactor(f, _) => FactorSound(vars, nest, s, f);
    case TBin(op, l, f, ty) =>
      TermSound(vars, nest, s, l);
      FactorSound(vars, nest, s, f);
      ProductSound(op, OptTerm(Intended, vars, nest, l), OptFactor(Intended, vars, nest, f), l, f, ty, s);
  }

  lemma {:induction false} FactorSound(vars: VarTable, nest: nat, s: Store, f: Factor)
    requires Agrees(s, vars)
    ensures EvalFactor(s, OptFactor(Intended, vars, nest, f).node) == EvalFactor(s, f)
    decreases f
  {
    match f
    case FParen(e, _) => ExprSound(vars, nest, s, e);
    case _ =>
  }

  lemma SumSound(op: AddOp, a: Opt<Expr>, b: Opt<Term>, l: Expr, t: Term, ty: Ty, s: Store)
    requires EvalExpr(s, a.node) == EvalExpr(s, l) && EvalTerm(s, b.node) == EvalTerm(s, t)
    requires a.node.ty == l.ty && b.node.ty == t.ty
    ensures EvalExpr(s, SumNode(Intended, op, a, b, ty).node) == EvalExpr(s, EBin(op, l, t, ty))
  {
    if FoldSum(Intended, op, a.node, b.node).Some? {
      var x := a.node.term.factor.value;
      var y := b.node.factor.value;
      assert EvalFactor(s, a.node.term.factor) == Some(Wrap(x));
      assert EvalExpr(s, a.node) == Some(Wrap(x));
      assert EvalTerm(s, b.node) == Some(Wrap(y));
      var v := AddValue(op, Int, Int, Wrap(x), Wrap(y)).value;
      assert SumNode(Intended, op, a, b, ty).node == ETerm(TFactor(FNum(v, Int), Int), ty);
      LiteralFacts(s, v, Int, Int, ty);
      assert EvalExpr(s, EBin(op, l, t, ty)) == AddValue(op, Int, Int, Wrap(x), Wrap(y));
    }
  }

  /** A literal expression contains no identifier and evaluates to its
      wrapped value. */
  lemma LiteralFacts(s: Store, v: int, fty: Ty, tty: Ty, ety: Ty)
    ensures EvalExpr(s, ETerm(TFactor(FNum(v, fty), tty), ety)) == Some(Wrap(v))
    ensures IdsExpr(ETerm(TFactor(FNum(v, fty), tty), ety)) == {}
  {
    assert EvalTerm(s, TFactor(FNum(v, fty), tty)) == Some(Wrap(v));
    assert IdsTerm(TFactor(FNum(v, fty), tty)) == {};
  }

  lemma ProductSound(op: MulOp, a: Opt<Term>, b: Opt<Factor>, l: Term, f: Factor, ty: Ty, s: Store)
    requires EvalTerm(s, a.node) == EvalTerm(s, l) && EvalFactor(s, b.node) == EvalFactor(s, f)
    ensures EvalTerm(s, ProductNode(op, a, b, ty).node) == EvalTerm(s, TBin(op, l, f, ty))
  {
    if FoldProduct(op, a.node, b.node).Some? {
      var x := TermLiteral(a.node).value;
      assert EvalTerm(s, a.node) == Some(Wrap(x));
    }
  }

  /** As written, a pointer plus an int folds like two ints.  With `p`
      (declared `int* p = NULL;`) known to hold 1, the pass turns `p + 1`
      into the literal 2, where the code for the sum computes 1 + 4 * 1 = 5;
      the intended pass propagates p but leaves the sum to run time. */
  lemma PointerSumAsWritten()
    ensures var vars := map["p" := Known(1, false)];
            var s := map["p" := 1];
            var one := TFactor(FNum(1, Int), Int);
            var e := EBin(Plus, ETerm(TFactor(FId("p", IntStar), IntStar), IntStar), one, IntStar);
            && Agrees(s, vars) && EvalExpr(s, e) == Some(5)
            && OptExpr(AsWritten, vars, 0, e) == Opt(ETerm(TFactor(FNum(2, Int), Int), IntStar), true)
            && EvalExpr(s, OptExpr(AsWritten, vars, 0, e).node) == Some(2)
            && OptExpr(Intended, vars, 0, e)
               == Opt(EBin(Plus, ETerm(TFactor(FNum(1, IntStar), IntStar), IntStar), one, IntStar), true)
  {
    var s := map["p" := 1];
    var l := ETerm(TFactor(FNum(1, IntStar), IntStar), IntStar);
    assert EvalExpr(s, l) == Some(1);
    assert Wrap(1) == 1 && Wrap(4) == 4 && Wrap(5) == 5 && Wrap(2) == 2;
    LiteralFacts(s, 2, Int, Int, IntStar);
  }


  // ---------------------------------------------------------------------
  // Folding, stated value by value
  // ---------------------------------------------------------------------

  lemma QuotInRange(a: int, b: int)
    requires InRange(a) && InRange(b) && b != 0 && !(a == MinInt && b == -1)
    ensures InRange(Quot(a, b)) && InRange(Rem(a, b))
  {
    QuotRem(a, b);
    var q := Quot(a, b);
    if Abs(b) == 1 {
      assert q == (if b == 1 then a else -a);
    } else {
      ScaleAtLeastTwo(Abs(q), Abs(b));
      assert Abs(q) * 2 <= 0x8000_0000;
    }
  }

  lemma ScaleAtLeastTwo(x: int, y: int)
    requires x >= 0 && y >= 2
    ensures x * 2 <= x * y
  {
  }

  /** term op factor with two literal operands in the 32-bit range becomes
      term -> factor -> NUM (the node keeps its type, the new factor is int)
      holding the wrapped product, the quotient truncated toward zero, or
      the C++ remainder; a zero divisor is left unfolded. */
  lemma ProductFold(rule: OptRule, vars: VarTable, nest: nat, op: MulOp, a: int, b: int, fa: Ty, ta: Ty, fb: Ty, ty: Ty)
    requires InRange(a) && InRange(b)
    ensures var o := OptTerm(rule, vars, nest, TBin(op, TFactor(FNum(a, fa), ta), FNum(b, fb), ty));
            && (op == Star ==> o == Opt(TFactor(FNum(Wrap(a * b), Int), ty), true))
            && (op != Star && b == 0 ==> !o.changed)
            && (op != Star && b != 0 && !(a == MinInt && b == -1) ==>
                  && o.changed && o.node.TFactor? && o.node.factor == FNum(o.node.factor.value, Int)
                  && var v := o.node.factor.value;
                     if op == Slash then
                       Abs(a - b * v) < Abs(b) && (a - b * v == 0 || ((a - b * v < 0) <==> (a < 0)))
                     else
                       v == Rem(a, b))
  {
    var l := TFactor(FNum(a, fa), ta);
    if op != Star && b != 0 && !(a == MinInt && b == -1) {
      QuotientFold(rule, vars, nest, op, a, b, fa, ta, fb, ty);
    } else {
      assert OptTerm(rule, vars, nest, l) == Opt(l, false);
      assert TermLiteral(l) == Some(a) && Wrap(a) == a && Wrap(b) == b;
    }
  }

  /** The quotient or remainder of two literals, when the division is defined
      and does not overflow. */
  lemma QuotientFold(rule: OptRule, vars: VarTable, nest: nat, op: MulOp, a: int, b: int, fa: Ty, ta: Ty, fb: Ty, ty: Ty)
    requires InRange(a) && InRange(b)
    requires op != Star && b != 0 && !(a == MinInt && b == -1)
    ensures var o := OptTerm(rule, vars, nest, TBin(op, TFactor(FNum(a, fa), ta), FNum(b, fb), ty));
            && o.changed && o.node.TFactor? && o.node.factor == FNum(o.node.factor.value, Int)
            && var v := o.node.factor.value;
               if op == Slash then
                 Abs(a - b * v) < Abs(b) && (a - b * v == 0 || ((a - b * v < 0) <==> (a < 0)))
               else
                 v == Rem(a, b)
  {
    var l := TFactor(FNum(a, fa), ta);
    assert OptTerm(rule, vars, nest, l) == Opt(l, false);
    assert TermLiteral(l) == Some(a) && Wrap(a) == a && Wrap(b) == b;
    QuotRem(a, b);
    QuotInRange(a, b);
    assert FoldProduct(op, l, FNum(b, fb)) == Some(if op == Slash then Quot(a, b) else Rem(a, b));
  }

  /** expr op term with two literal operands in the 32-bit range becomes
      expr -> term -> factor -> NUM holding the wrapped sum or difference
      when both are ints, and as written also when one is a pointer; the
      intended pass leaves a sum with a pointer operand as it is. */
  lemma SumFold(rule: OptRule, vars: VarTable, nest: nat, op: AddOp, a: int, b: int, fa: Ty, ta: Ty, lt: Ty, fb: Ty, rt: Ty, ty: Ty)
    requires InRange(a) && InRange(b)
    ensures var e := EBin(op, ETerm(TFactor(FNum(a, fa), ta), lt), TFactor(FNum(b, fb), rt), ty);
            var o := OptExpr(rule, vars, nest, e);
            && ((lt == Int && rt == Int) || rule == AsWritten ==>
                  o == Opt(ETerm(TFactor(FNum(if op == Plus then Wrap(a + b) else Wrap(a - b), Int), Int), ty), true))
            && (rule == Intended && (lt != Int || rt != Int) ==> o == Opt(e, false))
  {
    var l := ETerm(TFactor(FNum(a, fa), ta), lt);
    var t := TFactor(FNum(b, fb), rt);
    assert OptTerm(rule, vars, nest, t) == Opt(t, false);
    assert OptTerm(rule, vars, nest, l.term) == Opt(l.term, false);
    assert OptExpr(rule, vars, nest, l) == Opt(l, false);
    assert Wrap(a) == a && Wrap(b) == b;
  }


  // ---------------------------------------------------------------------
  // Propagation: which identifiers a pass replaces
  // ---------------------------------------------------------------------

  /** The names read through factor -> ID. */
  function IdsExpr(e: Expr): set<string>
    decreases e
  {
    match e
    case ETerm(t, _) => IdsTerm(t)
    case EBin(_, l, t, _) => IdsExpr(l) + IdsTerm(t)
  }

  function IdsTerm(t: Term): set<string>
    decreases t
  {
    match t
    case TFactor(f, _) => IdsFactor(f)
    case TBin(_, l, f, _) => IdsTerm(l) + IdsFactor(f)
  }

  function IdsFactor(f: Factor): set<string>
    decreases f
  {
    match f
    case FId(x, _) => {x}
    case FNum(_, _) => {}
    case FNull(_) => {}
    case FParen(e, _) => IdsExpr(e)
    case FAddr(lv, _) => IdsLvalue(lv)
    case FDeref(g, _) => IdsFactor(g)
    case FNew(e, _) => IdsExpr(e)
    case FCall(_, args, _) => IdsArgs(args)
  }

  function IdsArgs(args: seq<Expr>): set<string>
    decreases args
  {
    if |args| == 0 then {} else IdsExpr(args[0]) + IdsArgs(args[1..])
  }

  function IdsLvalue(lv: Lvalue): set<string>
    decreases lv
  {
    match lv
    case LId(_, _) => {}
    case LDeref(g, _) => IdsFactor(g)
    case LParen(inner, _) => IdsLvalue(inner)
  }

  /** The names a pass leaves in place: all of them inside an if/while
      body, only the unknown or dirty ones outside. */
  function Remaining(vars: VarTable, nest: nat, ids: set<string>): set<string> {
    if nest == 0 then set x | x in ids && !Clean(vars, x) else ids
  }

  lemma RemainingUnion(vars: VarTable, nest: nat, a: set<string>, b: set<string>)
    ensures Remaining(vars, nest, a + b) == Remaining(vars, nest, a) + Remaining(vars, nest, b)
  {
  }

  lemma {:induction false} ExprIds(rule: OptRule, vars: VarTable, nest: nat, e: Expr)
    ensures IdsExpr(OptExpr(rule, vars, nest, e).node) == Remaining(vars, nest, IdsExpr(e))
    decreases e
  {
    match e
    case ETerm(t, _) => TermIds(rule, vars, nest, t);
    case EBin(op, l, t, ty) =>
      ExprIds(rule, vars, nest, l);
      TermIds(rule, vars, nest, t);
      RemainingUnion(vars, nest, IdsExpr(l), IdsTerm(t));
      var a := OptExpr(rule, vars, nest, l).node;
      var b := OptTerm(rule, vars, nest, t).node;
      if FoldSum(rule, op, a, b).Some? {
        assert IdsFactor(a.term.factor) == {} && IdsFactor(b.factor) == {};
        assert IdsExpr(a) == {} && IdsTerm(b) == {};
        var v := FoldSum(rule, op, a, b).value;
        assert OptExpr(rule, vars, nest, e).node == ETerm(TFactor(FNum(v, Int), Int), ty);
        LiteralFacts(map[], v, Int, Int, ty);
        assert Remaining(vars, nest, IdsExpr(e)) == {};
      }
  }

  lemma {:induction false} TermIds(rule: OptRule, vars: VarTable, nest: nat, t: Term)
    ensures IdsTerm(OptTerm(rule, vars, nest, t).node) == Remaining(vars, nest, IdsTerm(t))
    decreases t
  {
    match t
    case TFactor(f, _) => FactorIds(rule, vars, nest, f);
    case TBin(op, l, f, ty) =>
      TermIds(rule, vars, nest, l);
      FactorIds(rule, vars, nest, f);
      RemainingUnion(vars, nest, IdsTerm(l), IdsFactor(f));
      var a := OptTerm(rule, vars, nest, l).node;
      var b := OptFactor(rule, vars, nest, f).node;
      if FoldProduct(op, a, b).Some? {
        assert IdsTerm(a) == {} && IdsFactor(b) == {};
      }
  }

  lemma {:induction false} FactorIds(rule: OptRule, vars: VarTable, nest: nat, f: Factor)
    ensures IdsFactor(OptFactor(rule, vars, nest, f).node) == Remaining(vars, nest, IdsFactor(f))
    decreases f
  {
    match f
    case FId(x, _) =>
    case FNum(_, _) =>
    case FNull(_) =>
    case FParen(e, _) => ExprIds(rule, vars, nest, e);
    case FAddr(lv, _) => LvalueIds(rule, vars, nest, lv);
    case FDeref(g, _) => FactorIds(rule, vars, nest, g);
    case FNew(e, _) => ExprIds(rule, vars, nest, e);
    case FCall(_, args, _) => ArgsIds(rule, vars, nest, args);
  }

  lemma {:induction false} ArgsIds(rule: OptRule, vars: VarTable, nest: nat, args: seq<Expr>)
    ensures IdsArgs(OptArgs(rule, vars, nest, args).node) == Remaining(vars, nest, IdsArgs(args))
    decreases args
  {
    if |args| > 0 {
      ExprIds(rule, vars, nest, args[0]);
      ArgsIds(rule, vars, nest, args[1..]);
      RemainingUnion(vars, nest, IdsExpr(args[0]), IdsArgs(args[1..]));
      var o := OptArgs(rule, vars, nest, args).node;
      assert o[0] == OptExpr(rule, vars, nest, args[0]).node;
      assert o[1..] == OptArgs(rule, vars, nest, args[1..]).node;
    }
  }

  lemma {:induction false} LvalueIds(rule: OptRule, vars: VarTable, nest: nat, lv: Lvalue)
    ensures IdsLvalue(OptLvalue(rule, vars, nest, lv).node) == Remaining(vars, nest, IdsLvalue(lv))
    decreases lv
  {
    match lv
    case LId(_, _) =>
    case LDeref(g, _) => FactorIds(rule, vars, nest, g);
    case LParen(inner, _) => LvalueIds(rule, vars, nest, inner);
  }

  /** Propagation reads: inside an if/while body no identifier is replaced;
      outside, exactly the identifiers with a clean entry are. */
  lemma PropagationRule(rule: OptRule, vars: VarTable, nest: nat, e: Expr)
    ensures nest != 0 ==> IdsExpr(OptExpr(rule, vars, nest, e).node) == IdsExpr(e)
    ensures nest == 0 ==>
              forall x :: x in IdsExpr(e) ==> (x in IdsExpr(OptExpr(rule, vars, nest, e).node) <==> !Clean(vars, x))
  {
    ExprIds(rule, vars, nest, e);
  }

  // ---------------------------------------------------------------------
  // The table after an assignment still tells the truth
  // ---------------------------------------------------------------------

  /** After `lvalue = rhs` writes the value w into the variable it names,
      the updated table agrees with the updated store: a literal rhs is
      recorded with its value, anything else leaves the variable dirty.
      (A write through `*factor` changes memory, which this store does not
      hold.) */
  lemma AssignKeepsAgrees(s: Store, vars: VarTable, nest: nat, lv: Lvalue, rhs: Expr, x: string, w: int)
    requires Agrees(s, vars) && Target(lv) == Some(x)
    requires EvalExpr(s, rhs) == Some(Wrap(w)) || ExprLiteral(rhs) == None
    ensures Agrees(s[x := w], AssignTable(Intended, vars, nest, lv, rhs))
  {
    if nest == 0 && ExprLiteral(rhs).Some? {
      var c := ExprLiteral(rhs).value;
      LiteralFacts(s, c, rhs.term.factor.ty, rhs.term.ty, rhs.ty);
      assert rhs == ETerm(TFactor(FNum(c, rhs.term.factor.ty), rhs.term.ty), rhs.ty);
    }
  }

  /** As written, `(x) = 5` leaves the table as it was: with x recorded as
      the clean literal 1 the table no longer agrees with the store, and a
      later `x` is still replaced by 1 although it holds 5. */
  lemma ParenAssignAsWritten()
    ensures var vars := map["x" := Known(1, false)];
            var s := map["x" := 1];
            var lv := LParen(LId("x", Int), Int);
            var rhs := ETerm(TFactor(FNum(5, Int), Int), Int);
            var after := AssignTable(AsWritten, vars, 0, lv, rhs);
            var use := FId("x", Int);
            && Agrees(s, vars) && EvalExpr(s, rhs) == Some(5)
            && after == vars && !Agrees(s["x" := 5], after)
            && EvalFactor(s["x" := 5], use) == Some(5)
            && EvalFactor(s["x" := 5], OptFactor(AsWritten, after, 0, use).node) == Some(1)
            && AssignTable(Intended, vars, 0, lv, rhs) == map["x" := Known(5, false)]
  {
    var s := map["x" := 1];
    var rhs := ETerm(TFactor(FNum(5, Int), Int), Int);
    LiteralFacts(s, 5, Int, Int, Int);
    assert Wrap(5) == 5 && Wrap(1) == 1;
    assert !Clean(map["x" := Known(1, false)], "x") ==> false;
  }

  // ---------------------------------------------------------------------
  // Declarations seed the table; inside a body the table only forgets
  // ---------------------------------------------------------------------

  function DclNames(ds: seq<InitDcl>): set<string> {
    set i | 0 <= i < |ds| :: ds[i].dcl.name
  }

  lemma DclNamesLast(ds: seq<InitDcl>)
    requires |ds| > 0
    ensures DclNames(ds) == DclNames(ds[..|ds| - 1]) + {ds[|ds| - 1].dcl.name}
  {
    var n := |ds| - 1;
    var front := ds[..n];
    forall y | y in DclNames(ds) ensures y in DclNames(front) + {ds[n].dcl.name} {
      var i :| 0 <= i < |ds| && ds[i].dcl.name == y;
      if i < n { assert front[i] == ds[i]; }
    }
    forall y | y in DclNames(front) ensures y in DclNames(ds) {
      var i :| 0 <= i < n && front[i].dcl.name == y;
      assert ds[i] == front[i];
    }
  }

  /** Seeding adds every declared name and keeps the other entries. */
  lemma {:induction false} SeedKeys(vars: VarTable, ds: seq<InitDcl>)
    ensures Seed(vars, ds).Keys == vars.Keys + DclNames(ds)
    ensures forall x :: x in vars && x !in DclNames(ds) ==> Seed(vars, ds)[x] == vars[x]
    decreases |ds|
  {
    if |ds| > 0 {
      var d := ds[|ds| - 1];
      SeedKeys(vars[d.dcl.name := InitKnown(d.init)], ds[..|ds| - 1]);
      DclNamesLast(ds);
    }
  }

  /** Where a name is declared more than once the earliest declaration's
      initializer wins: it is recorded last. */
  lemma {:induction false} SeedEarliest(vars: VarTable, ds: seq<InitDcl>, i: int)
    requires 0 <= i < |ds|
    requires forall j :: 0 <= j < i ==> ds[j].dcl.name != ds[i].dcl.name
    ensures ds[i].dcl.name in Seed(vars, ds)
    ensures Seed(vars, ds)[ds[i].dcl.name] == InitKnown(ds[i].init)
    decreases |ds|
  {
    var n := |ds| - 1;
    var d := ds[n];
    var front := ds[..n];
    var v' := vars[d.dcl.name := InitKnown(d.init)];
    SeedKeys(v', front);
    if i < n {
      assert front[i] == ds[i];
      SeedEarliest(v', front, i);
    }
  }

  /** The names a statement assigns by name (through any parentheses). */
  function AssignedStmt(s: Stmt): set<string>
    decreases s
  {
    match s
    case Assign(lv, _) => if Target(lv).Some? then {Target(lv).value} else {}
    case If(_, a, b) => AssignedStmts(a) + AssignedStmts(b)
    case While(_, body) => AssignedStmts(body)
    case Println(_) => {}
    case Delete(_) => {}
  }

  function AssignedStmts(ss: seq<Stmt>): set<string>
    decreases ss
  {
    if |ss| == 0 then {} else AssignedStmt(ss[0]) + AssignedStmts(ss[1..])
  }

  /** The table `after` is `before` with exactly the names in `xs` marked
      dirty (created when unknown) and every other entry untouched. */
  predicate Forgets(before: VarTable, after: VarTable, xs: set<string>) {
    && after.Keys == before.Keys + xs
    && (forall x :: x in xs ==> after[x].dirty)
    && (forall x :: x in before && x !in xs ==> after[x] == before[x])
  }

  lemma ForgetsTrans(a: VarTable, b: VarTable, c: VarTable, xs: set<string>, ys: set<string>)
    requires Forgets(a, b, xs) && Forgets(b, c, ys)
    ensures Forgets(a, c, xs + ys)
  {
    forall x | x in xs + ys ensures c[x].dirty {
      if x !in ys {
        assert c[x] == b[x];
      }
    }
  }

  /** Inside an if or while body (nest != 0) the optimizer learns nothing:
      every variable the statement assigns becomes dirty and nothing else
      in the table changes, so no value written in a body is propagated. */
  lemma {:induction false} NestedStmtForgets(vars: VarTable, nest: nat, s: Stmt)
    requires nest != 0
    ensures Forgets(vars, OptStmt(Intended, vars, nest, s).vars, AssignedStmt(s))
    decreases s
  {
    match s
    case Assign(lv, e) =>
    case If(t, a, b) =>
      var pa := OptStmts(Intended, vars, nest + 1, a);
      NestedStmtsForgets(vars, nest + 1, a);
      NestedStmtsForgets(pa.vars, nest + 1, b);
      ForgetsTrans(vars, pa.vars, OptStmts(Intended, pa.vars, nest + 1, b).vars, AssignedStmts(a), AssignedStmts(b));
    case While(t, body) =>
      NestedStmtsForgets(vars, nest + 1, body);
    case Println(_) =>
    case Delete(_) =>
  }

  lemma {:induction false} NestedStmtsForgets(vars: VarTable, nest: nat, ss: seq<Stmt>)
    requires nest != 0
    ensures Forgets(vars, OptStmts(Intended, vars, nest, ss).vars, AssignedStmts(ss))
    decreases ss
  {
    if |ss| > 0 {
      var p := OptStmt(Intended, vars, nest, ss[0]);
      NestedStmtForgets(vars, nest, ss[0]);
      NestedStmtsForgets(p.vars, nest, ss[1..]);
      ForgetsTrans(vars, p.vars, OptStmts(Intended, p.vars, nest, ss[1..]).vars, AssignedStmt(ss[0]), AssignedStmts(ss[1..]));
    }
  }

  // ---------------------------------------------------------------------
  // The optimizer as it runs: a table and a nesting depth updated in place
  // while the tree is walked
  // ---------------------------------------------------------------------

  class TreeOptimizer {
    /** name -> last literal value and dirty flag */
    var varTable: VarTable
    /** how many if/while bodies enclose the node being visited */
    var nestLevel: nat
    /** the behaviour followed where the source's differs from its intent */
    const rule: OptRule

    constructor(rule: OptRule)
      ensures this.rule == rule && varTable == map[] && nestLevel == 0
    {
      this.rule := rule;
      varTable := map[];
      nestLevel := 0;
    }

    /** addDclsToVarTable: the last declaration first, then the rest. */
    method AddDcls(ds: seq<InitDcl>)
      modifies this
      ensures varTable == Seed(old(varTable), ds)
      ensures nestLevel == old(nestLevel)
      decreases |ds|
    {
      if |ds| == 0 {
        return;
      }
      var d := ds[|ds| - 1];
      varTable := varTable[d.dcl.name := InitKnown(d.init)];
      AddDcls(ds[..|ds| - 1]);
    }

    /** One statement: its expressions are rewritten against the current
        table, an assignment then updates the table, and if/while bodies
        are walked one level deeper. */
    method OptimizeStmt(s: Stmt) returns (node: Stmt, changed: bool)
      modifies this
      ensures OptStmt(rule, old(varTable), old(nestLevel), s) == Pass(varTable, node, changed)
      ensures nestLevel == old(nestLevel)
      decreases s, 1
    {
      match s
      case Assign(lv, e) =>
        var o := OptExpr(rule, varTable, nestLevel, e);
        node, changed := Assign(lv, o.node), o.changed;
        var target := Recorded(rule, lv);
        if target.Some? {
          var x := target.value;
          var lit := ExprLiteral(o.node);
          if nestLevel == 0 && lit.Some? {
            varTable := varTable[x := Known(lit.value, false)];
          } else {
            varTable := Dirtied(varTable, x);
          }
        }
      case If(t, a, b) =>
        nestLevel := nestLevel + 1;
        var ot := OptTest(rule, varTable, nestLevel, t);
        var na, ca := OptimizeStmts(a);
        var nb, cb := OptimizeStmts(b);
        nestLevel := nestLevel - 1;
        node, changed := If(ot.node, na, nb), ot.changed || ca || cb;
      case While(t, body) =>
        nestLevel := nestLevel + 1;
        var ot := OptTest(rule, varTable, nestLevel, t);
        var nb, cb := OptimizeStmts(body);
        nestLevel := nestLevel - 1;
        node, changed := While(ot.node, nb), ot.changed || cb;
      case Println(e) =>
        var o := OptExpr(rule, varTable, nestLevel, e);
        node, changed := Println(o.node), o.changed;
      case Delete(e) =>
        var o := OptExpr(rule, varTable, nestLevel, e);
        node, changed := Delete(o.node), o.changed;
    }

    /** statements, in program order. */
    method OptimizeStmts(ss: seq<Stmt>) returns (nodes: seq<Stmt>, changed: bool)
      modifies this
      ensures OptStmts(rule, old(varTable), old(nestLevel), ss) == Pass(varTable, nodes, changed)
      ensures nestLevel == old(nestLevel)
      decreases ss, 0
    {
      ghost var full := OptStmts(rule, varTable, nestLevel, ss);
      nodes, changed := [], false;
      var i := 0;
      assert ss[0..] == ss && [] + full.node == full.node;
      while i < |ss|
        invariant 0 <= i <= |ss|
        invariant nestLevel == old(nestLevel)
        invariant var rest := OptStmts(rule, varTable, nestLevel, ss[i..]);
                  full == Pass(rest.vars, nodes + rest.node, changed || rest.changed)
      {
        ghost var rest := OptStmts(rule, varTable, nestLevel, ss[i..]);
        assert ss[i..][1..] == ss[i + 1..];
        var n, c := OptimizeStmt(ss[i]);
        ghost var after := OptStmts(rule, varTable, nestLevel, ss[i + 1..]);
        assert rest.node == [n] + after.node;
        assert nodes + rest.node == (nodes + [n]) + after.node;
        nodes, changed := nodes + [n], changed || c;
        i := i + 1;
      }
      assert ss[i..] == [] && nodes + [] == nodes;
    }

    /** procedure: seed the table from dcls, walk the statements and the
        return expression, then clear the table. */
    method OptimizeProcedure(p: Procedure) returns (q: Procedure, changed: bool)
      modifies this
      ensures OptProcedure(rule, old(varTable), old(nestLevel), p) == Opt(q, changed)
      ensures varTable == map[] && nestLevel == old(nestLevel)
    {
      AddDcls(p.dcls);
      var body, cb := OptimizeStmts(p.body);
      var r := OptExpr(rule, varTable, nestLevel, p.ret);
      q, changed := Procedure(p.name, p.params, p.dcls, body, r.node), cb || r.changed;
      varTable := map[];
    }

    /** main: the same as a procedure; wain's parameters are never entered
        in the table. */
    method OptimizeMain(m: Main) returns (q: Main, changed: bool)
      modifies this
      ensures OptMain(rule, old(varTable), old(nestLevel), m) == Opt(q, changed)
      ensures varTable == map[] && nestLevel == old(nestLevel)
    {
      AddDcls(m.dcls);
      var body, cb := OptimizeStmts(m.body);
      var r := OptExpr(rule, varTable, nestLevel, m.ret);
      q, changed := Main(m.first, m.second, m.dcls, body, r.node), cb || r.changed;
      varTable := map[];
    }

    /** procedures -> procedure procedures | main, front to back. */
    method OptimizeProcedures(ps: seq<Procedure>) returns (qs: seq<Procedure>, changed: bool)
      modifies this
      ensures OptProcedures(rule, old(varTable), old(nestLevel), ps) == Opt(qs, changed)
      ensures nestLevel == old(nestLevel)
      ensures |ps| > 0 ==> varTable == map[]
      ensures |ps| == 0 ==> varTable == old(varTable)
      decreases |ps|
    {
      if |ps| == 0 {
        return [], false;
      }
      var q, c := OptimizeProcedure(ps[0]);
      var rest, cr := OptimizeProcedures(ps[1..]);
      qs, changed := [q] + rest, c || cr;
    }

    method OptimizeProgram(prog: Program) returns (q: Program, changed: bool)
      modifies this
      ensures OptProgram(rule, old(varTable), old(nestLevel), prog) == Opt(q, changed)
      ensures varTable == map[] && nestLevel == old(nestLevel)
    {
      var ps, cp := OptimizeProcedures(prog.procedures);
      var m, cm := OptimizeMain(prog.main);
      q, changed := Program(ps, m), cp || cm;
    }

    /** The driver: passes over the tree, each from an empty table, until
        one reports no change.  The result is the fixpoint, and one more
        pass would leave it as it is. */
    method Optimize(prog: Program) returns (q: Program)
      requires varTable == map[] && nestLevel == 0
      modifies this
      ensures q == Fixpoint(rule, prog)
      ensures !OptPass(rule, q).changed
      ensures varTable == map[] && nestLevel == 0
    {
      ghost var cur := prog;
      var changed;
      q, changed := OptimizeProgram(prog);
      while changed
        invariant varTable == map[] && nestLevel == 0
        invariant OptPass(rule, cur) == Opt(q, changed)
        invariant Fixpoint(rule, cur) == Fixpoint(rule, prog)
        decreases ProgramSize(cur)
      {
        ProgramShrinks(rule, map[], 0, cur);
        cur := q;
        varTable := map[];
        q, changed := OptimizeProgram(q);
      }
      ProgramShrinks(rule, map[], 0, cur);
    }
  }
}
