/** The code generator as the compiler runs it: one object holding the
    register table, the symbol table, latestOffset, the free registers and
    the two label counters, whose methods walk the tree and write assembly
    lines one after another.  Each method is proved to write exactly the
    lines, and leave exactly the tables, that the functions of Codegen
    describe. */
module Generator {
  import opened Wrappers
  import opened Ast
  import opened Codegen
  import Derefs
  import Optimizer

  /** Standard output: the assembly lines written so far. */
  class Emitter {
    var lines: seq<Asm>

    constructor()
      ensures lines == []
    {
      lines := [];
    }

    method Emit(more: seq<Asm>)
      modifies this
      ensures lines == old(lines) + more
    {
      lines := lines + more;
    }
  }

  /** An operand of a binary operator: an expr, a term or a factor node. */
  datatype Node = ExprNode(e: Expr) | TermNode(t: Term) | FactorNode(f: Factor)

  function NodeCode(env: Env, n: Node): seq<Asm> {
    match n
    case ExprNode(e) => ExprCode(env, e)
    case TermNode(t) => TermCode(env, t)
    case FactorNode(f) => FactorCode(env, f)
  }

  function NodeReg(env: Env, n: Node): Option<Reg> {
    match n
    case ExprNode(e) => ResolveExpr(env, e)
    case TermNode(t) => ResolveTerm(env, t)
    case FactorNode(f) => ResolveFactor(env, f)
  }

  function NodeSize(n: Node): (k: nat)
    ensures k >= 1
  {
    match n
    case ExprNode(e) => Optimizer.ExprSize(e)
    case TermNode(t) => Optimizer.TermSize(t)
    case FactorNode(f) => Optimizer.FactorSize(f)
  }

  /** getNumParams: the number of parameters, counted down the paramlist. */
  function NumParams(ps: seq<Dcl>): (n: nat)
    ensures n == |ps|
  {
    if |ps| == 0 then 0 else 1 + NumParams(ps[1..])
  }

  /** Pieces written one after another, each snapshot the one before plus
      its piece, add up to the whole. */
  lemma Chain2(x0: seq<Asm>, x1: seq<Asm>, x2: seq<Asm>, a: seq<Asm>, b: seq<Asm>)
    requires x1 == x0 + a && x2 == x1 + b
    ensures x2 == x0 + (a + b)
  {
  }

  lemma Chain3(x0: seq<Asm>, x1: seq<Asm>, x2: seq<Asm>, x3: seq<Asm>, a: seq<Asm>, b: seq<Asm>, c: seq<Asm>)
    requires x1 == x0 + a && x2 == x1 + b && x3 == x2 + c
    ensures x3 == x0 + (a + b + c)
  {
  }

  lemma Chain4(x0: seq<Asm>, x1: seq<Asm>, x2: seq<Asm>, x3: seq<Asm>, x4: seq<Asm>,
               a: seq<Asm>, b: seq<Asm>, c: seq<Asm>, d: seq<Asm>)
    requires x1 == x0 + a && x2 == x1 + b && x3 == x2 + c && x4 == x3 + d
    ensures x4 == x0 + (a + b + c + d)
  {
  }

  lemma Chain5(x0: seq<Asm>, x1: seq<Asm>, x2: seq<Asm>, x3: seq<Asm>, x4: seq<Asm>, x5: seq<Asm>,
               a: seq<Asm>, b: seq<Asm>, c: seq<Asm>, d: seq<Asm>, e: seq<Asm>)
    requires x1 == x0 + a && x2 == x1 + b && x3 == x2 + c && x4 == x3 + d && x5 == x4 + e
    ensures x5 == x0 + (a + b + c + d + e)
  {
  }

  lemma Chain6(x0: seq<Asm>, x1: seq<Asm>, x2: seq<Asm>, x3: seq<Asm>, x4: seq<Asm>, x5: seq<Asm>,
               x6: seq<Asm>, a: seq<Asm>, b: seq<Asm>, c: seq<Asm>, d: seq<Asm>, e: seq<Asm>, f: seq<Asm>)
    requires x1 == x0 + a && x2 == x1 + b && x3 == x2 + c && x4 == x3 + d
    requires x5 == x4 + e && x6 == x5 + f
    ensures x6 == x0 + (a + b + c + d + e + f)
  {
  }

  lemma Chain7(x0: seq<Asm>, x1: seq<Asm>, x2: seq<Asm>, x3: seq<Asm>, x4: seq<Asm>, x5: seq<Asm>,
               x6: seq<Asm>, x7: seq<Asm>, a: seq<Asm>, b: seq<Asm>, c: seq<Asm>, d: seq<Asm>,
               e: seq<Asm>, f: seq<Asm>, g: seq<Asm>)
    requires x1 == x0 + a && x2 == x1 + b && x3 == x2 + c && x4 == x3 + d
    requires x5 == x4 + e && x6 == x5 + f && x7 == x6 + g
    ensures x7 == x0 + (a + b + c + d + e + f + g)
  {
  }

  lemma {:induction false} PopsSnoc(r: Reg, n: nat)
    ensures Pops(r, n + 1) == Pops(r, n) + Pop(r)
    decreases n
  {
    if n > 0 {
      PopsSnoc(r, n - 1);
    }
  }

  /** statements -> statements statement: the last statement lowered after
      the ones before it. */
  lemma {:induction false} StmtsSnoc(env: Env, c: Counters, ss: seq<Stmt>)
    requires |ss| > 0
    ensures var front := StmtsCode(env, c, ss[..|ss| - 1]);
      var last := StmtCode(env, front.next, ss[|ss| - 1]);
      StmtsCode(env, c, ss) == Lowered(front.code + last.code, last.next)
    decreases |ss|
  {
    if |ss| > 1 {
      var r := StmtCode(env, c, ss[0]);
      StmtsSnoc(env, r.next, ss[1..]);
      assert ss[1..][..|ss[1..]| - 1] == ss[..|ss| - 1][1..];
      assert ss[1..][|ss[1..]| - 1] == ss[|ss| - 1];
    } else {
      assert ss[..0] == [];
    }
  }

  /** The program's lines, given the lines written after each part. */
  lemma ProgramParts(rule: EntryRule, derefs: seq<string>, prog: Program,
                     base: seq<Asm>, a: seq<Asm>, b: seq<Asm>, c: seq<Asm>, d: seq<Asm>)
    requires a == base + Prologue(derefs, prog.main)
    requires b == a + ProceduresCode(rule, derefs, Initial, prog.procedures).code
    requires c == b + MainCode(rule, derefs, ProceduresCode(rule, derefs, Initial, prog.procedures).gen, prog.main).code
    requires d == c + Epilogue(derefs, prog.main)
    ensures d == base + ProgramCode(rule, derefs, prog)
  {
    var procs := ProceduresCode(rule, derefs, Initial, prog.procedures);
    var main := MainCode(rule, derefs, procs.gen, prog.main);
    FourParts(base, a, b, c, d, Prologue(derefs, prog.main), procs.code, main.code, Epilogue(derefs, prog.main));
  }

  /** Four pieces written one after another. */
  lemma FourParts(base: seq<Asm>, a: seq<Asm>, b: seq<Asm>, c: seq<Asm>, d: seq<Asm>,
                  p: seq<Asm>, q: seq<Asm>, r: seq<Asm>, s: seq<Asm>)
    requires a == base + p && b == a + q && c == b + r && d == c + s
    ensures d == base + (p + q + r + s)
  {
  }

  /** The lines of an if statement, given the lines written after each part. */
  lemma IfParts(env: Env, c: Counters, t: Test, a: seq<Stmt>, b: seq<Stmt>,
                x0: seq<Asm>, x1: seq<Asm>, x2: seq<Asm>, x3: seq<Asm>, d1: Counters, d2: Counters)
    requires x1 == x0 + TestCode(env, t) + [Beq(3, 0, Numbered(ElseLabel, c.labels))]
    requires var ra := StmtsCode(env, c.(labels := c.labels + 1), a);
      x2 == x1 + ra.code + [Beq(0, 0, Numbered(EndIfLabel, c.labels)), Define(Numbered(ElseLabel, c.labels))]
      && d1 == ra.next
    requires var rb := StmtsCode(env, d1, b);
      x3 == x2 + rb.code + [Define(Numbered(EndIfLabel, c.labels))] && d2 == rb.next
    ensures var r := StmtCode(env, c, If(t, a, b));
      x3 == x0 + r.code && d2 == r.next
  {
    var ra := StmtsCode(env, c.(labels := c.labels + 1), a);
    var rb := StmtsCode(env, d1, b);
    IfUnfold(env, c, t, a, b);
    IfLines(x0, TestCode(env, t), c.labels, ra.code, rb.code);
  }

  lemma IfLines(x0: seq<Asm>, tc: seq<Asm>, n: nat, ac: seq<Asm>, bc: seq<Asm>)
    ensures x0 + tc + [Beq(3, 0, Numbered(ElseLabel, n))] + ac
            + [Beq(0, 0, Numbered(EndIfLabel, n)), Define(Numbered(ElseLabel, n))] + bc
            + [Define(Numbered(EndIfLabel, n))]
         == x0 + IfCode(tc, n, ac, bc)
  {
  }

  /** The lines of a while statement, given the lines written after each part. */
  lemma WhileParts(env: Env, c: Counters, t: Test, body: seq<Stmt>, x0: seq<Asm>, x1: seq<Asm>, x2: seq<Asm>, d: Counters)
    requires x1 == x0 + [Define(Numbered(LoopLabel, c.labels))] + TestCode(env, t)
                     + [Beq(3, 0, Numbered(EndWhileLabel, c.labels))]
    requires var rb := StmtsCode(env, c.(labels := c.labels + 1), body);
      x2 == x1 + rb.code + [Beq(0, 0, Numbered(LoopLabel, c.labels)), Define(Numbered(EndWhileLabel, c.labels))]
      && d == rb.next
    ensures var r := StmtCode(env, c, While(t, body));
      x2 == x0 + r.code && d == r.next
  {
    var rb := StmtsCode(env, c.(labels := c.labels + 1), body);
    WhileUnfold(env, c, t, body);
    WhileLines(x0, TestCode(env, t), c.labels, rb.code);
  }

  lemma WhileLines(x0: seq<Asm>, tc: seq<Asm>, n: nat, bc: seq<Asm>)
    ensures x0 + [Define(Numbered(LoopLabel, n))] + tc + [Beq(3, 0, Numbered(EndWhileLabel, n))] + bc
            + [Beq(0, 0, Numbered(LoopLabel, n)), Define(Numbered(EndWhileLabel, n))]
         == x0 + WhileCode(tc, n, bc)
  {
  }

  /** A procedure's lines, given the lines written after each part. */
  lemma ProcedureParts(rule: EntryRule, derefs: seq<string>, g: Gen, p: Procedure,
                       x0: seq<Asm>, x1: seq<Asm>, x2: seq<Asm>, x3: seq<Asm>, a2: Alloc, d: Counters)
    requires var a1 := DeclareParams(Enter(rule, g.alloc), p.params);
      var r := DclsCode(a1, derefs, p.dcls);
      && x1 == x0 + ([Define(ProcLabel(p.name)), Sub(29, 30, 4)] + r.code + SaveScratch())
      && a2 == r.alloc.(slots := Shift(r.alloc.slots, 4 * |p.params|))
    requires var body := StmtsCode(EnvOf(a2), g.counters, p.body);
      x2 == x1 + body.code && d == body.next
    requires x3 == x2 + ExprCode(EnvOf(a2), p.ret) + Pop(7) + Pop(6) + Pop(5) + [Add(30, 29, 4), Jr(31)]
    ensures var r := ProcedureCode(rule, derefs, g, p);
      x3 == x0 + r.code && Gen(a2, d) == r.gen
  {
    var r := DclsCode(DeclareParams(Enter(rule, g.alloc), p.params), derefs, p.dcls);
    var body := StmtsCode(EnvOf(a2), g.counters, p.body);
    var h: seq<Asm> := [Define(ProcLabel(p.name)), Sub(29, 30, 4)];
    var t: seq<Asm> := [Add(30, 29, 4), Jr(31)];
    var e := ExprCode(EnvOf(a2), p.ret);
    var rs := RestoreScratch();
    assert rs == Pop(7) + Pop(6) + Pop(5);
    ProcedureLines(x0, h, r.code, SaveScratch(), body.code, e, Pop(7), Pop(6), Pop(5), t);
    assert ProcedureCode(rule, derefs, g, p).code == h + r.code + SaveScratch() + body.code + e + rs + t;
  }

  lemma ProcedureLines(x0: seq<Asm>, h: seq<Asm>, rc: seq<Asm>, ss: seq<Asm>, bc: seq<Asm>, e: seq<Asm>,
                       p7: seq<Asm>, p6: seq<Asm>, p5: seq<Asm>, t: seq<Asm>)
    ensures x0 + (h + rc + ss) + bc + e + p7 + p6 + p5 + t
         == x0 + (h + rc + ss + bc + e + (p7 + p6 + p5) + t)
  {
  }

  /** procedures -> procedure procedures: the first, then the rest. */
  lemma ProceduresParts(rule: EntryRule, derefs: seq<string>, g: Gen, ps: seq<Procedure>,
                        x0: seq<Asm>, x1: seq<Asm>, x2: seq<Asm>, g1: Gen, g2: Gen)
    requires |ps| > 0
    requires var first := ProcedureCode(rule, derefs, g, ps[0]); x1 == x0 + first.code && g1 == first.gen
    requires var rest := ProceduresCode(rule, derefs, g1, ps[1..]); x2 == x1 + rest.code && g2 == rest.gen
    ensures var r := ProceduresCode(rule, derefs, g, ps); x2 == x0 + r.code && g2 == r.gen
  {
    var first := ProcedureCode(rule, derefs, g, ps[0]);
    var rest := ProceduresCode(rule, derefs, g1, ps[1..]);
    Chain2(x0, x1, x2, first.code, rest.code);
  }

  /** wain's lines, given the lines written after each part. */
  lemma MainParts(rule: EntryRule, derefs: seq<string>, g: Gen, m: Main,
                  x0: seq<Asm>, x1: seq<Asm>, x2: seq<Asm>, x3: seq<Asm>, a: Alloc, d: Counters)
    requires var a1 := BindWainParam(Enter(rule, g.alloc), derefs, m.first, 1);
      var a2 := BindWainParam(a1, derefs, m.second, 2);
      var r := DclsCode(a2, derefs, m.dcls);
      x1 == x0 + ([Define(WainLabel)] + InitHeap(m.first) + r.code) && a == r.alloc
    requires var body := StmtsCode(EnvOf(a), g.counters, m.body);
      x2 == x1 + body.code && d == body.next
    requires x3 == x2 + ExprCode(EnvOf(a), m.ret)
    ensures var r := MainCode(rule, derefs, g, m);
      x3 == x0 + r.code && Gen(a, d) == r.gen
  {
    var a1 := BindWainParam(Enter(rule, g.alloc), derefs, m.first, 1);
    var a2 := BindWainParam(a1, derefs, m.second, 2);
    var r := DclsCode(a2, derefs, m.dcls);
    var body := StmtsCode(EnvOf(a), g.counters, m.body);
    var e := ExprCode(EnvOf(a), m.ret);
    MainUnfold(rule, derefs, g, m);
    MainLines(x0, [Define(WainLabel)] + InitHeap(m.first), r.code, body.code, e);
  }

  lemma MainUnfold(rule: EntryRule, derefs: seq<string>, g: Gen, m: Main)
    ensures var a1 := BindWainParam(Enter(rule, g.alloc), derefs, m.first, 1);
      var a2 := BindWainParam(a1, derefs, m.second, 2);
      var r := DclsCode(a2, derefs, m.dcls);
      var body := StmtsCode(EnvOf(r.alloc), g.counters, m.body);
      MainCode(rule, derefs, g, m)
        == Compiled(Gen(r.alloc, body.next),
                    [Define(WainLabel)] + InitHeap(m.first) + r.code + body.code + ExprCode(EnvOf(r.alloc), m.ret))
  {
  }

  lemma MainLines(x0: seq<Asm>, h: seq<Asm>, rc: seq<Asm>, bc: seq<Asm>, e: seq<Asm>)
    ensures x0 + (h + rc) + bc + e == x0 + (h + rc + bc + e)
  {
  }

  class CodeGen {
    /** regTable */
    var regTable: map<string, Reg>
    /** symbol_table */
    var symbolTable: map<string, Slot>
    var latestOffset: int
    var freeRegisters: seq<Reg>
    var labelCounter: nat
    var numDeletes: nat
    const out: Emitter
    /** dereferencedVariables, filled before generation starts. */
    const scanner: Derefs.DerefScanner
    /** Whether a procedure's entry keeps the register table. */
    const entry: EntryRule

    constructor(scanner: Derefs.DerefScanner, entry: EntryRule)
      ensures State() == Initial && this.scanner == scanner && this.entry == entry
      ensures fresh(out) && out.lines == []
    {
      regTable := map[];
      symbolTable := map[];
      latestOffset := 0;
      freeRegisters := FreePool;
      labelCounter := 0;
      numDeletes := 0;
      out := new Emitter();
      this.scanner := scanner;
      this.entry := entry;
    }

    function Environment(): Env
      reads this
    {
      Env(regTable, symbolTable)
    }

    function Allocation(): Alloc
      reads this
    {
      Alloc(regTable, symbolTable, latestOffset, freeRegisters)
    }

    function Counts(): Counters
      reads this
    {
      Counters(labelCounter, numDeletes)
    }

    function State(): Gen
      reads this
    {
      Gen(Allocation(), Counts())
    }

    // -------------------------------------------------------------------
    // Expressions: only lines are written
    // -------------------------------------------------------------------

    method PushReg(r: Reg)
      modifies out
      ensures out.lines == old(out.lines) + Push(r)
    {
      out.Emit([Sw(r, Num(-4), 30)]);
      out.Emit([Sub(30, 30, 4)]);
    }

    method PopReg(r: Reg)
      modifies out
      ensures out.lines == old(out.lines) + Pop(r)
    {
      out.Emit([Add(30, 30, 4)]);
      out.Emit([Lw(r, Num(-4), 30)]);
    }

    /** lis $5, .word symbol, jalr $5 with $31 saved around it. */
    method GenCallExtern(symbol: string)
      modifies out
      ensures out.lines == old(out.lines) + CallExtern(symbol)
    {
      PushReg(31);
      out.Emit([Lis(5), WordLabel(Extern(symbol)), Jalr(5)]);
      PopReg(31);
    }

    method GenNode(n: Node)
      modifies out
      ensures out.lines == old(out.lines) + NodeCode(Environment(), n)
      decreases NodeSize(n), 1
    {
      match n
      case ExprNode(e) => GenExpr(e);
      case TermNode(t) => GenTerm(t);
      case FactorNode(f) => GenFactor(f);
    }

    /** The operands of a binary operator, each resolved to its register
        when it is a register variable, computed otherwise. */
    method GenOperands(a: Node, b: Node) returns (left: Reg, right: Reg)
      modifies out
      ensures var o := LoadOperands(NodeCode(Environment(), a), NodeCode(Environment(), b),
                                    NodeReg(Environment(), a), NodeReg(Environment(), b));
        out.lines == old(out.lines) + o.code && left == o.left && right == o.right
      decreases NodeSize(a) + NodeSize(b), 1
    {
      var ar := NodeReg(Environment(), a);
      var br := NodeReg(Environment(), b);
      if ar.None? && br.None? {
        ghost var x0 := out.lines;
        GenNode(a);
        ghost var x1 := out.lines;
        PushReg(3);
        ghost var x2 := out.lines;
        GenNode(b);
        ghost var x3 := out.lines;
        PopReg(5);
        Chain4(x0, x1, x2, x3, out.lines, NodeCode(Environment(), a), Push(3), NodeCode(Environment(), b), Pop(5));
        left, right := 5, 3;
      } else if br.None? {
        GenNode(b);
        left, right := ar.value, 3;
      } else if ar.None? {
        GenNode(a);
        left, right := 3, br.value;
      } else {
        left, right := ar.value, br.value;
      }
    }

    method GenExpr(e: Expr)
      modifies out
      ensures out.lines == old(out.lines) + ExprCode(Environment(), e)
      decreases Optimizer.ExprSize(e), 0
    {
      match e
      case ETerm(t, _) =>
        if t.TFactor? && t.factor.FNum? {
          out.Emit([Lis(3), Word(Num(t.factor.value))]);
        } else {
          GenTerm(t);
        }
      case EBin(op, l, t, _) =>
        GenSum(op, l, t);
    }

    /** expr PLUS|MINUS term, by the operand types. */
    method GenSum(op: AddOp, l: Expr, t: Term)
      modifies out
      ensures out.lines == old(out.lines)
        + SumCode(op, l.ty, t.ty, ExprCode(Environment(), l), TermCode(Environment(), t),
                  ResolveExpr(Environment(), l), ResolveTerm(Environment(), t))
      decreases Optimizer.ExprSize(l) + Optimizer.TermSize(t), 3
    {
      if l.ty == Int && t.ty == Int {
        var a, b := GenOperands(ExprNode(l), TermNode(t));
        out.Emit([SumLine(op, 3, a, b)]);
      } else if l.ty == IntStar && t.ty == Int {
        GenPointerPlusInt(op, l, t);
      } else if op == Plus && l.ty == Int && t.ty == IntStar {
        GenIntPlusPointer(l, t);
      } else if op == Minus && l.ty == IntStar && t.ty == IntStar {
        GenPointerDifference(l, t);
      }
    }

    /** int* PLUS|MINUS int: the int scaled by 4. */
    method GenPointerPlusInt(op: AddOp, l: Expr, t: Term)
      modifies out
      ensures out.lines == old(out.lines)
        + PointerPlusIntCode(op, ExprCode(Environment(), l), TermCode(Environment(), t),
                             ResolveExpr(Environment(), l), ResolveTerm(Environment(), t))
      decreases Optimizer.ExprSize(l) + Optimizer.TermSize(t), 2
    {
      var lr := ResolveExpr(Environment(), l);
      var tr := ResolveTerm(Environment(), t);
      if lr.None? && tr.None? {
        GenScaledBoth(ExprNode(l), TermNode(t), [SumLine(op, 3, 5, 3)]);
      } else if tr.None? {
        ghost var x0 := out.lines;
        GenTerm(t);
        ghost var x1 := out.lines;
        out.Emit([Mult(3, 4), Mflo(3), SumLine(op, 3, lr.value, 3)]);
        Chain2(x0, x1, out.lines, TermCode(Environment(), t), [Mult(3, 4), Mflo(3), SumLine(op, 3, lr.value, 3)]);
      } else if lr.None? {
        ghost var x0 := out.lines;
        out.Emit([Mult(tr.value, 4), Mflo(5)]);
        ghost var x1 := out.lines;
        GenExpr(l);
        ghost var x2 := out.lines;
        out.Emit([SumLine(op, 3, 5, 3)]);
        Chain3(x0, x1, x2, out.lines, [Mult(tr.value, 4), Mflo(5)], ExprCode(Environment(), l), [SumLine(op, 3, 5, 3)]);
      } else {
        out.Emit([Mult(tr.value, 4), Mflo(3), SumLine(op, 3, lr.value, 3)]);
      }
    }

    /** int PLUS int*: the int scaled by 4. */
    method GenIntPlusPointer(l: Expr, t: Term)
      modifies out
      ensures out.lines == old(out.lines)
        + IntPlusPointerCode(ExprCode(Environment(), l), TermCode(Environment(), t),
                             ResolveExpr(Environment(), l), ResolveTerm(Environment(), t))
      decreases Optimizer.ExprSize(l) + Optimizer.TermSize(t), 2
    {
      var lr := ResolveExpr(Environment(), l);
      var tr := ResolveTerm(Environment(), t);
      if lr.None? && tr.None? {
        GenScaledBoth(TermNode(t), ExprNode(l), [Add(3, 5, 3)]);
      } else if tr.None? {
        ghost var x0 := out.lines;
        out.Emit([Mult(lr.value, 4), Mflo(5)]);
        ghost var x1 := out.lines;
        GenTerm(t);
        ghost var x2 := out.lines;
        out.Emit([Add(3, 5, 3)]);
        Chain3(x0, x1, x2, out.lines, [Mult(lr.value, 4), Mflo(5)], TermCode(Environment(), t), [Add(3, 5, 3)]);
      } else if lr.None? {
        ghost var x0 := out.lines;
        GenExpr(l);
        ghost var x1 := out.lines;
        out.Emit([Mult(3, 4), Mflo(3), Add(3, tr.value, 3)]);
        Chain2(x0, x1, out.lines, ExprCode(Environment(), l), [Mult(3, 4), Mflo(3), Add(3, tr.value, 3)]);
      } else {
        out.Emit([Mult(lr.value, 4), Mflo(3), Add(3, tr.value, 3)]);
      }
    }

    /** Both operands computed, the first saved, the int scaled. */
    method GenScaledBoth(first: Node, second: Node, tail: seq<Asm>)
      modifies out
      ensures out.lines == old(out.lines)
        + (NodeCode(Environment(), first) + Push(3) + NodeCode(Environment(), second)
           + [Mult(3, 4), Mflo(3)] + Pop(5) + tail)
      decreases NodeSize(first) + NodeSize(second), 1
    {
      ghost var x0 := out.lines;
      GenNode(first);
      ghost var x1 := out.lines;
      PushReg(3);
      ghost var x2 := out.lines;
      GenNode(second);
      ghost var x3 := out.lines;
      out.Emit([Mult(3, 4), Mflo(3)]);
      ghost var x4 := out.lines;
      PopReg(5);
      ghost var x5 := out.lines;
      out.Emit(tail);
      Chain6(x0, x1, x2, x3, x4, x5, out.lines, NodeCode(Environment(), first), Push(3),
             NodeCode(Environment(), second), [Mult(3, 4), Mflo(3)], Pop(5), tail);
    }

    /** int* MINUS int*: the difference divided by 4. */
    method GenPointerDifference(l: Expr, t: Term)
      modifies out
      ensures out.lines == old(out.lines)
        + PointerDifferenceCode(ExprCode(Environment(), l), TermCode(Environment(), t),
                                ResolveExpr(Environment(), l), ResolveTerm(Environment(), t))
      decreases Optimizer.ExprSize(l) + Optimizer.TermSize(t), 2
    {
      var lr := ResolveExpr(Environment(), l);
      var tr := ResolveTerm(Environment(), t);
      if lr.None? && tr.None? {
        ghost var x0 := out.lines;
        GenExpr(l);
        ghost var x1 := out.lines;
        PushReg(3);
        ghost var x2 := out.lines;
        GenTerm(t);
        ghost var x3 := out.lines;
        PopReg(5);
        ghost var x4 := out.lines;
        out.Emit([Sub(3, 5, 3), Div(3, 4), Mflo(3)]);
        Chain5(x0, x1, x2, x3, x4, out.lines, ExprCode(Environment(), l), Push(3), TermCode(Environment(), t),
               Pop(5), [Sub(3, 5, 3), Div(3, 4), Mflo(3)]);
      } else if tr.None? {
        ghost var x0 := out.lines;
        GenTerm(t);
        ghost var x1 := out.lines;
        out.Emit([Sub(3, lr.value, 3), Div(3, 4), Mflo(3)]);
        Chain2(x0, x1, out.lines, TermCode(Environment(), t), [Sub(3, lr.value, 3), Div(3, 4), Mflo(3)]);
      } else if lr.None? {
        ghost var x0 := out.lines;
        GenExpr(l);
        ghost var x1 := out.lines;
        out.Emit([Sub(3, 3, tr.value), Div(3, 4), Mflo(3)]);
        Chain2(x0, x1, out.lines, ExprCode(Environment(), l), [Sub(3, 3, tr.value), Div(3, 4), Mflo(3)]);
      } else {
        out.Emit([Sub(3, lr.value, tr.value), Div(3, 4), Mflo(3)]);
      }
    }

    method GenTerm(t: Term)
      modifies out
      ensures out.lines == old(out.lines) + TermCode(Environment(), t)
      decreases Optimizer.TermSize(t), 0
    {
      match t
      case TFactor(f, _) => GenFactor(f);
      case TBin(op, l, f, _) =>
        var a, b := GenOperands(TermNode(l), FactorNode(f));
        out.Emit(ProductOp(op, a, b));
    }

    method GenFactor(f: Factor)
      modifies out
      ensures out.lines == old(out.lines) + FactorCode(Environment(), f)
      decreases Optimizer.FactorSize(f), 0
    {
      match f
      case FId(x, _) =>
        if x in regTable {
          out.Emit([Add(3, 0, regTable[x])]);
        } else {
          out.Emit([Lw(3, SlotNum(Environment(), x), 29)]);
        }
      case FNum(v, _) => out.Emit([Lis(3), Word(Num(v))]);
      case FNull(_) => out.Emit([Add(3, 0, 11)]);
      case FParen(e, _) => GenExpr(e);
      case FAddr(lv, _) => GenAddr(lv);
      case FDeref(g, _) =>
        GenFactor(g);
        out.Emit([Lw(3, Num(0), 3)]);
      case FNew(e, _) => GenNew(e);
      case FCall(p, args, _) => GenCall(p, args);
    }

    /** factor -> NEW INT LBRACK expr RBRACK: new called with the size in
        $1; a null result becomes NULL ($11). */
    method GenNew(e: Expr)
      modifies out
      ensures out.lines == old(out.lines)
        + (ExprCode(Environment(), e) + Push(1) + [Add(1, 3, 0)] + CallExtern("new")
           + [Bne(3, 0, 1), Add(3, 11, 0)] + Pop(1))
      decreases Optimizer.ExprSize(e), 1
    {
      ghost var x0 := out.lines;
      GenExpr(e);
      ghost var x1 := out.lines;
      PushReg(1);
      ghost var x2 := out.lines;
      out.Emit([Add(1, 3, 0)]);
      ghost var x3 := out.lines;
      GenCallExtern("new");
      ghost var x4 := out.lines;
      out.Emit([Bne(3, 0, 1), Add(3, 11, 0)]);
      ghost var x5 := out.lines;
      PopReg(1);
      Chain6(x0, x1, x2, x3, x4, x5, out.lines, ExprCode(Environment(), e), Push(1), [Add(1, 3, 0)],
             CallExtern("new"), [Bne(3, 0, 1), Add(3, 11, 0)], Pop(1));
    }

    /** factor -> ID LPAREN arglist RPAREN: $29 and $31 saved, the
        arguments pushed, the jump, then one pop per argument pushed. */
    method GenCall(p: string, args: seq<Expr>)
      modifies out
      ensures out.lines == old(out.lines)
        + (Push(29) + Push(31) + ArgsCode(Environment(), args) + [Lis(5), WordLabel(ProcLabel(p)), Jalr(5)]
           + Pops(31, |args|) + Pop(31) + Pop(29))
      decreases Optimizer.ArgsSize(args), 2
    {
      ghost var x0 := out.lines;
      PushReg(29);
      ghost var x1 := out.lines;
      PushReg(31);
      ghost var x2 := out.lines;
      var n := PushArgs(args);
      ghost var x3 := out.lines;
      out.Emit([Lis(5), WordLabel(ProcLabel(p)), Jalr(5)]);
      ghost var x4 := out.lines;
      PopArgs(n);
      ghost var x5 := out.lines;
      PopReg(31);
      ghost var x6 := out.lines;
      PopReg(29);
      Chain7(x0, x1, x2, x3, x4, x5, x6, out.lines, Push(29), Push(31), ArgsCode(Environment(), args),
                [Lis(5), WordLabel(ProcLabel(p)), Jalr(5)], Pops(31, n), Pop(31), Pop(29));
    }

    /** One pop into $31 per argument pushed. */
    method PopArgs(n: nat)
      modifies out
      ensures out.lines == old(out.lines) + Pops(31, n)
    {
      var i := 0;
      while i < n
        invariant 0 <= i <= n
        invariant out.lines == old(out.lines) + Pops(31, i)
      {
        PopReg(31);
        PopsSnoc(31, i);
        i := i + 1;
      }
    }

    /** factor -> AMP lvalue: the parentheses unwrapped, then the address. */
    method GenAddr(lv: Lvalue)
      modifies out
      ensures out.lines == old(out.lines) + AddrCode(Environment(), lv)
      decreases Optimizer.LvalueSize(lv), 0
    {
      var node := lv;
      while node.LParen?
        invariant AddrCode(Environment(), node) == AddrCode(Environment(), lv)
        invariant Optimizer.LvalueSize(node) <= Optimizer.LvalueSize(lv)
        decreases Optimizer.LvalueSize(node)
      {
        node := node.lv;
      }
      if node.LId? {
        if node.name in regTable {
          out.Emit([Add(3, 0, regTable[node.name])]);
        } else {
          out.Emit([Lis(3), Word(SlotNum(Environment(), node.name)), Add(3, 3, 29)]);
        }
      } else {
        GenFactor(node.target);
      }
    }

    /** pushArgs: returns how many arguments it pushed. */
    method PushArgs(args: seq<Expr>) returns (n: nat)
      modifies out
      ensures out.lines == old(out.lines) + ArgsCode(Environment(), args)
      ensures n == |args|
      decreases Optimizer.ArgsSize(args), 1
    {
      if |args| == 0 {
        n := 0;
      } else {
        GenExpr(args[0]);
        PushReg(3);
        var m := PushArgs(args[1..]);
        n := 1 + m;
      }
    }

    method GenTest(t: Test)
      modifies out
      ensures out.lines == old(out.lines) + TestCode(Environment(), t)
    {
      var a, b := GenOperands(ExprNode(t.lhs), ExprNode(t.rhs));
      out.Emit(Compare(t.rop, t.lhs.ty != Int, a, b));
    }

    // -------------------------------------------------------------------
    // Statements: lines written and the label counters advanced
    // -------------------------------------------------------------------

    /** lvalue BECOMES expr, the parentheses unwrapped first. */
    method GenAssign(lv: Lvalue, e: Expr)
      modifies out
      ensures out.lines == old(out.lines) + AssignCode(Environment(), lv, e)
    {
      var node := lv;
      while node.LParen?
        invariant Derefs.Unwrap(node) == Derefs.Unwrap(lv)
        decreases node
      {
        node := node.lv;
      }
      ghost var x0 := out.lines;
      if node.LId? {
        GenExpr(e);
        ghost var x1 := out.lines;
        if node.name in regTable {
          out.Emit([Add(regTable[node.name], 0, 3)]);
        } else {
          out.Emit([Sw(3, SlotNum(Environment(), node.name), 29)]);
        }
        Chain2(x0, x1, out.lines, ExprCode(Environment(), e), out.lines[|x1|..]);
      } else {
        var a, b := GenOperands(ExprNode(e), FactorNode(node.target));
        ghost var x1 := out.lines;
        out.Emit([Sw(a, Num(0), b)]);
        Chain2(x0, x1, out.lines, x1[|x0|..], [Sw(a, Num(0), b)]);
      }
    }

    method GenStmt(s: Stmt)
      modifies this, out
      ensures var r := StmtCode(old(Environment()), old(Counts()), s);
        out.lines == old(out.lines) + r.code && Counts() == r.next
      ensures Allocation() == old(Allocation())
      decreases s, 2
    {
      match s
      case Assign(lv, e) => GenAssign(lv, e);
      case If(t, a, b) => GenIf(t, a, b);
      case While(t, body) => GenWhile(t, body);
      case Println(e) => GenPrintln(e);
      case Delete(e) => GenDelete(e);
    }

    /** IF (test) {statements} ELSE {statements}: labels else<n> and
        endif<n>, n taken from labelCounter before the parts. */
    method GenIf(t: Test, a: seq<Stmt>, b: seq<Stmt>)
      modifies this, out
      ensures var r := StmtCode(old(Environment()), old(Counts()), If(t, a, b));
        out.lines == old(out.lines) + r.code && Counts() == r.next
      ensures Allocation() == old(Allocation())
      decreases If(t, a, b), 1
    {
      ghost var env, c, x0 := Environment(), Counts(), out.lines;
      var n := labelCounter;
      labelCounter := labelCounter + 1;
      GenTest(t);
      out.Emit([Beq(3, 0, Numbered(ElseLabel, n))]);
      ghost var x1 := out.lines;
      assert x1 == x0 + TestCode(env, t) + [Beq(3, 0, Numbered(ElseLabel, n))];
      assert Environment() == env && Counts() == c.(labels := c.labels + 1);
      GenStmts(a);
      out.Emit([Beq(0, 0, Numbered(EndIfLabel, n)), Define(Numbered(ElseLabel, n))]);
      ghost var x2, d1 := out.lines, Counts();
      assert Environment() == env;
      GenStmts(b);
      out.Emit([Define(Numbered(EndIfLabel, n))]);
      IfParts(env, c, t, a, b, x0, x1, x2, out.lines, d1, Counts());
    }

    /** WHILE (test) {statements}: labels loop<n> and endWhile<n>. */
    method GenWhile(t: Test, body: seq<Stmt>)
      modifies this, out
      ensures var r := StmtCode(old(Environment()), old(Counts()), While(t, body));
        out.lines == old(out.lines) + r.code && Counts() == r.next
      ensures Allocation() == old(Allocation())
      decreases While(t, body), 1
    {
      ghost var env, c, x0 := Environment(), Counts(), out.lines;
      var n := labelCounter;
      labelCounter := labelCounter + 1;
      out.Emit([Define(Numbered(LoopLabel, n))]);
      GenTest(t);
      out.Emit([Beq(3, 0, Numbered(EndWhileLabel, n))]);
      ghost var x1 := out.lines;
      assert x1 == x0 + [Define(Numbered(LoopLabel, n))] + TestCode(env, t) + [Beq(3, 0, Numbered(EndWhileLabel, n))];
      assert Environment() == env && Counts() == c.(labels := c.labels + 1);
      GenStmts(body);
      out.Emit([Beq(0, 0, Numbered(LoopLabel, n)), Define(Numbered(EndWhileLabel, n))]);
      WhileParts(env, c, t, body, x0, x1, out.lines, Counts());
    }

    /** PRINTLN (expr): print called with the value in $1. */
    method GenPrintln(e: Expr)
      modifies out
      ensures out.lines == old(out.lines) + PrintlnCode(ExprCode(Environment(), e))
    {
      ghost var x0 := out.lines;
      PushReg(1);
      ghost var x1 := out.lines;
      GenExpr(e);
      ghost var x2 := out.lines;
      out.Emit([Add(1, 3, 0)]);
      ghost var x3 := out.lines;
      GenCallExtern("print");
      ghost var x4 := out.lines;
      PopReg(1);
      Chain5(x0, x1, x2, x3, x4, out.lines, Push(1), ExprCode(Environment(), e), [Add(1, 3, 0)],
             CallExtern("print"), Pop(1));
    }

    /** DELETE [] expr: delete called unless the value is NULL, the label
        skipDelete<k> taken from numDeletes, which then moves on. */
    method GenDelete(e: Expr)
      modifies this, out
      ensures out.lines == old(out.lines) + DeleteCode(ExprCode(old(Environment()), e), old(numDeletes))
      ensures numDeletes == old(numDeletes) + 1 && labelCounter == old(labelCounter)
      ensures Allocation() == old(Allocation())
    {
      ghost var x0 := out.lines;
      GenExpr(e);
      ghost var x1 := out.lines;
      PushReg(1);
      ghost var x2 := out.lines;
      out.Emit([Beq(3, 11, Numbered(SkipDeleteLabel, numDeletes)), Add(1, 3, 0)]);
      ghost var x3 := out.lines;
      GenCallExtern("delete");
      ghost var x4 := out.lines;
      PopReg(1);
      ghost var x5 := out.lines;
      out.Emit([Define(Numbered(SkipDeleteLabel, numDeletes))]);
      Chain6(x0, x1, x2, x3, x4, x5, out.lines, ExprCode(Environment(), e), Push(1),
             [Beq(3, 11, Numbered(SkipDeleteLabel, numDeletes)), Add(1, 3, 0)], CallExtern("delete"), Pop(1),
             [Define(Numbered(SkipDeleteLabel, numDeletes))]);
      numDeletes := numDeletes + 1;
    }

    /** statements -> statements statement: the ones before, then the last. */
    method GenStmts(ss: seq<Stmt>)
      modifies this, out
      ensures var r := StmtsCode(old(Environment()), old(Counts()), ss);
        out.lines == old(out.lines) + r.code && Counts() == r.next
      ensures Allocation() == old(Allocation())
      decreases ss, 0
    {
      if |ss| > 0 {
        ghost var env := Environment();
        ghost var c := Counts();
        GenStmts(ss[..|ss| - 1]);
        GenStmt(ss[|ss| - 1]);
        StmtsSnoc(env, c, ss);
      } else {
        assert StmtsCode(old(Environment()), old(Counts()), ss) == Lowered([], old(Counts()));
      }
    }

    // -------------------------------------------------------------------
    // Declarations: tables filled, lines written
    // -------------------------------------------------------------------

    /** dcl -> type ID: a slot at latestOffset, which moves down a word. */
    method DeclareVar(d: Dcl)
      modifies this
      ensures Allocation() == Declare(old(Allocation()), d)
      ensures Counts() == old(Counts())
    {
      symbolTable := symbolTable[d.name := Slot(d.ty, latestOffset)];
      latestOffset := latestOffset - 4;
    }

    /** paramlist -> dcl | dcl COMMA paramlist */
    method DeclareParamList(ps: seq<Dcl>)
      modifies this
      ensures Allocation() == DeclareParams(old(Allocation()), ps)
      ensures Counts() == old(Counts())
      decreases |ps|
    {
      if |ps| > 0 {
        DeclareVar(ps[0]);
        DeclareParamList(ps[1..]);
      }
    }

    /** dcls -> dcls dcl BECOMES NUM|NULL SEMI, for the last declaration. */
    method GenInitDcl(d: InitDcl)
      modifies this, out
      ensures var r := InitDclCode(old(Allocation()), scanner.dereferenced, d);
        out.lines == old(out.lines) + r.code && Allocation() == r.alloc
      ensures Counts() == old(Counts())
    {
      var x := d.dcl.name;
      var deref := scanner.Contains(x);
      if |freeRegisters| != 0 && !deref {
        var r := freeRegisters[|freeRegisters| - 1];
        regTable := regTable[x := r];
        freeRegisters := freeRegisters[..|freeRegisters| - 1];
        out.Emit([Lis(r), Word(Num(InitValue(d.init)))]);
      } else {
        DeclareVar(d.dcl);
        out.Emit([Lis(3), Word(Num(InitValue(d.init)))]);
        PushReg(3);
      }
    }

    method GenDcls(ds: seq<InitDcl>)
      modifies this, out
      ensures var r := DclsCode(old(Allocation()), scanner.dereferenced, ds);
        out.lines == old(out.lines) + r.code && Allocation() == r.alloc
      ensures Counts() == old(Counts())
      decreases |ds|
    {
      if |ds| > 0 {
        GenDcls(ds[..|ds| - 1]);
        GenInitDcl(ds[|ds| - 1]);
      }
    }

    /** incrementSymbolTable: every entry's offset moved by inc, one entry
        at a time. */
    method IncrementSymbolTable(inc: int)
      modifies this
      ensures symbolTable == Shift(old(symbolTable), inc)
      ensures regTable == old(regTable) && latestOffset == old(latestOffset)
      ensures freeRegisters == old(freeRegisters) && Counts() == old(Counts())
    {
      ghost var orig := symbolTable;
      var todo := symbolTable.Keys;
      while todo != {}
        invariant todo <= orig.Keys && symbolTable.Keys == orig.Keys
        invariant forall x :: x in orig && x !in todo ==> symbolTable[x] == orig[x].(offset := orig[x].offset + inc)
        invariant forall x :: x in todo ==> symbolTable[x] == orig[x]
        invariant regTable == old(regTable) && latestOffset == old(latestOffset)
        invariant freeRegisters == old(freeRegisters) && Counts() == old(Counts())
        decreases |todo|
      {
        var x :| x in todo;
        symbolTable := symbolTable[x := symbolTable[x].(offset := symbolTable[x].offset + inc)];
        todo := todo - {x};
      }
      assert symbolTable == Shift(orig, inc);
    }

    /** symbol_table cleared and latestOffset reset; the register table
        kept or dropped as the entry rule says. */
    method EnterScope()
      modifies this
      ensures Allocation() == Enter(entry, old(Allocation()))
      ensures Counts() == old(Counts())
    {
      symbolTable := map[];
      if entry == DropBindings {
        regTable := map[];
      }
      latestOffset := 0;
    }

    // -------------------------------------------------------------------
    // Procedures, wain and the program
    // -------------------------------------------------------------------

    /** A procedure's label, frame pointer, parameters, locals and saved
        scratch registers, then every offset moved above the arguments. */
    method GenProcedureFrame(p: Procedure)
      modifies this, out
      ensures var a1 := DeclareParams(Enter(entry, old(Allocation())), p.params);
        var r := DclsCode(a1, scanner.dereferenced, p.dcls);
        && out.lines == old(out.lines) + ([Define(ProcLabel(p.name)), Sub(29, 30, 4)] + r.code + SaveScratch())
        && Allocation() == r.alloc.(slots := Shift(r.alloc.slots, 4 * |p.params|))
      ensures Counts() == old(Counts())
    {
      ghost var x0 := out.lines;
      EnterScope();
      out.Emit([Define(ProcLabel(p.name)), Sub(29, 30, 4)]);
      ghost var x1 := out.lines;
      DeclareParamList(p.params);
      ghost var a1 := Allocation();
      GenDcls(p.dcls);
      ghost var x2 := out.lines;
      ghost var r := DclsCode(a1, scanner.dereferenced, p.dcls);
      assert x2 == x1 + r.code && Allocation() == r.alloc;
      PushReg(5);
      ghost var x3 := out.lines;
      PushReg(6);
      ghost var x4 := out.lines;
      PushReg(7);
      Chain3(x2, x3, x4, out.lines, Push(5), Push(6), Push(7));
      Chain3(x0, x1, x2, out.lines, [Define(ProcLabel(p.name)), Sub(29, 30, 4)], r.code, SaveScratch());
      var n := NumParams(p.params);
      IncrementSymbolTable(4 * n);
    }

    method GenProcedure(p: Procedure)
      modifies this, out
      ensures var r := ProcedureCode(entry, scanner.dereferenced, old(State()), p);
        out.lines == old(out.lines) + r.code && State() == r.gen
    {
      ghost var g, x0 := State(), out.lines;
      GenProcedureFrame(p);
      ghost var x1, a2 := out.lines, Allocation();
      GenStmts(p.body);
      ghost var x2 := out.lines;
      GenExpr(p.ret);
      PopReg(7);
      PopReg(6);
      PopReg(5);
      out.Emit([Add(30, 29, 4), Jr(31)]);
      ProcedureParts(entry, scanner.dereferenced, g, p, x0, x1, x2, out.lines, a2, Counts());
    }

    /** procedures -> procedure procedures */
    method GenProcedures(ps: seq<Procedure>)
      modifies this, out
      ensures var r := ProceduresCode(entry, scanner.dereferenced, old(State()), ps);
        out.lines == old(out.lines) + r.code && State() == r.gen
      decreases |ps|
    {
      if |ps| > 0 {
        ghost var g0, x0 := State(), out.lines;
        GenProcedure(ps[0]);
        ghost var g1, x1 := State(), out.lines;
        GenProcedures(ps[1..]);
        ProceduresParts(entry, scanner.dereferenced, g0, ps, x0, x1, out.lines, g1, State());
      }
    }

    /** A wain parameter: its register unless dereferenced, else a slot. */
    method BindParam(d: Dcl, r: Reg)
      modifies this
      ensures Allocation() == BindWainParam(old(Allocation()), scanner.dereferenced, d, r)
      ensures Counts() == old(Counts())
    {
      var deref := scanner.Contains(d.name);
      if !deref {
        regTable := regTable[d.name := r];
      } else {
        DeclareVar(d);
      }
    }

    method GenInitHeap(first: Dcl)
      modifies out
      ensures out.lines == old(out.lines) + InitHeap(first)
    {
      PushReg(31);
      PushReg(2);
      if first.ty == Int {
        out.Emit([Add(2, 0, 0)]);
      }
      out.Emit([Lis(3), WordLabel(Extern("init")), Jalr(3)]);
      PopReg(2);
      PopReg(31);
    }

    /** wain's label, its parameters bound, the heap initialised and the
        locals declared. */
    method GenMainFrame(m: Main)
      modifies this, out
      ensures var a1 := BindWainParam(Enter(entry, old(Allocation())), scanner.dereferenced, m.first, 1);
        var a2 := BindWainParam(a1, scanner.dereferenced, m.second, 2);
        var r := DclsCode(a2, scanner.dereferenced, m.dcls);
        && out.lines == old(out.lines) + ([Define(WainLabel)] + InitHeap(m.first) + r.code)
        && Allocation() == r.alloc
      ensures Counts() == old(Counts())
    {
      EnterScope();
      out.Emit([Define(WainLabel)]);
      BindParam(m.first, 1);
      BindParam(m.second, 2);
      GenInitHeap(m.first);
      GenDcls(m.dcls);
    }

    method GenMain(m: Main)
      modifies this, out
      ensures var r := MainCode(entry, scanner.dereferenced, old(State()), m);
        out.lines == old(out.lines) + r.code && State() == r.gen
    {
      ghost var g, x0 := State(), out.lines;
      GenMainFrame(m);
      ghost var x1, a := out.lines, Allocation();
      GenStmts(m.body);
      ghost var x2 := out.lines;
      GenExpr(m.ret);
      MainParts(entry, scanner.dereferenced, g, m, x0, x1, x2, out.lines, a, Counts());
    }

    method GenPrologue(m: Main)
      modifies out
      ensures out.lines == old(out.lines) + Prologue(scanner.dereferenced, m)
    {
      out.Emit([Import("print"), Import("init"), Import("new"), Import("delete"), Lis(4), Word(Num(4)), Sub(29, 30, 4)]);
      var d1 := scanner.Contains(m.first.name);
      if d1 {
        PushReg(1);
      }
      var d2 := scanner.Contains(m.second.name);
      if d2 {
        PushReg(2);
      }
      out.Emit([Lis(11), Word(Num(1)), Lis(10), WordLabel(Extern("print")), Beq(0, 0, WainLabel)]);
    }

    method GenEpilogue(m: Main)
      modifies out
      ensures out.lines == old(out.lines) + Epilogue(scanner.dereferenced, m)
    {
      var d2 := scanner.Contains(m.second.name);
      if d2 {
        PopReg(2);
      }
      var d1 := scanner.Contains(m.first.name);
      if d1 {
        PopReg(1);
      }
      out.Emit([Jr(31)]);
    }

    /** The prologue, start (the procedures, then wain), the epilogue. */
    method GenProgram(prog: Program)
      requires State() == Initial
      modifies this, out
      ensures out.lines == old(out.lines) + ProgramCode(entry, scanner.dereferenced, prog)
    {
      ghost var derefs := scanner.dereferenced;
      ghost var base := out.lines;
      GenPrologue(prog.main);
      ghost var a := out.lines;
      GenProcedures(prog.procedures);
      ghost var b := out.lines;
      GenMain(prog.main);
      ghost var c := out.lines;
      GenEpilogue(prog.main);
      ProgramParts(entry, derefs, prog, base, a, b, c, out.lines);
    }
  }

  /** The generator's driver: optimise the tree to its fixpoint, collect the
      names `&` takes the address of, then write the prologue, the
      procedures, wain and the epilogue. The corrected rules are used: sums
      are folded only for two ints and a parenthesized target is recorded,
      `&` sees through `*`, and a procedure forgets the register bindings
      of the one before it. */
  method Compile(prog: Program) returns (lines: seq<Asm>)
    ensures var q := Optimizer.Fixpoint(Optimizer.Intended, prog);
      lines == ProgramCode(DropBindings, Derefs.DerefsProgram(Derefs.Intended, q), q)
  {
    var optimizer := new Optimizer.TreeOptimizer(Optimizer.Intended);
    var q := optimizer.Optimize(prog);
    var scanner := new Derefs.DerefScanner();
    scanner.ScanProgram(Derefs.Intended, q);
    ghost var derefs := scanner.dereferenced;
    assert derefs == Derefs.DerefsProgram(Derefs.Intended, q);
    var gen := new CodeGen(scanner, DropBindings);
    gen.GenProgram(q);
    assert gen.scanner.dereferenced == derefs;
    lines := gen.out.lines;
  }
}
