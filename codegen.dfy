/** The code generator's back half: register/frame allocation and the
    lowering of the optimized, typed tree to assembly lines.  It follows the
    convention of the generated code: $3 holds each expression's value, $4
    the constant 4, $11 the constant 1 (NULL), $29 the frame pointer, $30
    the stack pointer, $31 the return address; $5, $6, $7 are scratch; $1
    and $2 hold wain's parameters; $8, $9, $13 ... $28 are handed out to
    local variables. */
module Codegen {
  import opened Wrappers
  import opened Ast
  import opened Numerals
  import opened Scanner
  import Derefs

  type Reg = nat

  // ---------------------------------------------------------------------
  // Assembly lines
  // ---------------------------------------------------------------------

  /** The numbered labels: if/while labels share labelCounter, delete's
      skip label has its own numDeletes. */
  datatype LabelKind = ElseLabel | EndIfLabel | LoopLabel | EndWhileLabel | SkipDeleteLabel

  datatype Label =
    | Numbered(kind: LabelKind, n: nat)
    | ProcLabel(proc: string)   // "F" + the procedure's name
    | WainLabel
    | Extern(symbol: string)    // print, init, new, delete

  /** A number written into a line: from an int, or the empty text that the
      frame lookup of a name without a slot yields. */
  datatype Num = Num(value: int) | Blank

  datatype Asm =
    | Add(d: Reg, s: Reg, t: Reg)
    | Sub(d: Reg, s: Reg, t: Reg)
    | Slt(d: Reg, s: Reg, t: Reg)
    | Sltu(d: Reg, s: Reg, t: Reg)
    | Mult(s: Reg, t: Reg)
    | Div(s: Reg, t: Reg)
    | Mflo(d: Reg)
    | Mfhi(d: Reg)
    | Lis(d: Reg)
    | Word(num: Num)
    | WordLabel(refers: Label)
    | Lw(t: Reg, offset: Num, s: Reg)
    | Sw(t: Reg, offset: Num, s: Reg)
    | Beq(s: Reg, t: Reg, target: Label)
    | Bne(s: Reg, t: Reg, skip: int)
    | Jr(s: Reg)
    | Jalr(s: Reg)
    | Define(defines: Label)
    | Import(symbol: string)

  function KindText(k: LabelKind): string {
    match k
    case ElseLabel => "else"
    case EndIfLabel => "endif"
    case LoopLabel => "loop"
    case EndWhileLabel => "endWhile"
    case SkipDeleteLabel => "skipDelete"
  }

  function LabelText(l: Label): string {
    match l
    case Numbered(k, n) => KindText(k) + Digits(n)
    case ProcLabel(p) => "F" + p
    case WainLabel => "wain"
    case Extern(x) => x
  }

  function RegText(r: Reg): string { "$" + Digits(r) }

  function NumText(n: Num): string {
    match n
    case Num(v) => IntText(v)
    case Blank => ""
  }

  function Three(m: string, d: Reg, s: Reg, t: Reg): string {
    m + " " + RegText(d) + ", " + RegText(s) + ", " + RegText(t)
  }

  /** The text of a line as it is printed. */
  function Text(a: Asm): string {
    match a
    case Add(d, s, t) => Three("add", d, s, t)
    case Sub(d, s, t) => Three("sub", d, s, t)
    case Slt(d, s, t) => Three("slt", d, s, t)
    case Sltu(d, s, t) => Three("sltu", d, s, t)
    case Mult(s, t) => "mult " + RegText(s) + ", " + RegText(t)
    case Div(s, t) => "div " + RegText(s) + ", " + RegText(t)
    case Mflo(d) => "mflo " + RegText(d)
    case Mfhi(d) => "mfhi " + RegText(d)
    case Lis(d) => "lis " + RegText(d)
    case Word(n) => ".word " + NumText(n)
    case WordLabel(l) => ".word " + LabelText(l)
    case Lw(t, o, s) => "lw " + RegText(t) + ", " + NumText(o) + "(" + RegText(s) + ")"
    case Sw(t, o, s) => "sw " + RegText(t) + ", " + NumText(o) + "(" + RegText(s) + ")"
    case Beq(s, t, l) => "beq " + RegText(s) + ", " + RegText(t) + ", " + LabelText(l)
    case Bne(s, t, k) => "bne " + RegText(s) + ", " + RegText(t) + ", " + IntText(k)
    case Jr(s) => "jr " + RegText(s)
    case Jalr(s) => "jalr " + RegText(s)
    case Define(l) => LabelText(l) + ":"
    case Import(x) => ".import " + x
  }

  function Texts(code: seq<Asm>): seq<string> {
    seq(|code|, i requires 0 <= i < |code| => Text(code[i]))
  }

  /** The kind a numbered label's text starts with: the prefixes differ
      in their first, second or fourth letter. */
  function KindOf(s: string): LabelKind {
    if |s| > 0 && s[0] == 'l' then LoopLabel
    else if |s| > 0 && s[0] == 's' then SkipDeleteLabel
    else if |s| > 1 && s[1] == 'l' then ElseLabel
    else if |s| > 3 && s[3] == 'i' then EndIfLabel
    else EndWhileLabel
  }

  /** Reads a defined label back from its text. */
  function LabelOf(s: string): Option<Label> {
    if s == "wain" then Some(WainLabel)
    else if |s| > 0 && s[0] == 'F' then Some(ProcLabel(s[1..]))
    else
      var k := KindOf(s);
      var p := |KindText(k)|;
      if p <= |s| && AllDigits(s[p..]) then Some(Numbered(k, DecimalValue(s[p..]))) else None
  }

  lemma KindOfText(k: LabelKind, d: string)
    ensures KindOf(KindText(k) + d) == k
  {
    var s := KindText(k) + d;
    assert s[0] == KindText(k)[0] && s[1] == KindText(k)[1] && s[3] == KindText(k)[3];
  }

  /** Every label the generator defines is read back from its text, so
      distinct labels are written differently.  (Imported symbols are
      never defined.) */
  lemma LabelRoundTrip(l: Label)
    requires !l.Extern?
    ensures LabelOf(LabelText(l)) == Some(l)
  {
    var s := LabelText(l);
    match l {
      case Numbered(k, n) =>
        KindOfText(k, Digits(n));
        DigitsRoundTrip(n);
        assert s[0] == KindText(k)[0];
        assert s[|KindText(k)|..] == Digits(n);
      case ProcLabel(p) =>
        assert s[0] == 'F' && s[1..] == p;
        assert s != "wain" by { assert "wain"[0] == 'w'; }
      case WainLabel =>
    }
  }

  lemma LabelTextInjective(a: Label, b: Label)
    requires !a.Extern? && !b.Extern?
    requires LabelText(a) == LabelText(b)
    ensures a == b
  {
    LabelRoundTrip(a);
    LabelRoundTrip(b);
  }

  // ---------------------------------------------------------------------
  // Where variables live, and the stack discipline
  // ---------------------------------------------------------------------

  /** A symbol_table entry: the declared type and the offset from $29. */
  datatype Slot = Slot(ty: Ty, offset: int)

  /** What lowering reads: regTable and symbol_table. */
  datatype Env = Env(regs: map<string, Reg>, slots: map<string, Slot>)

  /** symbol_table[name].second, which is empty for a name without a slot. */
  function SlotNum(env: Env, x: string): Num {
    if x in env.slots then Num(env.slots[x].offset) else Blank
  }

  function Push(r: Reg): seq<Asm> { [Sw(r, Num(-4), 30), Sub(30, 30, 4)] }

  function Pop(r: Reg): seq<Asm> { [Add(30, 30, 4), Lw(r, Num(-4), 30)] }

  function Pops(r: Reg, n: nat): seq<Asm> {
    if n == 0 then [] else Pop(r) + Pops(r, n - 1)
  }

  /** Words pushed minus words popped. */
  function Delta(code: seq<Asm>): int
    decreases |code|
  {
    if |code| == 0 then 0
    else (if code[0] == Sub(30, 30, 4) then 1 else if code[0] == Add(30, 30, 4) then -1 else 0)
         + Delta(code[1..])
  }

  lemma {:induction false} DeltaAppend(a: seq<Asm>, b: seq<Asm>)
    ensures Delta(a + b) == Delta(a) + Delta(b)
    decreases |a|
  {
    if |a| > 0 {
      DeltaAppend(a[1..], b);
      assert (a + b)[0] == a[0];
      assert (a + b)[1..] == a[1..] + b;
    } else {
      assert a + b == b;
    }
  }

  lemma PushPopDelta(r: Reg)
    ensures Delta(Push(r)) == 1 && Delta(Pop(r)) == -1
  {
    assert Push(r)[1..] == [Sub(30, 30, 4)] && Pop(r)[1..] == [Lw(r, Num(-4), 30)];
    assert Delta([Sub(30, 30, 4)]) == 1 + Delta([]);
    assert Delta([Lw(r, Num(-4), 30)]) == Delta([]);
  }

  lemma {:induction false} PopsDelta(r: Reg, n: nat)
    ensures Delta(Pops(r, n)) == -(n as int)
    decreases n
  {
    if n > 0 {
      PushPopDelta(r);
      PopsDelta(r, n - 1);
      DeltaAppend(Pop(r), Pops(r, n - 1));
    }
  }

  /** Lines that neither push nor pop. */
  predicate Quiet(code: seq<Asm>) {
    forall i :: 0 <= i < |code| ==> code[i] != Sub(30, 30, 4) && code[i] != Add(30, 30, 4)
  }

  lemma {:induction false} QuietDelta(code: seq<Asm>)
    requires Quiet(code)
    ensures Delta(code) == 0
    decreases |code|
  {
    if |code| > 0 {
      QuietDelta(code[1..]);
    }
  }

  // ---------------------------------------------------------------------
  // Lowering expressions: each leaves its value in $3
  // ---------------------------------------------------------------------

  /** resolveToID on expr -> term -> factor -> ID, term -> factor -> ID and
      factor -> ID: the register of a register-bound variable.  The source
      tests only that the factor's first symbol is ID, so a call
      `ID LPAREN ... RPAREN` whose callee shares its name with a
      register-bound variable resolves to that variable's register too. */
  function ResolveFactor(env: Env, f: Factor): Option<Reg> {
    if f.FId? && f.name in env.regs then Some(env.regs[f.name])
    else if f.FCall? && f.callee in env.regs then Some(env.regs[f.callee])
    else None
  }

  function ResolveTerm(env: Env, t: Term): Option<Reg> {
    if t.TFactor? then ResolveFactor(env, t.factor) else None
  }

  function ResolveExpr(env: Env, e: Expr): Option<Reg> {
    if e.ETerm? then ResolveTerm(env, e.term) else None
  }

  /** As written, a call whose callee shares its name with a register-bound
      variable is lowered as that variable: with `int wain(int foo, int b)`
      in $1 and $2, `foo() + b` becomes the single line `add $3, $1, $2`
      and the procedure foo is never called. */
  lemma ShadowedCallAsWritten()
    ensures var env := Env(map["foo" := 1, "b" := 2], map[]);
            var call := ETerm(TFactor(FCall("foo", [], Int), Int), Int);
            var b := TFactor(FId("b", Int), Int);
            && ResolveExpr(env, call) == Some(1)
            && ExprCode(env, EBin(Plus, call, b, Int)) == [Add(3, 1, 2)]
  {
  }

  /** Two operands, each either already in a register (its code is skipped)
      or computed: the left one is saved on the stack and popped into $5
      when both must be computed; a lone computed operand is read from $3. */
  datatype Operands = Operands(code: seq<Asm>, left: Reg, right: Reg)

  function LoadOperands(lc: seq<Asm>, rc: seq<Asm>, lr: Option<Reg>, rr: Option<Reg>): Operands {
    if lr.None? && rr.None? then Operands(lc + Push(3) + rc + Pop(5), 5, 3)
    else if rr.None? then Operands(rc, lr.value, 3)
    else if lr.None? then Operands(lc, 3, rr.value)
    else Operands([], lr.value, rr.value)
  }

  /** expr -> term, with the shortcut for a literal term. */
  function ExprCode(env: Env, e: Expr): seq<Asm>
    decreases e
  {
    match e
    case ETerm(t, _) =>
      if t.TFactor? && t.factor.FNum? then [Lis(3), Word(Num(t.factor.value))]
      else TermCode(env, t)
    case EBin(op, l, t, _) =>
      SumCode(op, l.ty, t.ty, ExprCode(env, l), TermCode(env, t), ResolveExpr(env, l), ResolveTerm(env, t))
  }

  /** expr PLUS|MINUS term, by operand types: int and int add or subtract;
      a pointer and an int scale the int by 4 (mult by $4, mflo); two
      pointers subtract and divide by 4.  int - int* (rejected by the type
      checker) emits nothing. */
  function SumCode(op: AddOp, lt: Ty, rt: Ty, lc: seq<Asm>, tc: seq<Asm>, lr: Option<Reg>, tr: Option<Reg>): seq<Asm> {
    if lt == Int && rt == Int then
      var o := LoadOperands(lc, tc, lr, tr);
      o.code + [SumLine(op, 3, o.left, o.right)]
    else if lt == IntStar && rt == Int then PointerPlusIntCode(op, lc, tc, lr, tr)
    else if op == Plus && lt == Int && rt == IntStar then IntPlusPointerCode(lc, tc, lr, tr)
    else if op == Minus && lt == IntStar && rt == IntStar then PointerDifferenceCode(lc, tc, lr, tr)
    else []
  }

  /** int* PLUS|MINUS int: the int operand multiplied by 4 first. */
  function PointerPlusIntCode(op: AddOp, lc: seq<Asm>, tc: seq<Asm>, lr: Option<Reg>, tr: Option<Reg>): seq<Asm> {
    if lr.None? && tr.None? then lc + Push(3) + tc + [Mult(3, 4), Mflo(3)] + Pop(5) + [SumLine(op, 3, 5, 3)]
    else if tr.None? then tc + [Mult(3, 4), Mflo(3), SumLine(op, 3, lr.value, 3)]
    else if lr.None? then [Mult(tr.value, 4), Mflo(5)] + lc + [SumLine(op, 3, 5, 3)]
    else [Mult(tr.value, 4), Mflo(3), SumLine(op, 3, lr.value, 3)]
  }

  /** int PLUS int*: the int operand multiplied by 4 first. */
  function IntPlusPointerCode(lc: seq<Asm>, tc: seq<Asm>, lr: Option<Reg>, tr: Option<Reg>): seq<Asm> {
    if lr.None? && tr.None? then tc + Push(3) + lc + [Mult(3, 4), Mflo(3)] + Pop(5) + [Add(3, 5, 3)]
    else if tr.None? then [Mult(lr.value, 4), Mflo(5)] + tc + [Add(3, 5, 3)]
    else if lr.None? then lc + [Mult(3, 4), Mflo(3), Add(3, tr.value, 3)]
    else [Mult(lr.value, 4), Mflo(3), Add(3, tr.value, 3)]
  }

  /** int* MINUS int*: the difference divided by 4. */
  function PointerDifferenceCode(lc: seq<Asm>, tc: seq<Asm>, lr: Option<Reg>, tr: Option<Reg>): seq<Asm> {
    if lr.None? && tr.None? then lc + Push(3) + tc + Pop(5) + [Sub(3, 5, 3), Div(3, 4), Mflo(3)]
    else if tr.None? then tc + [Sub(3, lr.value, 3), Div(3, 4), Mflo(3)]
    else if lr.None? then lc + [Sub(3, 3, tr.value), Div(3, 4), Mflo(3)]
    else [Sub(3, lr.value, tr.value), Div(3, 4), Mflo(3)]
  }

  function SumLine(op: AddOp, d: Reg, s: Reg, t: Reg): Asm {
    if op == Plus then Add(d, s, t) else Sub(d, s, t)
  }

  /** term STAR|SLASH|PCT factor: mult then mflo, div then mflo or mfhi. */
  function TermCode(env: Env, t: Term): seq<Asm>
    decreases t
  {
    match t
    case TFactor(f, _) => FactorCode(env, f)
    case TBin(op, l, f, _) =>
      var o := LoadOperands(TermCode(env, l), FactorCode(env, f), ResolveTerm(env, l), ResolveFactor(env, f));
      o.code + ProductOp(op, o.left, o.right)
  }

  function ProductOp(op: MulOp, a: Reg, b: Reg): seq<Asm> {
    match op
    case Star => [Mult(a, b), Mflo(3)]
    case Slash => [Div(a, b), Mflo(3)]
    case Pct => [Div(a, b), Mfhi(3)]
  }

  /** A variable read: a move from its register, else a load from its slot. */
  function VarRead(env: Env, x: string): seq<Asm> {
    if x in env.regs then [Add(3, 0, env.regs[x])] else [Lw(3, SlotNum(env, x), 29)]
  }

  /** A call of an external routine with its argument in $1 ($1 and $31
      saved around it). */
  function CallExtern(symbol: string): seq<Asm> {
    Push(31) + [Lis(5), WordLabel(Extern(symbol)), Jalr(5)] + Pop(31)
  }

  function FactorCode(env: Env, f: Factor): seq<Asm>
    decreases f
  {
    match f
    case FId(x, _) => VarRead(env, x)
    case FNum(v, _) => [Lis(3), Word(Num(v))]
    case FNull(_) => [Add(3, 0, 11)]
    case FParen(e, _) => ExprCode(env, e)
    case FAddr(lv, _) => AddrCode(env, lv)
    case FDeref(g, _) => FactorCode(env, g) + [Lw(3, Num(0), 3)]
    case FNew(e, _) =>
      ExprCode(env, e) + Push(1) + [Add(1, 3, 0)] + CallExtern("new") + [Bne(3, 0, 1), Add(3, 11, 0)] + Pop(1)
    case FCall(p, args, _) =>
      Push(29) + Push(31) + ArgsCode(env, args) + [Lis(5), WordLabel(ProcLabel(p)), Jalr(5)]
      + Pops(31, |args|) + Pop(31) + Pop(29)
  }

  /** factor -> AMP lvalue, the lvalue unwrapped through parentheses: a
      register variable yields its register's content, a frame variable
      $29 plus its offset, `*factor` the factor's value. */
  function AddrCode(env: Env, lv: Lvalue): seq<Asm>
    decreases lv
  {
    match lv
    case LId(x, _) =>
      if x in env.regs then [Add(3, 0, env.regs[x])] else [Lis(3), Word(SlotNum(env, x)), Add(3, 3, 29)]
    case LParen(inner, _) => AddrCode(env, inner)
    case LDeref(g, _) => FactorCode(env, g)
  }

  /** pushArgs: each argument's value pushed, left to right. */
  function ArgsCode(env: Env, args: seq<Expr>): seq<Asm>
    decreases args
  {
    if |args| == 0 then [] else ExprCode(env, args[0]) + Push(3) + ArgsCode(env, args[1..])
  }

  /** test: the operands compared with slt for int, sltu for int*; EQ and NE
      combine both orders, LE and GE negate one against $11 (= 1). */
  function TestCode(env: Env, t: Test): seq<Asm> {
    var o := LoadOperands(ExprCode(env, t.lhs), ExprCode(env, t.rhs), ResolveExpr(env, t.lhs), ResolveExpr(env, t.rhs));
    o.code + Compare(t.rop, t.lhs.ty != Int, o.left, o.right)
  }

  function Less(unsigned: bool, d: Reg, s: Reg, t: Reg): Asm {
    if unsigned then Sltu(d, s, t) else Slt(d, s, t)
  }

  function Compare(op: RelOp, unsigned: bool, a: Reg, b: Reg): seq<Asm> {
    match op
    case Lt => [Less(unsigned, 3, a, b)]
    case Gt => [Less(unsigned, 3, b, a)]
    case Ne => [Less(unsigned, 6, b, a), Less(unsigned, 7, a, b), Add(3, 6, 7)]
    case Eq => [Less(unsigned, 6, b, a), Less(unsigned, 7, a, b), Add(3, 6, 7), Sub(3, 11, 3)]
    case Le => [Less(unsigned, 6, b, a), Sub(3, 11, 6)]
    case Ge => [Less(unsigned, 6, a, b), Sub(3, 11, 6)]
  }

  // ---------------------------------------------------------------------
  // Stack balance of expression code
  // ---------------------------------------------------------------------

  lemma OperandsDelta(lc: seq<Asm>, rc: seq<Asm>, lr: Option<Reg>, rr: Option<Reg>)
    requires Delta(lc) == 0 && Delta(rc) == 0
    ensures Delta(LoadOperands(lc, rc, lr, rr).code) == 0
  {
    PushPopDelta(3);
    PushPopDelta(5);
    DeltaAppend(lc, Push(3));
    DeltaAppend(lc + Push(3), rc);
    DeltaAppend(lc + Push(3) + rc, Pop(5));
  }

  lemma SumDelta(op: AddOp, lt: Ty, rt: Ty, lc: seq<Asm>, tc: seq<Asm>, lr: Option<Reg>, tr: Option<Reg>)
    requires Delta(lc) == 0 && Delta(tc) == 0
    ensures Delta(SumCode(op, lt, rt, lc, tc, lr, tr)) == 0
  {
    if lt == Int && rt == Int {
      var o := LoadOperands(lc, tc, lr, tr);
      OperandsDelta(lc, tc, lr, tr);
      DeltaAppend(o.code, [SumLine(op, 3, o.left, o.right)]);
      QuietDelta([SumLine(op, 3, o.left, o.right)]);
    } else if lt == IntStar && rt == Int {
      PointerPlusIntDelta(op, lc, tc, lr, tr);
    } else if op == Plus && lt == Int && rt == IntStar {
      IntPlusPointerDelta(lc, tc, lr, tr);
    } else if op == Minus && lt == IntStar && rt == IntStar {
      PointerDifferenceDelta(lc, tc, lr, tr);
    }
  }

  /** Both operands computed: the first saved across the second and popped
      into $5, with lines that neither push nor pop around the pop. */
  lemma BothComputed(a: seq<Asm>, b: seq<Asm>, mid: seq<Asm>, tail: seq<Asm>)
    requires Delta(a) == 0 && Delta(b) == 0 && Quiet(mid) && Quiet(tail)
    ensures Delta(a + Push(3) + b + mid + Pop(5) + tail) == 0
  {
    PushPopDelta(3);
    PushPopDelta(5);
    QuietDelta(mid);
    QuietDelta(tail);
    DeltaAppend(a, Push(3));
    DeltaAppend(a + Push(3), b);
    DeltaAppend(a + Push(3) + b, mid);
    DeltaAppend(a + Push(3) + b + mid, Pop(5));
    DeltaAppend(a + Push(3) + b + mid + Pop(5), tail);
  }

  /** Code between lines that neither push nor pop is as balanced as itself. */
  lemma Sandwich(pre: seq<Asm>, c: seq<Asm>, post: seq<Asm>)
    requires Quiet(pre) && Quiet(post) && Delta(c) == 0
    ensures Delta(pre + c + post) == 0
  {
    QuietDelta(pre);
    QuietDelta(post);
    DeltaAppend(pre, c);
    DeltaAppend(pre + c, post);
  }

  lemma PointerPlusIntDelta(op: AddOp, lc: seq<Asm>, tc: seq<Asm>, lr: Option<Reg>, tr: Option<Reg>)
    requires Delta(lc) == 0 && Delta(tc) == 0
    ensures Delta(PointerPlusIntCode(op, lc, tc, lr, tr)) == 0
  {
    var code := PointerPlusIntCode(op, lc, tc, lr, tr);
    if lr.None? && tr.None? {
      BothComputed(lc, tc, [Mult(3, 4), Mflo(3)], [SumLine(op, 3, 5, 3)]);
    } else if tr.None? {
      Sandwich([], tc, [Mult(3, 4), Mflo(3), SumLine(op, 3, lr.value, 3)]);
      assert code == [] + tc + [Mult(3, 4), Mflo(3), SumLine(op, 3, lr.value, 3)];
    } else if lr.None? {
      Sandwich([Mult(tr.value, 4), Mflo(5)], lc, [SumLine(op, 3, 5, 3)]);
    } else {
      QuietDelta(code);
    }
  }

  lemma IntPlusPointerDelta(lc: seq<Asm>, tc: seq<Asm>, lr: Option<Reg>, tr: Option<Reg>)
    requires Delta(lc) == 0 && Delta(tc) == 0
    ensures Delta(IntPlusPointerCode(lc, tc, lr, tr)) == 0
  {
    var code := IntPlusPointerCode(lc, tc, lr, tr);
    if lr.None? && tr.None? {
      BothComputed(tc, lc, [Mult(3, 4), Mflo(3)], [Add(3, 5, 3)]);
    } else if tr.None? {
      Sandwich([Mult(lr.value, 4), Mflo(5)], tc, [Add(3, 5, 3)]);
    } else if lr.None? {
      Sandwich([], lc, [Mult(3, 4), Mflo(3), Add(3, tr.value, 3)]);
      assert code == [] + lc + [Mult(3, 4), Mflo(3), Add(3, tr.value, 3)];
    } else {
      QuietDelta(code);
    }
  }

  lemma PointerDifferenceDelta(lc: seq<Asm>, tc: seq<Asm>, lr: Option<Reg>, tr: Option<Reg>)
    requires Delta(lc) == 0 && Delta(tc) == 0
    ensures Delta(PointerDifferenceCode(lc, tc, lr, tr)) == 0
  {
    var code := PointerDifferenceCode(lc, tc, lr, tr);
    if lr.None? && tr.None? {
      BothComputed(lc, tc, [], [Sub(3, 5, 3), Div(3, 4), Mflo(3)]);
      assert code == lc + Push(3) + tc + [] + Pop(5) + [Sub(3, 5, 3), Div(3, 4), Mflo(3)];
    } else if tr.None? {
      Sandwich([], tc, [Sub(3, lr.value, 3), Div(3, 4), Mflo(3)]);
      assert code == [] + tc + [Sub(3, lr.value, 3), Div(3, 4), Mflo(3)];
    } else if lr.None? {
      Sandwich([], lc, [Sub(3, 3, tr.value), Div(3, 4), Mflo(3)]);
      assert code == [] + lc + [Sub(3, 3, tr.value), Div(3, 4), Mflo(3)];
    } else {
      QuietDelta(code);
    }
  }

  lemma {:induction false} ExprDelta(env: Env, e: Expr)
    ensures Delta(ExprCode(env, e)) == 0
    decreases e
  {
    match e
    case ETerm(t, _) =>
      if t.TFactor? && t.factor.FNum? {
        QuietDelta(ExprCode(env, e));
      } else {
        TermDelta(env, t);
      }
    case EBin(op, l, t, _) =>
      ExprDelta(env, l);
      TermDelta(env, t);
      SumDelta(op, l.ty, t.ty, ExprCode(env, l), TermCode(env, t), ResolveExpr(env, l), ResolveTerm(env, t));
  }

  lemma {:induction false} TermDelta(env: Env, t: Term)
    ensures Delta(TermCode(env, t)) == 0
    decreases t
  {
    match t
    case TFactor(f, _) => FactorDelta(env, f);
    case TBin(op, l, f, _) =>
      TermDelta(env, l);
      FactorDelta(env, f);
      var o := LoadOperands(TermCode(env, l), FactorCode(env, f), ResolveTerm(env, l), ResolveFactor(env, f));
      BinaryDelta(TermCode(env, l), FactorCode(env, f), ResolveTerm(env, l), ResolveFactor(env, f),
                  ProductOp(op, o.left, o.right));
  }

  /** Two balanced operands followed by lines that neither push nor pop. */
  lemma BinaryDelta(lc: seq<Asm>, rc: seq<Asm>, lr: Option<Reg>, rr: Option<Reg>, tail: seq<Asm>)
    requires Delta(lc) == 0 && Delta(rc) == 0 && Quiet(tail)
    ensures Delta(LoadOperands(lc, rc, lr, rr).code + tail) == 0
  {
    OperandsDelta(lc, rc, lr, rr);
    DeltaAppend(LoadOperands(lc, rc, lr, rr).code, tail);
    QuietDelta(tail);
  }

  lemma {:induction false} FactorDelta(env: Env, f: Factor)
    ensures Delta(FactorCode(env, f)) == 0
    decreases f
  {
    match f
    case FId(x, _) => QuietDelta(VarRead(env, x));
    case FNum(_, _) => QuietDelta(FactorCode(env, f));
    case FNull(_) => QuietDelta(FactorCode(env, f));
    case FParen(e, _) => ExprDelta(env, e);
    case FAddr(lv, _) => AddrDelta(env, lv);
    case FDeref(g, _) =>
      FactorDelta(env, g);
      DeltaAppend(FactorCode(env, g), [Lw(3, Num(0), 3)]);
      QuietDelta([Lw(3, Num(0), 3)]);
    case FNew(e, _) =>
      ExprDelta(env, e);
      NewDelta(ExprCode(env, e));
    case FCall(p, args, _) =>
      ArgsDelta(env, args);
      CallDelta(ArgsCode(env, args), p, |args|);
  }

  lemma ExternDelta(symbol: string)
    ensures Delta(CallExtern(symbol)) == 0
  {
    var mid := [Lis(5), WordLabel(Extern(symbol)), Jalr(5)];
    PushPopDelta(31);
    QuietDelta(mid);
    DeltaAppend(Push(31), mid);
    DeltaAppend(Push(31) + mid, Pop(31));
  }

  lemma NewDelta(ec: seq<Asm>)
    requires Delta(ec) == 0
    ensures Delta(ec + Push(1) + [Add(1, 3, 0)] + CallExtern("new") + [Bne(3, 0, 1), Add(3, 11, 0)] + Pop(1)) == 0
  {
    var a := [Add(1, 3, 0)];
    var b := [Bne(3, 0, 1), Add(3, 11, 0)];
    PushPopDelta(1);
    ExternDelta("new");
    QuietDelta(a);
    QuietDelta(b);
    Delta5(ec, Push(1), a, CallExtern("new"), b);
    DeltaAppend(ec + Push(1) + a + CallExtern("new") + b, Pop(1));
  }

  lemma Delta5(a: seq<Asm>, b: seq<Asm>, c: seq<Asm>, d: seq<Asm>, e: seq<Asm>)
    ensures Delta(a + b + c + d + e) == Delta(a) + Delta(b) + Delta(c) + Delta(d) + Delta(e)
  {
    DeltaAppend(a, b);
    DeltaAppend(a + b, c);
    DeltaAppend(a + b + c, d);
    DeltaAppend(a + b + c + d, e);
  }

  /** A call pushes $29, $31 and one word per argument, and after the jump
      pops the arguments into $31, then $31 and $29. */
  lemma CallDelta(ac: seq<Asm>, p: string, n: nat)
    requires Delta(ac) == n
    ensures Delta(Push(29) + Push(31) + ac + [Lis(5), WordLabel(ProcLabel(p)), Jalr(5)]
                  + Pops(31, n) + Pop(31) + Pop(29)) == 0
  {
    var mid := [Lis(5), WordLabel(ProcLabel(p)), Jalr(5)];
    PushPopDelta(29);
    PushPopDelta(31);
    PopsDelta(31, n);
    QuietDelta(mid);
    Delta5(Push(29), Push(31), ac, mid, Pops(31, n));
    DeltaAppend(Push(29) + Push(31) + ac + mid + Pops(31, n), Pop(31));
    DeltaAppend(Push(29) + Push(31) + ac + mid + Pops(31, n) + Pop(31), Pop(29));
  }

  lemma {:induction false} AddrDelta(env: Env, lv: Lvalue)
    ensures Delta(AddrCode(env, lv)) == 0
    decreases lv
  {
    match lv
    case LId(x, _) => QuietDelta(AddrCode(env, lv));
    case LParen(inner, _) => AddrDelta(env, inner);
    case LDeref(g, _) => FactorDelta(env, g);
  }

  /** pushArgs leaves one word on the stack per argument. */
  lemma {:induction false} ArgsDelta(env: Env, args: seq<Expr>)
    ensures Delta(ArgsCode(env, args)) == |args|
    decreases args
  {
    if |args| > 0 {
      ExprDelta(env, args[0]);
      ArgsDelta(env, args[1..]);
      PushPopDelta(3);
      DeltaAppend(ExprCode(env, args[0]), Push(3));
      DeltaAppend(ExprCode(env, args[0]) + Push(3), ArgsCode(env, args[1..]));
    }
  }

  lemma TestDelta(env: Env, t: Test)
    ensures Delta(TestCode(env, t)) == 0
  {
    ExprDelta(env, t.lhs);
    ExprDelta(env, t.rhs);
    var o := LoadOperands(ExprCode(env, t.lhs), ExprCode(env, t.rhs), ResolveExpr(env, t.lhs), ResolveExpr(env, t.rhs));
    CompareQuiet(t.rop, t.lhs.ty != Int, o.left, o.right);
    BinaryDelta(ExprCode(env, t.lhs), ExprCode(env, t.rhs), ResolveExpr(env, t.lhs), ResolveExpr(env, t.rhs),
                Compare(t.rop, t.lhs.ty != Int, o.left, o.right));
  }

  lemma CompareQuiet(op: RelOp, unsigned: bool, a: Reg, b: Reg)
    ensures Quiet(Compare(op, unsigned, a, b))
  {
  }

  // ---------------------------------------------------------------------
  // Lowering statements
  // ---------------------------------------------------------------------

  /** labelCounter (if and while) and numDeletes (delete). */
  datatype Counters = Counters(labels: nat, deletes: nat)

  datatype Lowered = Lowered(code: seq<Asm>, next: Counters)

  /** lvalue BECOMES expr: the lvalue unwrapped through parentheses; a
      variable is written from $3 to its register or slot, `*factor` stores
      the value through the address the factor computes. */
  function AssignCode(env: Env, lv: Lvalue, e: Expr): seq<Asm> {
    var target := Derefs.Unwrap(lv);
    if target.LId? then
      ExprCode(env, e)
      + (if target.name in env.regs then [Add(env.regs[target.name], 0, 3)]
         else [Sw(3, SlotNum(env, target.name), 29)])
    else
      var o := LoadOperands(ExprCode(env, e), FactorCode(env, target.target),
                            ResolveExpr(env, e), ResolveFactor(env, target.target));
      o.code + [Sw(o.left, Num(0), o.right)]
  }

  function IfCode(tc: seq<Asm>, n: nat, a: seq<Asm>, b: seq<Asm>): seq<Asm> {
    tc + [Beq(3, 0, Numbered(ElseLabel, n))] + a
    + [Beq(0, 0, Numbered(EndIfLabel, n)), Define(Numbered(ElseLabel, n))] + b
    + [Define(Numbered(EndIfLabel, n))]
  }

  function WhileCode(tc: seq<Asm>, n: nat, body: seq<Asm>): seq<Asm> {
    [Define(Numbered(LoopLabel, n))] + tc + [Beq(3, 0, Numbered(EndWhileLabel, n))] + body
    + [Beq(0, 0, Numbered(LoopLabel, n)), Define(Numbered(EndWhileLabel, n))]
  }

  function PrintlnCode(ec: seq<Asm>): seq<Asm> {
    Push(1) + ec + [Add(1, 3, 0)] + CallExtern("print") + Pop(1)
  }

  /** delete []: the call is skipped for NULL ($3 equal to $11). */
  function DeleteCode(ec: seq<Asm>, k: nat): seq<Asm> {
    ec + Push(1) + [Beq(3, 11, Numbered(SkipDeleteLabel, k)), Add(1, 3, 0)] + CallExtern("delete")
    + Pop(1) + [Define(Numbered(SkipDeleteLabel, k))]
  }

  /** An if or while takes the current labelCounter and increments it
      before its parts are lowered; a delete takes numDeletes and
      increments it afterwards. */
  function StmtCode(env: Env, c: Counters, s: Stmt): Lowered
    decreases s
  {
    match s
    case Assign(lv, e) => Lowered(AssignCode(env, lv, e), c)
    case If(t, a, b) =>
      var ra := StmtsCode(env, c.(labels := c.labels + 1), a);
      var rb := StmtsCode(env, ra.next, b);
      Lowered(IfCode(TestCode(env, t), c.labels, ra.code, rb.code), rb.next)
    case While(t, body) =>
      var rb := StmtsCode(env, c.(labels := c.labels + 1), body);
      Lowered(WhileCode(TestCode(env, t), c.labels, rb.code), rb.next)
    case Println(e) => Lowered(PrintlnCode(ExprCode(env, e)), c)
    case Delete(e) => Lowered(DeleteCode(ExprCode(env, e), c.deletes), c.(deletes := c.deletes + 1))
  }

  function StmtsCode(env: Env, c: Counters, ss: seq<Stmt>): Lowered
    decreases ss
  {
    if |ss| == 0 then Lowered([], c)
    else
      var r := StmtCode(env, c, ss[0]);
      var rest := StmtsCode(env, r.next, ss[1..]);
      Lowered(r.code + rest.code, rest.next)
  }

  // ---------------------------------------------------------------------
  // Stack balance of statement code
  // ---------------------------------------------------------------------

  lemma AssignDelta(env: Env, lv: Lvalue, e: Expr)
    ensures Delta(AssignCode(env, lv, e)) == 0
  {
    var target := Derefs.Unwrap(lv);
    ExprDelta(env, e);
    if target.LId? {
      var last := if target.name in env.regs then [Add(env.regs[target.name], 0, 3)]
                  else [Sw(3, SlotNum(env, target.name), 29)];
      QuietDelta(last);
      DeltaAppend(ExprCode(env, e), last);
    } else {
      FactorDelta(env, target.target);
      var o := LoadOperands(ExprCode(env, e), FactorCode(env, target.target),
                            ResolveExpr(env, e), ResolveFactor(env, target.target));
      OperandsDelta(ExprCode(env, e), FactorCode(env, target.target),
                    ResolveExpr(env, e), ResolveFactor(env, target.target));
      QuietDelta([Sw(o.left, Num(0), o.right)]);
      DeltaAppend(o.code, [Sw(o.left, Num(0), o.right)]);
    }
  }

  lemma IfDelta(tc: seq<Asm>, n: nat, a: seq<Asm>, b: seq<Asm>)
    requires Delta(tc) == 0 && Delta(a) == 0 && Delta(b) == 0
    ensures Delta(IfCode(tc, n, a, b)) == 0
  {
    var j1 := [Beq(3, 0, Numbered(ElseLabel, n))];
    var j2 := [Beq(0, 0, Numbered(EndIfLabel, n)), Define(Numbered(ElseLabel, n))];
    var j3 := [Define(Numbered(EndIfLabel, n))];
    QuietDelta(j1);
    QuietDelta(j2);
    QuietDelta(j3);
    DeltaAppend(tc, j1);
    DeltaAppend(tc + j1, a);
    DeltaAppend(tc + j1 + a, j2);
    DeltaAppend(tc + j1 + a + j2, b);
    DeltaAppend(tc + j1 + a + j2 + b, j3);
  }

  lemma WhileDelta(tc: seq<Asm>, n: nat, body: seq<Asm>)
    requires Delta(tc) == 0 && Delta(body) == 0
    ensures Delta(WhileCode(tc, n, body)) == 0
  {
    var j1 := [Define(Numbered(LoopLabel, n))];
    var j2 := [Beq(3, 0, Numbered(EndWhileLabel, n))];
    var j3 := [Beq(0, 0, Numbered(LoopLabel, n)), Define(Numbered(EndWhileLabel, n))];
    QuietDelta(j1);
    QuietDelta(j2);
    QuietDelta(j3);
    DeltaAppend(j1, tc);
    DeltaAppend(j1 + tc, j2);
    DeltaAppend(j1 + tc + j2, body);
    DeltaAppend(j1 + tc + j2 + body, j3);
  }

  lemma PrintlnDelta(ec: seq<Asm>)
    requires Delta(ec) == 0
    ensures Delta(PrintlnCode(ec)) == 0
  {
    PushPopDelta(1);
    ExternDelta("print");
    QuietDelta([Add(1, 3, 0)]);
    DeltaAppend(Push(1), ec);
    DeltaAppend(Push(1) + ec, [Add(1, 3, 0)]);
    DeltaAppend(Push(1) + ec + [Add(1, 3, 0)], CallExtern("print"));
    DeltaAppend(Push(1) + ec + [Add(1, 3, 0)] + CallExtern("print"), Pop(1));
  }

  lemma DeleteDelta(ec: seq<Asm>, k: nat)
    requires Delta(ec) == 0
    ensures Delta(DeleteCode(ec, k)) == 0
  {
    var j1 := [Beq(3, 11, Numbered(SkipDeleteLabel, k)), Add(1, 3, 0)];
    var j2 := [Define(Numbered(SkipDeleteLabel, k))];
    PushPopDelta(1);
    ExternDelta("delete");
    QuietDelta(j1);
    QuietDelta(j2);
    DeltaAppend(ec, Push(1));
    DeltaAppend(ec + Push(1), j1);
    DeltaAppend(ec + Push(1) + j1, CallExtern("delete"));
    DeltaAppend(ec + Push(1) + j1 + CallExtern("delete"), Pop(1));
    DeltaAppend(ec + Push(1) + j1 + CallExtern("delete") + Pop(1), j2);
  }

  /** Every statement's code pops exactly what it pushes. */
  lemma {:induction false} StmtDelta(env: Env, c: Counters, s: Stmt)
    ensures Delta(StmtCode(env, c, s).code) == 0
    decreases s, 1
  {
    match s
    case Assign(lv, e) => AssignDelta(env, lv, e);
    case If(t, a, b) => IfStmtDelta(env, c, t, a, b);
    case While(t, body) => WhileStmtDelta(env, c, t, body);
    case Println(e) =>
      ExprDelta(env, e);
      PrintlnDelta(ExprCode(env, e));
    case Delete(e) =>
      ExprDelta(env, e);
      DeleteDelta(ExprCode(env, e), c.deletes);
  }

  lemma {:induction false} IfStmtDelta(env: Env, c: Counters, t: Test, a: seq<Stmt>, b: seq<Stmt>)
    ensures Delta(StmtCode(env, c, If(t, a, b)).code) == 0
    decreases If(t, a, b), 0
  {
    var ra := StmtsCode(env, c.(labels := c.labels + 1), a);
    var rb := StmtsCode(env, ra.next, b);
    IfUnfold(env, c, t, a, b);
    StmtsDelta(env, c.(labels := c.labels + 1), a);
    StmtsDelta(env, ra.next, b);
    TestDelta(env, t);
    IfDelta(TestCode(env, t), c.labels, ra.code, rb.code);
  }

  /** One step of lowering an if statement. */
  lemma IfUnfold(env: Env, c: Counters, t: Test, a: seq<Stmt>, b: seq<Stmt>)
    ensures var ra := StmtsCode(env, c.(labels := c.labels + 1), a);
      var rb := StmtsCode(env, ra.next, b);
      StmtCode(env, c, If(t, a, b)) == Lowered(IfCode(TestCode(env, t), c.labels, ra.code, rb.code), rb.next)
  {
  }

  /** One step of lowering a while statement. */
  lemma WhileUnfold(env: Env, c: Counters, t: Test, body: seq<Stmt>)
    ensures var rb := StmtsCode(env, c.(labels := c.labels + 1), body);
      StmtCode(env, c, While(t, body)) == Lowered(WhileCode(TestCode(env, t), c.labels, rb.code), rb.next)
  {
  }

  lemma {:induction false} WhileStmtDelta(env: Env, c: Counters, t: Test, body: seq<Stmt>)
    ensures Delta(StmtCode(env, c, While(t, body)).code) == 0
    decreases While(t, body), 0
  {
    var rb := StmtsCode(env, c.(labels := c.labels + 1), body);
    WhileUnfold(env, c, t, body);
    StmtsDelta(env, c.(labels := c.labels + 1), body);
    TestDelta(env, t);
    WhileDelta(TestCode(env, t), c.labels, rb.code);
  }

  lemma {:induction false} StmtsDelta(env: Env, c: Counters, ss: seq<Stmt>)
    ensures Delta(StmtsCode(env, c, ss).code) == 0
    decreases ss
  {
    if |ss| > 0 {
      var r := StmtCode(env, c, ss[0]);
      StmtDelta(env, c, ss[0]);
      StmtsDelta(env, r.next, ss[1..]);
      DeltaAppend(r.code, StmtsCode(env, r.next, ss[1..]).code);
    }
  }

  // ---------------------------------------------------------------------
  // Labels
  // ---------------------------------------------------------------------

  /** The labels the code defines, in order. */
  function Defined(code: seq<Asm>): seq<Label>
    decreases |code|
  {
    if |code| == 0 then []
    else (if code[0].Define? then [code[0].defines] else []) + Defined(code[1..])
  }

  /** The labels the code branches to. */
  function Targets(code: seq<Asm>): set<Label>
    decreases |code|
  {
    if |code| == 0 then {}
    else (if code[0].Beq? then {code[0].target} else {}) + Targets(code[1..])
  }

  lemma LabelsAppend(a: seq<Asm>, b: seq<Asm>)
    ensures Defined(a + b) == Defined(a) + Defined(b)
    ensures Targets(a + b) == Targets(a) + Targets(b)
  {
    DefinedAppend(a, b);
    TargetsAppend(a, b);
  }

  lemma {:induction false} DefinedAppend(a: seq<Asm>, b: seq<Asm>)
    ensures Defined(a + b) == Defined(a) + Defined(b)
    decreases |a|
  {
    if |a| == 0 {
      assert a + b == b;
    } else {
      DefinedAppend(a[1..], b);
      assert (a + b)[0] == a[0];
      assert (a + b)[1..] == a[1..] + b;
    }
  }

  lemma {:induction false} TargetsAppend(a: seq<Asm>, b: seq<Asm>)
    ensures Targets(a + b) == Targets(a) + Targets(b)
    decreases |a|
  {
    if |a| == 0 {
      assert a + b == b;
    } else {
      TargetsAppend(a[1..], b);
      assert (a + b)[0] == a[0];
      assert (a + b)[1..] == a[1..] + b;
    }
  }

  /** Code without labels or branches, as every expression's is. */
  predicate Straight(code: seq<Asm>) {
    forall i :: 0 <= i < |code| ==> !code[i].Define? && !code[i].Beq?
  }

  lemma {:induction false} StraightLabels(code: seq<Asm>)
    requires Straight(code)
    ensures Defined(code) == [] && Targets(code) == {}
    decreases |code|
  {
    if |code| > 0 {
      StraightLabels(code[1..]);
    }
  }

  lemma OperandsStraight(lc: seq<Asm>, rc: seq<Asm>, lr: Option<Reg>, rr: Option<Reg>)
    requires Straight(lc) && Straight(rc)
    ensures Straight(LoadOperands(lc, rc, lr, rr).code)
  {
  }

  lemma StraightAppend(a: seq<Asm>, b: seq<Asm>)
    requires Straight(a) && Straight(b)
    ensures Straight(a + b)
  {
  }

  lemma SumStraight(op: AddOp, lt: Ty, rt: Ty, lc: seq<Asm>, tc: seq<Asm>, lr: Option<Reg>, tr: Option<Reg>)
    requires Straight(lc) && Straight(tc)
    ensures Straight(SumCode(op, lt, rt, lc, tc, lr, tr))
  {
    if lt == Int && rt == Int {
      var o := LoadOperands(lc, tc, lr, tr);
      OperandsStraight(lc, tc, lr, tr);
      StraightAppend(o.code, [SumLine(op, 3, o.left, o.right)]);
    } else if lt == IntStar && rt == Int {
      PointerPlusIntStraight(op, lc, tc, lr, tr);
    } else if op == Plus && lt == Int && rt == IntStar {
      IntPlusPointerStraight(lc, tc, lr, tr);
    } else if op == Minus && lt == IntStar && rt == IntStar {
      PointerDifferenceStraight(lc, tc, lr, tr);
    }
  }

  lemma PointerPlusIntStraight(op: AddOp, lc: seq<Asm>, tc: seq<Asm>, lr: Option<Reg>, tr: Option<Reg>)
    requires Straight(lc) && Straight(tc)
    ensures Straight(PointerPlusIntCode(op, lc, tc, lr, tr))
  {
    if lr.None? && tr.None? {
      Straight5(lc, Push(3), tc, [Mult(3, 4), Mflo(3)] + Pop(5), [SumLine(op, 3, 5, 3)]);
    } else if tr.None? {
      StraightAppend(tc, [Mult(3, 4), Mflo(3), SumLine(op, 3, lr.value, 3)]);
    } else if lr.None? {
      StraightAppend([Mult(tr.value, 4), Mflo(5)], lc);
      StraightAppend([Mult(tr.value, 4), Mflo(5)] + lc, [SumLine(op, 3, 5, 3)]);
    }
  }

  lemma IntPlusPointerStraight(lc: seq<Asm>, tc: seq<Asm>, lr: Option<Reg>, tr: Option<Reg>)
    requires Straight(lc) && Straight(tc)
    ensures Straight(IntPlusPointerCode(lc, tc, lr, tr))
  {
    if lr.None? && tr.None? {
      Straight5(tc, Push(3), lc, [Mult(3, 4), Mflo(3)] + Pop(5), [Add(3, 5, 3)]);
    } else if tr.None? {
      StraightAppend([Mult(lr.value, 4), Mflo(5)], tc);
      StraightAppend([Mult(lr.value, 4), Mflo(5)] + tc, [Add(3, 5, 3)]);
    } else if lr.None? {
      StraightAppend(lc, [Mult(3, 4), Mflo(3), Add(3, tr.value, 3)]);
    }
  }

  lemma PointerDifferenceStraight(lc: seq<Asm>, tc: seq<Asm>, lr: Option<Reg>, tr: Option<Reg>)
    requires Straight(lc) && Straight(tc)
    ensures Straight(PointerDifferenceCode(lc, tc, lr, tr))
  {
    if lr.None? && tr.None? {
      Straight5(lc, Push(3), tc, Pop(5), [Sub(3, 5, 3), Div(3, 4), Mflo(3)]);
    } else if tr.None? {
      StraightAppend(tc, [Sub(3, lr.value, 3), Div(3, 4), Mflo(3)]);
    } else if lr.None? {
      StraightAppend(lc, [Sub(3, 3, tr.value), Div(3, 4), Mflo(3)]);
    }
  }

  lemma Straight5(a: seq<Asm>, b: seq<Asm>, c: seq<Asm>, d: seq<Asm>, e: seq<Asm>)
    requires Straight(a) && Straight(b) && Straight(c) && Straight(d) && Straight(e)
    ensures Straight(a + b + c + d + e)
  {
    StraightAppend(a, b);
    StraightAppend(a + b, c);
    StraightAppend(a + b + c, d);
    StraightAppend(a + b + c + d, e);
  }

  lemma {:induction false} ExprStraight(env: Env, e: Expr)
    ensures Straight(ExprCode(env, e))
    decreases e
  {
    match e
    case ETerm(t, _) => TermStraight(env, t);
    case EBin(op, l, t, _) =>
      ExprStraight(env, l);
      TermStraight(env, t);
      SumStraight(op, l.ty, t.ty, ExprCode(env, l), TermCode(env, t), ResolveExpr(env, l), ResolveTerm(env, t));
  }

  lemma {:induction false} TermStraight(env: Env, t: Term)
    ensures Straight(TermCode(env, t))
    decreases t
  {
    match t
    case TFactor(f, _) => FactorStraight(env, f);
    case TBin(op, l, f, _) =>
      TermStraight(env, l);
      FactorStraight(env, f);
      OperandsStraight(TermCode(env, l), FactorCode(env, f), ResolveTerm(env, l), ResolveFactor(env, f));
  }

  lemma {:induction false} FactorStraight(env: Env, f: Factor)
    ensures Straight(FactorCode(env, f))
    decreases f
  {
    match f
    case FId(_, _) =>
    case FNum(_, _) =>
    case FNull(_) =>
    case FParen(e, _) => ExprStraight(env, e);
    case FAddr(lv, _) => AddrStraight(env, lv);
    case FDeref(g, _) =>
      FactorStraight(env, g);
      StraightAppend(FactorCode(env, g), [Lw(3, Num(0), 3)]);
    case FNew(e, _) =>
      ExprStraight(env, e);
      NewStraight(ExprCode(env, e));
    case FCall(p, args, _) =>
      ArgsStraight(env, args);
      PopsStraight(31, |args|);
      CallStraight(ArgsCode(env, args), p, |args|);
  }

  lemma NewStraight(ec: seq<Asm>)
    requires Straight(ec)
    ensures Straight(ec + Push(1) + [Add(1, 3, 0)] + CallExtern("new") + [Bne(3, 0, 1), Add(3, 11, 0)] + Pop(1))
  {
    Straight5(ec, Push(1), [Add(1, 3, 0)], CallExtern("new"), [Bne(3, 0, 1), Add(3, 11, 0)]);
    StraightAppend(ec + Push(1) + [Add(1, 3, 0)] + CallExtern("new") + [Bne(3, 0, 1), Add(3, 11, 0)], Pop(1));
  }

  lemma CallStraight(ac: seq<Asm>, p: string, n: nat)
    requires Straight(ac) && Straight(Pops(31, n))
    ensures Straight(Push(29) + Push(31) + ac + [Lis(5), WordLabel(ProcLabel(p)), Jalr(5)]
                     + Pops(31, n) + Pop(31) + Pop(29))
  {
    var mid := [Lis(5), WordLabel(ProcLabel(p)), Jalr(5)];
    Straight5(Push(29), Push(31), ac, mid, Pops(31, n));
    StraightAppend(Push(29) + Push(31) + ac + mid + Pops(31, n), Pop(31));
    StraightAppend(Push(29) + Push(31) + ac + mid + Pops(31, n) + Pop(31), Pop(29));
  }

  lemma {:induction false} PopsStraight(r: Reg, n: nat)
    ensures Straight(Pops(r, n))
    decreases n
  {
    if n > 0 {
      PopsStraight(r, n - 1);
    }
  }

  lemma {:induction false} AddrStraight(env: Env, lv: Lvalue)
    ensures Straight(AddrCode(env, lv))
    decreases lv
  {
    match lv
    case LId(_, _) =>
    case LParen(inner, _) => AddrStraight(env, inner);
    case LDeref(g, _) => FactorStraight(env, g);
  }

  lemma {:induction false} ArgsStraight(env: Env, args: seq<Expr>)
    ensures Straight(ArgsCode(env, args))
    decreases args
  {
    if |args| > 0 {
      ExprStraight(env, args[0]);
      ArgsStraight(env, args[1..]);
    }
  }

  lemma TestStraight(env: Env, t: Test)
    ensures Straight(TestCode(env, t))
  {
    ExprStraight(env, t.lhs);
    ExprStraight(env, t.rhs);
    OperandsStraight(ExprCode(env, t.lhs), ExprCode(env, t.rhs), ResolveExpr(env, t.lhs), ResolveExpr(env, t.rhs));
  }

  lemma AssignStraight(env: Env, lv: Lvalue, e: Expr)
    ensures Straight(AssignCode(env, lv, e))
  {
    var target := Derefs.Unwrap(lv);
    ExprStraight(env, e);
    if !target.LId? {
      FactorStraight(env, target.target);
      OperandsStraight(ExprCode(env, e), FactorCode(env, target.target),
                       ResolveExpr(env, e), ResolveFactor(env, target.target));
    }
  }

  predicate Distinct<T(==)>(s: seq<T>) {
    forall i, j :: 0 <= i < j < |s| ==> s[i] != s[j]
  }

  lemma DistinctConcat<T>(a: seq<T>, b: seq<T>)
    requires Distinct(a) && Distinct(b)
    requires forall x :: x in a ==> x !in b
    ensures Distinct(a + b)
  {
    forall i, j | 0 <= i < j < |a + b|
      ensures (a + b)[i] != (a + b)[j]
    {
      if i < |a| && j >= |a| {
        assert (a + b)[i] in a && (a + b)[j] in b;
      }
    }
  }

  /** A numbered label drawn from the counters at or after c and before d. */
  predicate Between(l: Label, c: Counters, d: Counters) {
    l.Numbered? &&
    if l.kind == SkipDeleteLabel then c.deletes <= l.n < d.deletes else c.labels <= l.n < d.labels
  }

  /** Code lowered with the counters running from c to d: it defines each
      label once, only labels numbered in that range, and every label it
      branches to. */
  predicate WellLabelled(code: seq<Asm>, c: Counters, d: Counters) {
    c.labels <= d.labels && c.deletes <= d.deletes
    && Distinct(Defined(code))
    && (forall l :: l in Defined(code) ==> Between(l, c, d))
    && (forall l :: l in Targets(code) ==> l in Defined(code))
  }

  lemma Compose(a: seq<Asm>, b: seq<Asm>, c: Counters, d: Counters, e: Counters)
    requires WellLabelled(a, c, d) && WellLabelled(b, d, e)
    ensures WellLabelled(a + b, c, e)
  {
    LabelsAppend(a, b);
    DistinctConcat(Defined(a), Defined(b));
  }

  lemma StraightLabelled(code: seq<Asm>, c: Counters)
    requires Straight(code)
    ensures WellLabelled(code, c, c)
  {
    StraightLabels(code);
  }

  lemma LineLabels(x: Asm)
    ensures Defined([x]) == (if x.Define? then [x.defines] else [])
    ensures Targets([x]) == (if x.Beq? then {x.target} else {})
  {
    assert [x][1..] == [];
  }

  lemma PairLabels(x: Asm, y: Asm)
    ensures Defined([x, y]) == Defined([x]) + Defined([y])
    ensures Targets([x, y]) == Targets([x]) + Targets([y])
  {
    assert [x, y] == [x] + [y];
    LabelsAppend([x], [y]);
  }

  lemma IfShape(tc: seq<Asm>, n: nat, a: seq<Asm>, b: seq<Asm>)
    requires Straight(tc)
    ensures Defined(IfCode(tc, n, a, b))
            == (Defined(a) + [Numbered(ElseLabel, n)]) + (Defined(b) + [Numbered(EndIfLabel, n)])
    ensures Targets(IfCode(tc, n, a, b))
            == Targets(a) + Targets(b) + {Numbered(ElseLabel, n), Numbered(EndIfLabel, n)}
  {
    StraightLabels(tc);
    var E := Numbered(ElseLabel, n);
    var X := Numbered(EndIfLabel, n);
    BranchShape(tc, E, X, a, b);
    assert Defined(a) + [E] + Defined(b) + [X] == (Defined(a) + [E]) + (Defined(b) + [X]);
  }

  /** The if layout over any two labels. */
  lemma BranchShape(tc: seq<Asm>, E: Label, X: Label, a: seq<Asm>, b: seq<Asm>)
    requires Defined(tc) == [] && Targets(tc) == {}
    ensures var code := tc + [Beq(3, 0, E)] + a + [Beq(0, 0, X), Define(E)] + b + [Define(X)];
      && Defined(code) == Defined(a) + [E] + Defined(b) + [X]
      && Targets(code) == {E} + Targets(a) + {X} + Targets(b)
  {
    var j1 := [Beq(3, 0, E)];
    var j2 := [Beq(0, 0, X), Define(E)];
    var j3 := [Define(X)];
    LineLabels(Beq(3, 0, E));
    LineLabels(Beq(0, 0, X));
    LineLabels(Define(E));
    LineLabels(Define(X));
    PairLabels(Beq(0, 0, X), Define(E));
    LabelsChain(tc, j1, a, j2, b, j3);
    TidyDefined(Defined(a), E, Defined(b), X);
    TidyTargets(Targets(a), E, Targets(b), X);
  }

  lemma TidyDefined(da: seq<Label>, E: Label, db: seq<Label>, X: Label)
    ensures [] + [] + da + ([] + [E]) + db + [X] == da + [E] + db + [X]
  {
  }

  lemma TidyTargets(ta: set<Label>, E: Label, tb: set<Label>, X: Label)
    ensures {} + {E} + ta + ({X} + {}) + tb + {} == {E} + ta + {X} + tb
  {
  }

  lemma TidyLoop(db: seq<Label>, L: Label, X: Label, tb: set<Label>)
    ensures [L] + [] + [] + db + ([] + [X]) + [] == [L] + db + [X]
    ensures {} + {} + {X} + tb + ({L} + {}) + {} == {X} + tb + {L}
  {
  }

  /** Labels of six pieces laid end to end. */
  lemma LabelsChain(p1: seq<Asm>, p2: seq<Asm>, p3: seq<Asm>, p4: seq<Asm>, p5: seq<Asm>, p6: seq<Asm>)
    ensures Defined(p1 + p2 + p3 + p4 + p5 + p6)
            == Defined(p1) + Defined(p2) + Defined(p3) + Defined(p4) + Defined(p5) + Defined(p6)
    ensures Targets(p1 + p2 + p3 + p4 + p5 + p6)
            == Targets(p1) + Targets(p2) + Targets(p3) + Targets(p4) + Targets(p5) + Targets(p6)
  {
    LabelsAppend(p1, p2);
    LabelsAppend(p1 + p2, p3);
    LabelsAppend(p1 + p2 + p3, p4);
    LabelsAppend(p1 + p2 + p3 + p4, p5);
    LabelsAppend(p1 + p2 + p3 + p4 + p5, p6);
  }

  lemma IfLabels(tc: seq<Asm>, n: nat, k: nat, a: seq<Asm>, b: seq<Asm>, d: Counters, e: Counters)
    requires Straight(tc)
    requires WellLabelled(a, Counters(n + 1, k), d) && WellLabelled(b, d, e)
    ensures WellLabelled(IfCode(tc, n, a, b), Counters(n, k), e)
  {
    IfShape(tc, n, a, b);
    var da := Defined(a);
    var db := Defined(b);
    DistinctConcat(da, [Numbered(ElseLabel, n)]);
    DistinctConcat(db, [Numbered(EndIfLabel, n)]);
    DistinctConcat(da + [Numbered(ElseLabel, n)], db + [Numbered(EndIfLabel, n)]);
  }

  lemma WhileShape(tc: seq<Asm>, n: nat, body: seq<Asm>)
    requires Straight(tc)
    ensures Defined(WhileCode(tc, n, body))
            == [Numbered(LoopLabel, n)] + (Defined(body) + [Numbered(EndWhileLabel, n)])
    ensures Targets(WhileCode(tc, n, body))
            == Targets(body) + {Numbered(LoopLabel, n), Numbered(EndWhileLabel, n)}
  {
    StraightLabels(tc);
    var L := Numbered(LoopLabel, n);
    var X := Numbered(EndWhileLabel, n);
    LoopShape(tc, L, X, body);
    assert [L] + Defined(body) + [X] == [L] + (Defined(body) + [X]);
  }

  /** The while layout over any two labels. */
  lemma LoopShape(tc: seq<Asm>, L: Label, X: Label, body: seq<Asm>)
    requires Defined(tc) == [] && Targets(tc) == {}
    ensures var code := [Define(L)] + tc + [Beq(3, 0, X)] + body + [Beq(0, 0, L), Define(X)];
      && Defined(code) == [L] + Defined(body) + [X]
      && Targets(code) == {X} + Targets(body) + {L}
  {
    var j1 := [Define(L)];
    var j2 := [Beq(3, 0, X)];
    var j3 := [Beq(0, 0, L), Define(X)];
    LineLabels(Define(L));
    LineLabels(Beq(3, 0, X));
    LineLabels(Beq(0, 0, L));
    LineLabels(Define(X));
    PairLabels(Beq(0, 0, L), Define(X));
    LabelsChain(j1, tc, j2, body, j3, []);
    assert j1 + tc + j2 + body + j3 + [] == j1 + tc + j2 + body + j3;
    assert Defined([]) == [] && Targets([]) == {};
    TidyLoop(Defined(body), L, X, Targets(body));
  }

  lemma WhileLabels(tc: seq<Asm>, n: nat, k: nat, body: seq<Asm>, e: Counters)
    requires Straight(tc)
    requires WellLabelled(body, Counters(n + 1, k), e)
    ensures WellLabelled(WhileCode(tc, n, body), Counters(n, k), e)
  {
    WhileShape(tc, n, body);
    var db := Defined(body);
    DistinctConcat(db, [Numbered(EndWhileLabel, n)]);
    DistinctConcat([Numbered(LoopLabel, n)], db + [Numbered(EndWhileLabel, n)]);
  }

  /** A branch over straight code to a label defined at the end. */
  lemma GuardShape(pre: seq<Asm>, mid: seq<Asm>, S: Label)
    requires Defined(pre) == [] && Targets(pre) == {} && Defined(mid) == [] && Targets(mid) == {}
    ensures var code := pre + [Beq(3, 11, S), Add(1, 3, 0)] + mid + [Define(S)];
      Defined(code) == [S] && Targets(code) == {S}
  {
    var j1 := [Beq(3, 11, S), Add(1, 3, 0)];
    var j2 := [Define(S)];
    LineLabels(Beq(3, 11, S));
    LineLabels(Add(1, 3, 0));
    LineLabels(Define(S));
    PairLabels(Beq(3, 11, S), Add(1, 3, 0));
    LabelsAppend(pre, j1);
    LabelsAppend(pre + j1, mid);
    LabelsAppend(pre + j1 + mid, j2);
  }

  lemma DeleteShape(ec: seq<Asm>, k: nat)
    requires Straight(ec)
    ensures Defined(DeleteCode(ec, k)) == [Numbered(SkipDeleteLabel, k)]
    ensures Targets(DeleteCode(ec, k)) == {Numbered(SkipDeleteLabel, k)}
  {
    var pre := ec + Push(1);
    var mid := CallExtern("delete") + Pop(1);
    StraightAppend(ec, Push(1));
    StraightAppend(CallExtern("delete"), Pop(1));
    StraightLabels(pre);
    StraightLabels(mid);
    GuardShape(pre, mid, Numbered(SkipDeleteLabel, k));
    assert DeleteCode(ec, k) == pre + [Beq(3, 11, Numbered(SkipDeleteLabel, k)), Add(1, 3, 0)] + mid
                                + [Define(Numbered(SkipDeleteLabel, k))];
  }

  lemma DeleteLabels(ec: seq<Asm>, l: nat, k: nat)
    requires Straight(ec)
    ensures WellLabelled(DeleteCode(ec, k), Counters(l, k), Counters(l, k + 1))
  {
    DeleteShape(ec, k);
  }

  /** Statement code defines every label it branches to, each once, all
      numbered from the counters it was lowered with. */
  lemma {:induction false} StmtLabels(env: Env, c: Counters, s: Stmt)
    ensures WellLabelled(StmtCode(env, c, s).code, c, StmtCode(env, c, s).next)
    decreases s, 1
  {
    match s
    case Assign(lv, e) =>
      AssignStraight(env, lv, e);
      StraightLabelled(AssignCode(env, lv, e), c);
    case If(t, a, b) => IfStmtLabels(env, c, t, a, b);
    case While(t, body) => WhileStmtLabels(env, c, t, body);
    case Println(e) =>
      ExprStraight(env, e);
      StraightLabelled(PrintlnCode(ExprCode(env, e)), c);
    case Delete(e) =>
      ExprStraight(env, e);
      DeleteLabels(ExprCode(env, e), c.labels, c.deletes);
  }

  lemma {:induction false} IfStmtLabels(env: Env, c: Counters, t: Test, a: seq<Stmt>, b: seq<Stmt>)
    ensures WellLabelled(StmtCode(env, c, If(t, a, b)).code, c, StmtCode(env, c, If(t, a, b)).next)
    decreases If(t, a, b), 0
  {
    var c1 := c.(labels := c.labels + 1);
    var ra := StmtsCode(env, c1, a);
    var rb := StmtsCode(env, ra.next, b);
    IfUnfold(env, c, t, a, b);
    StmtsLabels(env, c1, a);
    StmtsLabels(env, ra.next, b);
    TestStraight(env, t);
    IfLabels(TestCode(env, t), c.labels, c.deletes, ra.code, rb.code, ra.next, rb.next);
  }

  lemma {:induction false} WhileStmtLabels(env: Env, c: Counters, t: Test, body: seq<Stmt>)
    ensures WellLabelled(StmtCode(env, c, While(t, body)).code, c, StmtCode(env, c, While(t, body)).next)
    decreases While(t, body), 0
  {
    var c1 := c.(labels := c.labels + 1);
    var rb := StmtsCode(env, c1, body);
    WhileUnfold(env, c, t, body);
    StmtsLabels(env, c1, body);
    TestStraight(env, t);
    WhileLabels(TestCode(env, t), c.labels, c.deletes, rb.code, rb.next);
  }

  lemma {:induction false} StmtsLabels(env: Env, c: Counters, ss: seq<Stmt>)
    ensures WellLabelled(StmtsCode(env, c, ss).code, c, StmtsCode(env, c, ss).next)
    decreases ss
  {
    if |ss| == 0 {
      assert Defined([]) == [] && Targets([]) == {};
    } else {
      var r := StmtCode(env, c, ss[0]);
      StmtLabels(env, c, ss[0]);
      StmtsLabels(env, r.next, ss[1..]);
      Compose(r.code, StmtsCode(env, r.next, ss[1..]).code, c, r.next, StmtsCode(env, r.next, ss[1..]).next);
    }
  }

  // ---------------------------------------------------------------------
  // Allocation: registers for locals while they last, frame slots else
  // ---------------------------------------------------------------------

  /** regTable, symbol_table, latestOffset and freeRegisters. */
  datatype Alloc = Alloc(regs: map<string, Reg>, slots: map<string, Slot>, next: int, free: seq<Reg>)

  /** The registers handed out to locals; declarations take them from the
      back, $8 first. */
  const FreePool: seq<Reg> := [28, 27, 26, 25, 24, 23, 22, 21, 20, 19, 18, 17, 16, 15, 14, 13, 9, 8]

  function EnvOf(a: Alloc): Env { Env(a.regs, a.slots) }

  /** dcl -> type ID: a slot at latestOffset, which then moves down a word. */
  function Declare(a: Alloc, d: Dcl): Alloc {
    a.(slots := a.slots[d.name := Slot(d.ty, a.next)], next := a.next - 4)
  }

  function InitValue(i: Init): int {
    match i
    case NumInit(v) => v
    case NullInit => 1
  }

  datatype Allocated = Allocated(alloc: Alloc, code: seq<Asm>)

  /** dcls -> dcls dcl BECOMES NUM|NULL SEMI, after the earlier dcls: a
      variable no `&` names takes the last free register and is loaded with
      its value; otherwise (or when the pool is empty) it takes a slot and
      its value is pushed there. */
  function InitDclCode(a: Alloc, derefs: seq<string>, d: InitDcl): Allocated {
    var x := d.dcl.name;
    if |a.free| != 0 && x !in derefs then
      var r := a.free[|a.free| - 1];
      Allocated(a.(regs := a.regs[x := r], free := a.free[..|a.free| - 1]), [Lis(r), Word(Num(InitValue(d.init)))])
    else
      Allocated(Declare(a, d.dcl), [Lis(3), Word(Num(InitValue(d.init)))] + Push(3))
  }

  function DclsCode(a: Alloc, derefs: seq<string>, ds: seq<InitDcl>): Allocated
    decreases |ds|
  {
    if |ds| == 0 then Allocated(a, [])
    else
      var r := DclsCode(a, derefs, ds[..|ds| - 1]);
      var last := InitDclCode(r.alloc, derefs, ds[|ds| - 1]);
      Allocated(last.alloc, r.code + last.code)
  }

  /** params -> paramlist: a slot for each parameter, left to right. */
  function DeclareParams(a: Alloc, ps: seq<Dcl>): Alloc
    decreases |ps|
  {
    if |ps| == 0 then a else DeclareParams(Declare(a, ps[0]), ps[1..])
  }

  /** incrementSymbolTable: every offset moved by inc. */
  function Shift(slots: map<string, Slot>, inc: int): map<string, Slot> {
    map x | x in slots :: slots[x].(offset := slots[x].offset + inc)
  }

  /** What entering a procedure or wain does to the register table: the
      code keeps every binding made so far (clearRegTable is not called);
      DropBindings forgets the names while the registers stay taken. */
  datatype EntryRule = KeepBindings | DropBindings

  /** symbol_table cleared and latestOffset reset. */
  function Enter(rule: EntryRule, a: Alloc): Alloc {
    Alloc(if rule == DropBindings then map[] else a.regs, map[], 0, a.free)
  }

  datatype Gen = Gen(alloc: Alloc, counters: Counters)

  datatype Compiled = Compiled(gen: Gen, code: seq<Asm>)

  function SaveScratch(): seq<Asm> { Push(5) + Push(6) + Push(7) }

  function RestoreScratch(): seq<Asm> { Pop(7) + Pop(6) + Pop(5) }

  /** procedure: the label, the frame pointer, slots for the parameters,
      the locals, $5-$7 saved, every offset moved up by 4 per parameter
      (the arguments sit above the frame), the body and return value, the
      scratch registers restored, the stack reset to the frame. */
  function ProcedureCode(rule: EntryRule, derefs: seq<string>, g: Gen, p: Procedure): Compiled {
    var a1 := DeclareParams(Enter(rule, g.alloc), p.params);
    var r := DclsCode(a1, derefs, p.dcls);
    var a2 := r.alloc.(slots := Shift(r.alloc.slots, 4 * |p.params|));
    var env := EnvOf(a2);
    var body := StmtsCode(env, g.counters, p.body);
    Compiled(Gen(a2, body.next),
             [Define(ProcLabel(p.name)), Sub(29, 30, 4)] + r.code + SaveScratch() + body.code
             + ExprCode(env, p.ret) + RestoreScratch() + [Add(30, 29, 4), Jr(31)])
  }

  function ProceduresCode(rule: EntryRule, derefs: seq<string>, g: Gen, ps: seq<Procedure>): Compiled
    decreases |ps|
  {
    if |ps| == 0 then Compiled(g, [])
    else
      var first := ProcedureCode(rule, derefs, g, ps[0]);
      var rest := ProceduresCode(rule, derefs, first.gen, ps[1..]);
      Compiled(rest.gen, first.code + rest.code)
  }

  /** A parameter of wain stays in the register it arrives in ($1 or $2)
      unless some `&` names it; then it takes a slot (the prologue has
      pushed it there). */
  function BindWainParam(a: Alloc, derefs: seq<string>, d: Dcl, r: Reg): Alloc {
    if d.name !in derefs then a.(regs := a.regs[d.name := r]) else Declare(a, d)
  }

  /** init is called with $2 = 0 when wain's first parameter is an int,
      with $31 and $2 saved around it. */
  function InitHeap(first: Dcl): seq<Asm> {
    Push(31) + Push(2) + (if first.ty == Int then [Add(2, 0, 0)] else [])
    + [Lis(3), WordLabel(Extern("init")), Jalr(3)] + Pop(2) + Pop(31)
  }

  function MainCode(rule: EntryRule, derefs: seq<string>, g: Gen, m: Main): Compiled {
    var a1 := BindWainParam(Enter(rule, g.alloc), derefs, m.first, 1);
    var a2 := BindWainParam(a1, derefs, m.second, 2);
    var r := DclsCode(a2, derefs, m.dcls);
    var env := EnvOf(r.alloc);
    var body := StmtsCode(env, g.counters, m.body);
    Compiled(Gen(r.alloc, body.next),
             [Define(WainLabel)] + InitHeap(m.first) + r.code + body.code + ExprCode(env, m.ret))
  }

  function PushIf(b: bool, r: Reg): seq<Asm> { if b then Push(r) else [] }

  function PopIf(b: bool, r: Reg): seq<Asm> { if b then Pop(r) else [] }

  /** The imports, $4 = 4, the frame pointer, wain's dereferenced
      parameters pushed, $11 = 1, $10 = print, and the jump to wain. */
  function Prologue(derefs: seq<string>, m: Main): seq<Asm> {
    [Import("print"), Import("init"), Import("new"), Import("delete"), Lis(4), Word(Num(4)), Sub(29, 30, 4)]
    + PushIf(m.first.name in derefs, 1) + PushIf(m.second.name in derefs, 2)
    + [Lis(11), Word(Num(1)), Lis(10), WordLabel(Extern("print")), Beq(0, 0, WainLabel)]
  }

  function Epilogue(derefs: seq<string>, m: Main): seq<Asm> {
    PopIf(m.second.name in derefs, 2) + PopIf(m.first.name in derefs, 1) + [Jr(31)]
  }

  /** Allocation when generation starts: nothing bound, the whole pool free,
      both counters at 0. */
  const Initial: Gen := Gen(Alloc(map[], map[], 0, FreePool), Counters(0, 0))

  /** The procedures in order, then wain, between prologue and epilogue. */
  function ProgramCode(rule: EntryRule, derefs: seq<string>, prog: Program): seq<Asm> {
    var procs := ProceduresCode(rule, derefs, Initial, prog.procedures);
    var main := MainCode(rule, derefs, procs.gen, prog.main);
    Prologue(derefs, prog.main) + procs.code + main.code + Epilogue(derefs, prog.main)
  }
}
