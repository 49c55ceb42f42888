/** The labels of a whole generated program: the prologue branches to wain,
    every procedure and wain define their own entry label, and every label
    the statements number is defined exactly once across all procedures,
    because the label and delete counters are never reset between them. */
module Layout {
  import opened Ast
  import opened Codegen
  import TypeCheck

  /** Code whose labels are the entry labels `heads` and numbered labels
      drawn from the counters between c and d, none defined twice, and
      whose every branch target is defined in it. */
  predicate Labelled(code: seq<Asm>, heads: seq<Label>, c: Counters, d: Counters) {
    c.labels <= d.labels && c.deletes <= d.deletes
    && Distinct(Defined(code))
    && (forall l :: l in Defined(code) ==> l in heads || Between(l, c, d))
    && (forall l :: l in Targets(code) ==> l in Defined(code))
  }

  /** Entry labels are never numbered. */
  predicate Entries(heads: seq<Label>) {
    forall l :: l in heads ==> !l.Numbered?
  }

  lemma Join(a: seq<Asm>, h1: seq<Label>, b: seq<Asm>, h2: seq<Label>, c: Counters, d: Counters, e: Counters)
    requires Labelled(a, h1, c, d) && Labelled(b, h2, d, e)
    requires Entries(h1) && Entries(h2)
    requires forall l :: l in h1 ==> l !in h2
    ensures Labelled(a + b, h1 + h2, c, e)
  {
    LabelsAppend(a, b);
    forall l | l in Defined(a)
      ensures l !in Defined(b)
    {
      assert l in h1 ==> !l.Numbered? && l !in h2;
    }
    DistinctConcat(Defined(a), Defined(b));
  }

  lemma EntryLine(l: Label, c: Counters)
    requires !l.Numbered?
    ensures Labelled([Define(l)], [l], c, c)
  {
    LineLabels(Define(l));
  }

  /** Straight code around well-labelled code is well labelled. */
  lemma Around(a: seq<Asm>, b: seq<Asm>, z: seq<Asm>, c: Counters, d: Counters)
    requires Straight(a) && WellLabelled(b, c, d) && Straight(z)
    ensures WellLabelled(a + b + z, c, d)
  {
    StraightLabelled(a, c);
    StraightLabelled(z, d);
    Compose(a, b, c, c, d);
    Compose(a + b, z, c, d, d);
  }

  lemma{:induction false} DclsStraight(a: Alloc, derefs: seq<string>, ds: seq<InitDcl>)
    ensures Straight(DclsCode(a, derefs, ds).code)
    decreases |ds|
  {
    if |ds| > 0 {
      DclsStraight(a, derefs, ds[..|ds| - 1]);
    }
  }

  lemma StackStraight()
    ensures Straight(SaveScratch()) && Straight(RestoreScratch())
  {
  }

  /** The shape of a procedure: its entry label, straight code, the body,
      straight code. */
  lemma ProcedureShape(l: Label, x: Asm, a: seq<Asm>, b: seq<Asm>, body: seq<Asm>,
                       e: seq<Asm>, f: seq<Asm>, z: seq<Asm>, c: Counters, d: Counters)
    requires !l.Numbered? && !x.Define? && !x.Beq?
    requires Straight(a) && Straight(b) && WellLabelled(body, c, d)
    requires Straight(e) && Straight(f) && Straight(z)
    ensures Labelled([Define(l), x] + a + b + body + e + f + z, [l], c, d)
  {
    var pre := [x] + a + b;
    var post := e + f + z;
    assert Straight(pre);
    assert Straight(post);
    Around(pre, body, post, c, d);
    EntryLine(l, c);
    Join([Define(l)], [l], pre + body + post, [], c, c, d);
    assert [Define(l), x] + a + b + body + e + f + z == [Define(l)] + (pre + body + post);
  }

  /** The shape of wain: its entry label, straight code, the body,
      straight code. */
  lemma MainShape(l: Label, a: seq<Asm>, b: seq<Asm>, body: seq<Asm>, e: seq<Asm>, c: Counters, d: Counters)
    requires !l.Numbered? && Straight(a) && Straight(b) && WellLabelled(body, c, d) && Straight(e)
    ensures Labelled([Define(l)] + a + b + body + e, [l], c, d)
  {
    var pre := a + b;
    assert Straight(pre);
    Around(pre, body, e, c, d);
    EntryLine(l, c);
    Join([Define(l)], [l], pre + body + e, [], c, c, d);
    assert [Define(l)] + a + b + body + e == [Define(l)] + (pre + body + e);
  }

  /** A procedure defines its own label first, then only labels numbered
      from the counters it started with. */
  lemma ProcedureLabels(rule: EntryRule, derefs: seq<string>, g: Gen, p: Procedure)
    ensures var r := ProcedureCode(rule, derefs, g, p);
      Labelled(r.code, [ProcLabel(p.name)], g.counters, r.gen.counters)
  {
    var a1 := DeclareParams(Enter(rule, g.alloc), p.params);
    var dc := DclsCode(a1, derefs, p.dcls);
    var a2 := dc.alloc.(slots := Shift(dc.alloc.slots, 4 * |p.params|));
    var env := EnvOf(a2);
    var body := StmtsCode(env, g.counters, p.body);
    DclsStraight(a1, derefs, p.dcls);
    StackStraight();
    ExprStraight(env, p.ret);
    StmtsLabels(env, g.counters, p.body);
    ProcedureShape(ProcLabel(p.name), Sub(29, 30, 4), dc.code, SaveScratch(), body.code,
                   ExprCode(env, p.ret), RestoreScratch(), [Add(30, 29, 4), Jr(31)], g.counters, body.next);
  }

  function Heads(ps: seq<Procedure>): (hs: seq<Label>)
    ensures |hs| == |ps| && forall i :: 0 <= i < |ps| ==> hs[i] == ProcLabel(ps[i].name)
  {
    seq(|ps|, i requires 0 <= i < |ps| => ProcLabel(ps[i].name))
  }

  /** The procedures in order: each entry label once, given distinct
      procedure names, and the numbered labels running on from one
      procedure into the next. */
  lemma {:induction false} ProceduresLabels(rule: EntryRule, derefs: seq<string>, g: Gen, ps: seq<Procedure>)
    requires TypeCheck.Distinct(TypeCheck.ProcNames(ps))
    ensures var r := ProceduresCode(rule, derefs, g, ps);
      Labelled(r.code, Heads(ps), g.counters, r.gen.counters)
    decreases |ps|
  {
    if |ps| == 0 {
      assert Defined([]) == [] && Targets([]) == {};
    } else {
      var first := ProcedureCode(rule, derefs, g, ps[0]);
      var rest := ProceduresCode(rule, derefs, first.gen, ps[1..]);
      HeadsSplit(ps);
      ProcedureLabels(rule, derefs, g, ps[0]);
      ProceduresLabels(rule, derefs, first.gen, ps[1..]);
      Join(first.code, [ProcLabel(ps[0].name)], rest.code, Heads(ps[1..]),
           g.counters, first.gen.counters, rest.gen.counters);
    }
  }

  /** The first procedure's label heads the list and recurs nowhere after it. */
  lemma HeadsSplit(ps: seq<Procedure>)
    requires |ps| > 0 && TypeCheck.Distinct(TypeCheck.ProcNames(ps))
    ensures TypeCheck.Distinct(TypeCheck.ProcNames(ps[1..]))
    ensures ProcLabel(ps[0].name) !in Heads(ps[1..])
    ensures Heads(ps) == [ProcLabel(ps[0].name)] + Heads(ps[1..])
  {
    var names := TypeCheck.ProcNames(ps);
    assert TypeCheck.ProcNames(ps[1..]) == names[1..];
    forall k | 0 <= k < |ps[1..]|
      ensures Heads(ps[1..])[k] != ProcLabel(ps[0].name)
    {
      assert names[0] != names[k + 1];
    }
    assert Heads(ps) == [ProcLabel(ps[0].name)] + Heads(ps[1..]);
  }

  lemma HeapStraight(first: Dcl)
    ensures Straight(InitHeap(first))
  {
  }

  /** wain defines its label first, then numbered labels. */
  lemma MainLabels(rule: EntryRule, derefs: seq<string>, g: Gen, m: Main)
    ensures var r := MainCode(rule, derefs, g, m);
      Labelled(r.code, [WainLabel], g.counters, r.gen.counters)
  {
    var a1 := BindWainParam(Enter(rule, g.alloc), derefs, m.first, 1);
    var a2 := BindWainParam(a1, derefs, m.second, 2);
    var dc := DclsCode(a2, derefs, m.dcls);
    var env := EnvOf(dc.alloc);
    var body := StmtsCode(env, g.counters, m.body);
    HeapStraight(m.first);
    DclsStraight(a2, derefs, m.dcls);
    ExprStraight(env, m.ret);
    StmtsLabels(env, g.counters, m.body);
    MainShape(WainLabel, InitHeap(m.first), dc.code, body.code, ExprCode(env, m.ret), g.counters, body.next);
  }

  lemma PrologueLabels(derefs: seq<string>, m: Main)
    ensures Defined(Prologue(derefs, m)) == [] && Targets(Prologue(derefs, m)) == {WainLabel}
  {
    var head := [Import("print"), Import("init"), Import("new"), Import("delete"), Lis(4), Word(Num(4)), Sub(29, 30, 4)];
    var p1, p2 := PushIf(m.first.name in derefs, 1), PushIf(m.second.name in derefs, 2);
    var tail := [Lis(11), Word(Num(1)), Lis(10), WordLabel(Extern("print"))];
    var pre := head + p1 + p2 + tail;
    assert Straight(p1) && Straight(p2);
    StraightAppend(head, p1);
    StraightAppend(head + p1, p2);
    StraightAppend(head + p1 + p2, tail);
    StraightLabels(pre);
    LineLabels(Beq(0, 0, WainLabel));
    LabelsAppend(pre, [Beq(0, 0, WainLabel)]);
    assert Prologue(derefs, m) == pre + [Beq(0, 0, WainLabel)];
  }

  lemma EpilogueLabels(derefs: seq<string>, m: Main)
    ensures Defined(Epilogue(derefs, m)) == [] && Targets(Epilogue(derefs, m)) == {}
  {
    assert Straight(Epilogue(derefs, m));
    StraightLabels(Epilogue(derefs, m));
  }

  /** The procedures and wain together. */
  lemma BodyLabels(rule: EntryRule, derefs: seq<string>, prog: Program)
    requires TypeCheck.Distinct(TypeCheck.ProcNames(prog.procedures))
    ensures var procs := ProceduresCode(rule, derefs, Initial, prog.procedures);
      var main := MainCode(rule, derefs, procs.gen, prog.main);
      Labelled(procs.code + main.code, Heads(prog.procedures) + [WainLabel], Initial.counters, main.gen.counters)
  {
    var procs := ProceduresCode(rule, derefs, Initial, prog.procedures);
    var main := MainCode(rule, derefs, procs.gen, prog.main);
    ProceduresLabels(rule, derefs, Initial, prog.procedures);
    MainLabels(rule, derefs, procs.gen, prog.main);
    var hs := Heads(prog.procedures);
    assert WainLabel !in hs;
    Join(procs.code, hs, main.code, [WainLabel], Initial.counters, procs.gen.counters, main.gen.counters);
  }

  /** Code between the prologue and the epilogue keeps its labels, and
      gains the branch to wain. */
  lemma Wrapped(pro: seq<Asm>, x: seq<Asm>, y: seq<Asm>, epi: seq<Asm>)
    requires Defined(pro) == [] && Targets(pro) == {WainLabel}
    requires Defined(epi) == [] && Targets(epi) == {}
    ensures Defined(pro + x + y + epi) == Defined(x + y) == Defined(x) + Defined(y)
    ensures Targets(pro + x + y + epi) == {WainLabel} + Targets(x + y)
  {
    LabelsAppend(x, y);
    LabelsAppend(pro, x);
    LabelsAppend(pro + x, y);
    LabelsAppend(pro + x + y, epi);
  }

  /** A program body closed over its labels stays closed between the
      prologue and the epilogue, provided it defines wain's label. */
  lemma ClosedParts(pro: seq<Asm>, x: seq<Asm>, y: seq<Asm>, epi: seq<Asm>, hs: seq<Label>, c: Counters, d: Counters)
    requires Defined(pro) == [] && Targets(pro) == {WainLabel}
    requires Defined(epi) == [] && Targets(epi) == {}
    requires Labelled(x + y, hs, c, d) && WainLabel in Defined(y)
    ensures Distinct(Defined(pro + x + y + epi))
    ensures forall l :: l in Targets(pro + x + y + epi) ==> l in Defined(pro + x + y + epi)
  {
    Wrapped(pro, x, y, epi);
  }

  lemma MainDefined(rule: EntryRule, derefs: seq<string>, g: Gen, m: Main)
    ensures WainLabel in Defined(MainCode(rule, derefs, g, m).code)
  {
    var code := MainCode(rule, derefs, g, m).code;
    LabelsAppend([Define(WainLabel)], code[1..]);
    assert code == [Define(WainLabel)] + code[1..];
    LineLabels(Define(WainLabel));
  }

  /** No label of the program is defined twice and every branch target
      is defined. */
  lemma ProgramClosed(rule: EntryRule, derefs: seq<string>, prog: Program)
    requires TypeCheck.Distinct(TypeCheck.ProcNames(prog.procedures))
    ensures var code := ProgramCode(rule, derefs, prog);
      Distinct(Defined(code)) && (forall l :: l in Targets(code) ==> l in Defined(code))
  {
    var procs := ProceduresCode(rule, derefs, Initial, prog.procedures);
    var main := MainCode(rule, derefs, procs.gen, prog.main);
    BodyLabels(rule, derefs, prog);
    PrologueLabels(derefs, prog.main);
    EpilogueLabels(derefs, prog.main);
    MainDefined(rule, derefs, procs.gen, prog.main);
    ClosedParts(Prologue(derefs, prog.main), procs.code, main.code, Epilogue(derefs, prog.main),
                Heads(prog.procedures) + [WainLabel], Initial.counters, main.gen.counters);
  }

  /** wain's and each procedure's entry label are defined. */
  lemma ProgramEntries(rule: EntryRule, derefs: seq<string>, prog: Program)
    ensures var code := ProgramCode(rule, derefs, prog);
      && WainLabel in Defined(code)
      && (forall i :: 0 <= i < |prog.procedures| ==> ProcLabel(prog.procedures[i].name) in Defined(code))
  {
    var procs := ProceduresCode(rule, derefs, Initial, prog.procedures);
    var main := MainCode(rule, derefs, procs.gen, prog.main);
    PrologueLabels(derefs, prog.main);
    EpilogueLabels(derefs, prog.main);
    Wrapped(Prologue(derefs, prog.main), procs.code, main.code, Epilogue(derefs, prog.main));
    MainDefined(rule, derefs, procs.gen, prog.main);
    forall i | 0 <= i < |prog.procedures|
      ensures ProcLabel(prog.procedures[i].name) in Defined(procs.code)
    {
      ProcedureDefined(rule, derefs, Initial, prog.procedures, i);
    }
  }

  /** The whole program assembles without a duplicate or missing label:
      no label is defined twice, every branch target is defined, and each
      procedure's and wain's entry label is there. */
  lemma ProgramLabels(rule: EntryRule, derefs: seq<string>, prog: Program)
    requires TypeCheck.Distinct(TypeCheck.ProcNames(prog.procedures))
    ensures var code := ProgramCode(rule, derefs, prog);
      && Distinct(Defined(code))
      && (forall l :: l in Targets(code) ==> l in Defined(code))
      && WainLabel in Defined(code)
      && (forall i :: 0 <= i < |prog.procedures| ==> ProcLabel(prog.procedures[i].name) in Defined(code))
  {
    ProgramClosed(rule, derefs, prog);
    ProgramEntries(rule, derefs, prog);
  }

  /** Each procedure's code defines its entry label. */
  lemma {:induction false} ProcedureDefined(rule: EntryRule, derefs: seq<string>, g: Gen, ps: seq<Procedure>, i: nat)
    requires i < |ps|
    ensures ProcLabel(ps[i].name) in Defined(ProceduresCode(rule, derefs, g, ps).code)
    decreases |ps|
  {
    var first := ProcedureCode(rule, derefs, g, ps[0]);
    var rest := ProceduresCode(rule, derefs, first.gen, ps[1..]);
    LabelsAppend(first.code, rest.code);
    if i == 0 {
      LabelsAppend([Define(ProcLabel(ps[0].name))], first.code[1..]);
      assert first.code == [Define(ProcLabel(ps[0].name))] + first.code[1..];
      LineLabels(Define(ProcLabel(ps[0].name)));
    } else {
      ProcedureDefined(rule, derefs, first.gen, ps[1..], i - 1);
    }
  }
}
