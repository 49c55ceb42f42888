/** What the code generator's allocation guarantees: registers handed out
    once, the variables whose address is taken kept in the frame, the
    frame laid out as the calling sequence pushes it, and wain's saved
    parameters restored in reverse. */
module Allocation {
  import opened Wrappers
  import opened Ast
  import opened Codegen
  import TypeCheck

  // ---------------------------------------------------------------------
  // Registers
  // ---------------------------------------------------------------------

  /** No two variables share a register, a bound register is not free, and
      the pool holds each register once and only allocatable ones. */
  predicate RegistersOk(a: Alloc) {
    && (forall x, y :: x in a.regs && y in a.regs && x != y ==> a.regs[x] != a.regs[y])
    && (forall x :: x in a.regs ==> a.regs[x] !in a.free)
    && Codegen.Distinct(a.free)
    && (forall i :: 0 <= i < |a.free| ==> a.free[i] in FreePool)
  }

  /** Between procedures every binding is to a pool register, never to a
      register the calling convention or the lowering uses. */
  predicate PoolOnly(a: Alloc) {
    forall x :: x in a.regs ==> a.regs[x] in FreePool
  }

  /** No variable that some `&` names lives in a register. */
  predicate AddressesInFrame(a: Alloc, derefs: seq<string>) {
    forall x :: x in a.regs ==> x !in derefs
  }

  predicate Sound(a: Alloc, derefs: seq<string>) {
    RegistersOk(a) && PoolOnly(a) && AddressesInFrame(a, derefs)
  }

  /** No two variables share a slot. */
  predicate SlotsApart(slots: map<string, Slot>) {
    forall x, y :: x in slots && y in slots && x != y ==> slots[x].offset != slots[y].offset
  }

  /** Distinct slots, all above latestOffset. */
  predicate FrameOk(a: Alloc) {
    SlotsApart(a.slots) && forall x :: x in a.slots ==> a.slots[x].offset > a.next
  }

  lemma DeclareOk(a: Alloc, d: Dcl)
    requires FrameOk(a)
    ensures FrameOk(Declare(a, d))
  {
  }

  lemma InitDclSound(a: Alloc, derefs: seq<string>, d: InitDcl)
    requires Sound(a, derefs) && FrameOk(a)
    ensures Sound(InitDclCode(a, derefs, d).alloc, derefs) && FrameOk(InitDclCode(a, derefs, d).alloc)
  {
    var x := d.dcl.name;
    if |a.free| != 0 && x !in derefs {
      var n := |a.free| - 1;
      var r := a.free[n];
      var b := InitDclCode(a, derefs, d).alloc;
      assert b.free == a.free[..n];
      assert r !in b.free;
      forall y | y in b.regs && y != x
        ensures b.regs[y] != r && b.regs[y] !in b.free
      {
        assert a.regs[y] !in a.free;
      }
    }
  }

  lemma {:induction false} DclsSound(a: Alloc, derefs: seq<string>, ds: seq<InitDcl>)
    requires Sound(a, derefs) && FrameOk(a)
    ensures Sound(DclsCode(a, derefs, ds).alloc, derefs) && FrameOk(DclsCode(a, derefs, ds).alloc)
    decreases |ds|
  {
    if |ds| > 0 {
      DclsSound(a, derefs, ds[..|ds| - 1]);
      InitDclSound(DclsCode(a, derefs, ds[..|ds| - 1]).alloc, derefs, ds[|ds| - 1]);
    }
  }

  lemma {:induction false} ParamsOk(a: Alloc, ps: seq<Dcl>)
    requires FrameOk(a)
    ensures FrameOk(DeclareParams(a, ps))
    ensures DeclareParams(a, ps).regs == a.regs && DeclareParams(a, ps).free == a.free
    decreases |ps|
  {
    if |ps| > 0 {
      DeclareOk(a, ps[0]);
      ParamsOk(Declare(a, ps[0]), ps[1..]);
    }
  }

  lemma ShiftApart(slots: map<string, Slot>, inc: int)
    requires SlotsApart(slots)
    ensures SlotsApart(Shift(slots, inc)) && Shift(slots, inc).Keys == slots.Keys
  {
  }

  /** Compiling a procedure keeps the allocation sound, and the frame its
      body is lowered in has a distinct slot per variable. */
  lemma ProcedureSound(rule: EntryRule, derefs: seq<string>, g: Gen, p: Procedure)
    requires Sound(g.alloc, derefs)
    ensures Sound(ProcedureCode(rule, derefs, g, p).gen.alloc, derefs)
    ensures SlotsApart(ProcedureCode(rule, derefs, g, p).gen.alloc.slots)
  {
    var a0 := Enter(rule, g.alloc);
    var a1 := DeclareParams(a0, p.params);
    ParamsOk(a0, p.params);
    DclsSound(a1, derefs, p.dcls);
    var r := DclsCode(a1, derefs, p.dcls);
    ShiftApart(r.alloc.slots, 4 * |p.params|);
  }

  lemma {:induction false} ProceduresSound(rule: EntryRule, derefs: seq<string>, g: Gen, ps: seq<Procedure>)
    requires Sound(g.alloc, derefs)
    ensures Sound(ProceduresCode(rule, derefs, g, ps).gen.alloc, derefs)
    decreases |ps|
  {
    if |ps| > 0 {
      ProcedureSound(rule, derefs, g, ps[0]);
      ProceduresSound(rule, derefs, ProcedureCode(rule, derefs, g, ps[0]).gen, ps[1..]);
    }
  }

  /** wain adds $1 and $2 to the registers in use. */
  predicate WainRegisters(a: Alloc) {
    forall x :: x in a.regs ==> a.regs[x] in FreePool || a.regs[x] == 1 || a.regs[x] == 2
  }

  lemma BindWainOk(a: Alloc, derefs: seq<string>, d: Dcl, r: Reg)
    requires RegistersOk(a) && AddressesInFrame(a, derefs) && FrameOk(a)
    requires r == 1 || r == 2
    requires forall x :: x in a.regs ==> a.regs[x] in FreePool || (a.regs[x] == 1 && r == 2)
    ensures var b := BindWainParam(a, derefs, d, r);
      RegistersOk(b) && AddressesInFrame(b, derefs) && FrameOk(b) && WainRegisters(b)
  {
    assert 1 !in FreePool && 2 !in FreePool;
  }

  lemma DclsWainOk(a: Alloc, derefs: seq<string>, ds: seq<InitDcl>)
    requires RegistersOk(a) && AddressesInFrame(a, derefs) && FrameOk(a) && WainRegisters(a)
    ensures var b := DclsCode(a, derefs, ds).alloc;
      RegistersOk(b) && AddressesInFrame(b, derefs) && SlotsApart(b.slots) && WainRegisters(b)
    decreases |ds|
  {
    if |ds| > 0 {
      DclsWainOk(a, derefs, ds[..|ds| - 1]);
      var b := DclsCode(a, derefs, ds[..|ds| - 1]).alloc;
      DclsFrameOk(a, derefs, ds[..|ds| - 1]);
      var x := ds[|ds| - 1].dcl.name;
      if |b.free| != 0 && x !in derefs {
        var n := |b.free| - 1;
        var c := DclsCode(a, derefs, ds).alloc;
        assert c.free == b.free[..n];
        forall y | y in c.regs && y != x
          ensures c.regs[y] != b.free[n] && c.regs[y] !in c.free
        {
          assert b.regs[y] !in b.free;
        }
      }
    }
  }

  lemma {:induction false} DclsFrameOk(a: Alloc, derefs: seq<string>, ds: seq<InitDcl>)
    requires FrameOk(a)
    ensures FrameOk(DclsCode(a, derefs, ds).alloc)
    decreases |ds|
  {
    if |ds| > 0 {
      DclsFrameOk(a, derefs, ds[..|ds| - 1]);
    }
  }

  /** In wain too the registers are distinct, none holds a variable some
      `&` names, and the slots are distinct; $1 and $2 join the pool
      registers. */
  lemma MainSound(rule: EntryRule, derefs: seq<string>, g: Gen, m: Main)
    requires Sound(g.alloc, derefs)
    ensures var b := MainCode(rule, derefs, g, m).gen.alloc;
      RegistersOk(b) && AddressesInFrame(b, derefs) && SlotsApart(b.slots) && WainRegisters(b)
  {
    var a0 := Enter(rule, g.alloc);
    BindWainOk(a0, derefs, m.first, 1);
    var a1 := BindWainParam(a0, derefs, m.first, 1);
    BindWainOk(a1, derefs, m.second, 2);
    DclsWainOk(BindWainParam(a1, derefs, m.second, 2), derefs, m.dcls);
  }

  /** Generation starts sound and every procedure and wain keeps it so. */
  lemma ProgramSound(rule: EntryRule, derefs: seq<string>, prog: Program)
    ensures var procs := ProceduresCode(rule, derefs, Initial, prog.procedures);
      && Sound(procs.gen.alloc, derefs)
      && var b := MainCode(rule, derefs, procs.gen, prog.main).gen.alloc;
         RegistersOk(b) && AddressesInFrame(b, derefs) && SlotsApart(b.slots) && WainRegisters(b)
  {
    InitialSound(derefs);
    var procs := ProceduresCode(rule, derefs, Initial, prog.procedures);
    ProceduresSound(rule, derefs, Initial, prog.procedures);
    MainSound(rule, derefs, procs.gen, prog.main);
  }

  /** Generation starts with no variables and the whole pool free. */
  lemma InitialSound(derefs: seq<string>)
    ensures Sound(Initial.alloc, derefs)
  {
    PoolDistinct();
  }

  /** The pool counts down from $28 to $13, then holds $9 and $8. */
  lemma PoolDistinct()
    ensures Codegen.Distinct(FreePool)
  {
    forall i | 0 <= i < |FreePool|
      ensures FreePool[i] == if i < 16 then 28 - i else 25 - i
    {
    }
  }

  // ---------------------------------------------------------------------
  // The frame
  // ---------------------------------------------------------------------

  lemma DistinctSplit(a: seq<string>, b: seq<string>)
    requires TypeCheck.Distinct(a + b)
    ensures TypeCheck.Distinct(a) && TypeCheck.Distinct(b)
    ensures forall x :: x in a ==> x !in b
  {
    forall i, j | 0 <= i < j < |a|
      ensures a[i] != a[j]
    {
      assert a[i] == (a + b)[i] && a[j] == (a + b)[j];
    }
    forall i, j | 0 <= i < j < |b|
      ensures b[i] != b[j]
    {
      assert b[i] == (a + b)[|a| + i] && b[j] == (a + b)[|a| + j];
    }
    forall x | x in a
      ensures x !in b
    {
      var i :| 0 <= i < |a| && a[i] == x;
      forall j | 0 <= j < |b|
        ensures b[j] != x
      {
        assert (a + b)[i] == a[i] && (a + b)[|a| + j] == b[j];
      }
    }
  }

  /** Parameter i takes the slot i words below where latestOffset stood. */
  lemma {:induction false} ParamSlots(a: Alloc, ps: seq<Dcl>)
    requires TypeCheck.Distinct(TypeCheck.DclNames(ps))
    ensures var b := DeclareParams(a, ps);
      && b.next == a.next - 4 * |ps|
      && (forall i :: 0 <= i < |ps| ==> ps[i].name in b.slots && b.slots[ps[i].name] == Slot(ps[i].ty, a.next - 4 * i))
      && (forall x :: x in b.slots ==> x in a.slots || x in TypeCheck.DclNames(ps))
      && (forall x :: x in a.slots && x !in TypeCheck.DclNames(ps) ==> x in b.slots && b.slots[x] == a.slots[x])
    decreases |ps|
  {
    if |ps| > 0 {
      var a1 := Declare(a, ps[0]);
      var names := TypeCheck.DclNames(ps);
      assert TypeCheck.DclNames(ps[1..]) == names[1..];
      assert TypeCheck.Distinct(names[1..]);
      ParamSlots(a1, ps[1..]);
      var b := DeclareParams(a, ps);
      assert b == DeclareParams(a1, ps[1..]);
      assert ps[0].name !in names[1..];
      forall i | 0 <= i < |ps|
        ensures ps[i].name in b.slots && b.slots[ps[i].name] == Slot(ps[i].ty, a.next - 4 * i)
      {
        if i > 0 {
          assert ps[i] == ps[1..][i - 1];
        }
      }
    }
  }

  /** What the declarations do to the tables when their names are distinct
      and new: every other entry is kept, each declared name lands in the
      registers or the frame (the frame when some `&` names it), and a name
      is never in both. */
  predicate DclsEffect(a: Alloc, derefs: seq<string>, ds: seq<InitDcl>, b: Alloc) {
    var names := TypeCheck.InitNames(ds);
    && (forall x :: x in a.slots && x !in names ==> x in b.slots && b.slots[x] == a.slots[x])
    && (forall x :: x in a.regs && x !in names ==> x in b.regs && b.regs[x] == a.regs[x])
    && (forall x :: x in b.slots ==> x in a.slots || x in names)
    && (forall x :: x in b.regs ==> x in a.regs || x in names)
    && (forall i :: 0 <= i < |ds| ==> ds[i].dcl.name in b.regs || ds[i].dcl.name in b.slots)
    && (forall i :: 0 <= i < |ds| && ds[i].dcl.name in derefs ==> ds[i].dcl.name in b.slots)
    && (forall i :: 0 <= i < |ds| ==> !(ds[i].dcl.name in b.regs && ds[i].dcl.name in b.slots))
  }

  /** Names declared in ds are not yet in either table. */
  predicate Unbound(a: Alloc, ds: seq<InitDcl>) {
    forall i :: 0 <= i < |ds| ==> ds[i].dcl.name !in a.regs && ds[i].dcl.name !in a.slots
  }

  lemma Front(a: Alloc, ds: seq<InitDcl>)
    requires |ds| > 0 && TypeCheck.Distinct(TypeCheck.InitNames(ds)) && Unbound(a, ds)
    ensures var n := |ds| - 1;
      && TypeCheck.InitNames(ds[..n]) == TypeCheck.InitNames(ds)[..n]
      && TypeCheck.Distinct(TypeCheck.InitNames(ds[..n])) && Unbound(a, ds[..n])
      && ds[n].dcl.name !in TypeCheck.InitNames(ds[..n])
      && ds[n].dcl.name !in a.regs && ds[n].dcl.name !in a.slots
  {
    var n := |ds| - 1;
    var names := TypeCheck.InitNames(ds);
    assert TypeCheck.InitNames(ds[..n]) == names[..n];
    assert names[n] == ds[n].dcl.name;
  }

  lemma {:induction false} DclsTables(a: Alloc, derefs: seq<string>, ds: seq<InitDcl>)
    requires TypeCheck.Distinct(TypeCheck.InitNames(ds)) && Unbound(a, ds)
    ensures DclsEffect(a, derefs, ds, DclsCode(a, derefs, ds).alloc)
    decreases |ds|
  {
    if |ds| > 0 {
      var n := |ds| - 1;
      var front := ds[..n];
      Front(a, ds);
      DclsTables(a, derefs, front);
      var b := DclsCode(a, derefs, front).alloc;
      var x := ds[n].dcl.name;
      assert x !in b.regs && x !in b.slots;
      var c := InitDclCode(b, derefs, ds[n]).alloc;
      assert DclsCode(a, derefs, ds).alloc == c;
      var names := TypeCheck.InitNames(ds);
      assert forall y :: y in TypeCheck.InitNames(front) ==> y in names;
      forall i | 0 <= i < |ds|
        ensures ds[i].dcl.name in c.regs || ds[i].dcl.name in c.slots
        ensures ds[i].dcl.name in derefs ==> ds[i].dcl.name in c.slots
        ensures !(ds[i].dcl.name in c.regs && ds[i].dcl.name in c.slots)
      {
        if i < n {
          assert ds[i] == front[i];
          assert ds[i].dcl.name in TypeCheck.InitNames(front);
        }
      }
    }
  }

  lemma InitDclDelta(a: Alloc, derefs: seq<string>, d: InitDcl)
    ensures var r := InitDclCode(a, derefs, d);
      Delta(r.code) == (if |a.free| != 0 && d.dcl.name !in derefs then 0 else 1)
  {
    var v := Word(Num(InitValue(d.init)));
    PushPopDelta(3);
    QuietDelta([Lis(3), v]);
    DeltaAppend([Lis(3), v], Push(3));
    if |a.free| != 0 && d.dcl.name !in derefs {
      QuietDelta([Lis(a.free[|a.free| - 1]), v]);
    }
  }

  /** The locals that take a slot, in declaration order. */
  function Stacked(a: Alloc, derefs: seq<string>, ds: seq<InitDcl>): seq<string>
    decreases |ds|
  {
    if |ds| == 0 then []
    else
      var b := DclsCode(a, derefs, ds[..|ds| - 1]).alloc;
      var x := ds[|ds| - 1].dcl.name;
      Stacked(a, derefs, ds[..|ds| - 1]) + (if |b.free| != 0 && x !in derefs then [] else [x])
  }

  /** Each local that takes a slot pushes its value once, and its slot is
      the word that push writes: the j-th such local sits j words below
      where latestOffset started. */
  lemma {:induction false} DclsPushes(a: Alloc, derefs: seq<string>, ds: seq<InitDcl>)
    requires TypeCheck.Distinct(TypeCheck.InitNames(ds)) && Unbound(a, ds)
    ensures var r := DclsCode(a, derefs, ds);
      var st := Stacked(a, derefs, ds);
      && |st| == Delta(r.code)
      && r.alloc.next == a.next - 4 * |st|
      && (forall j :: 0 <= j < |st| ==> st[j] in r.alloc.slots && r.alloc.slots[st[j]].offset == a.next - 4 * j)
    decreases |ds|
  {
    if |ds| > 0 {
      var n := |ds| - 1;
      var front := ds[..n];
      Front(a, ds);
      DclsPushes(a, derefs, front);
      DclsTables(a, derefs, front);
      var r := DclsCode(a, derefs, front);
      var b := r.alloc;
      var x := ds[n].dcl.name;
      assert x !in b.slots;
      var last := InitDclCode(b, derefs, ds[n]);
      InitDclDelta(b, derefs, ds[n]);
      DeltaAppend(r.code, last.code);
      assert DclsCode(a, derefs, ds) == Allocated(last.alloc, r.code + last.code);
      var st := Stacked(a, derefs, front);
      forall j | 0 <= j < |st|
        ensures st[j] != x
      {
        assert st[j] in b.slots;
      }
    }
  }

  /** The allocation a procedure ends with: the parameters' slots, then the
      locals, every offset moved up by 4 per parameter. */
  lemma ProcedureAlloc(rule: EntryRule, derefs: seq<string>, g: Gen, p: Procedure)
    ensures var r := DclsCode(DeclareParams(Enter(rule, g.alloc), p.params), derefs, p.dcls);
      ProcedureCode(rule, derefs, g, p).gen.alloc == r.alloc.(slots := Shift(r.alloc.slots, 4 * |p.params|))
  {
  }

  /** Entry facts shared by the frame lemmas: a0 has no slots, offset 0,
      and binds none of the locals to a register. */
  predicate EntryOk(drop: bool, a0: Alloc, p: Procedure) {
    && TypeCheck.Distinct(TypeCheck.DclNames(p.params) + TypeCheck.InitNames(p.dcls))
    && a0.slots == map[] && a0.next == 0 && (drop ==> a0.regs == map[])
    && (forall i :: 0 <= i < |p.dcls| ==> p.dcls[i].dcl.name !in a0.regs)
  }

  /** After the parameters are declared no local is bound yet, and the
      parameters are not among the locals. */
  lemma ParamsUnbound(drop: bool, a0: Alloc, p: Procedure)
    requires EntryOk(drop, a0, p)
    ensures var a1 := DeclareParams(a0, p.params);
      && Unbound(a1, p.dcls) && a1.next == -4 * |p.params| && a1.regs == a0.regs
      && TypeCheck.Distinct(TypeCheck.InitNames(p.dcls))
      && (forall i :: 0 <= i < |p.params| ==> p.params[i].name !in TypeCheck.InitNames(p.dcls))
      && (forall i :: 0 <= i < |p.params| ==> p.params[i].name in a1.slots && a1.slots[p.params[i].name] == Slot(p.params[i].ty, -4 * i))
      && (forall x :: x in a1.slots ==> x in TypeCheck.DclNames(p.params))
  {
    var pn := TypeCheck.DclNames(p.params);
    var dn := TypeCheck.InitNames(p.dcls);
    DistinctSplit(pn, dn);
    var a1 := DeclareParams(a0, p.params);
    ParamSlots(a0, p.params);
    ParamsOk(a0, p.params);
    forall i | 0 <= i < |p.dcls|
      ensures p.dcls[i].dcl.name !in a1.regs && p.dcls[i].dcl.name !in a1.slots
    {
      assert p.dcls[i].dcl.name == dn[i];
    }
    forall i | 0 <= i < |p.params|
      ensures p.params[i].name !in dn
    {
      assert p.params[i].name == pn[i];
    }
  }

  lemma FrameParams(drop: bool, derefs: seq<string>, a0: Alloc, p: Procedure, b: Alloc)
    requires EntryOk(drop, a0, p)
    requires var r := DclsCode(DeclareParams(a0, p.params), derefs, p.dcls);
      b == r.alloc.(slots := Shift(r.alloc.slots, 4 * |p.params|))
    ensures forall i :: 0 <= i < |p.params| ==>
      p.params[i].name in b.slots && b.slots[p.params[i].name] == Slot(p.params[i].ty, 4 * (|p.params| - i))
  {
    ParamsUnbound(drop, a0, p);
    DclsTables(DeclareParams(a0, p.params), derefs, p.dcls);
  }

  lemma FrameLocals(drop: bool, derefs: seq<string>, a0: Alloc, p: Procedure, b: Alloc)
    requires EntryOk(drop, a0, p)
    requires var r := DclsCode(DeclareParams(a0, p.params), derefs, p.dcls);
      b == r.alloc.(slots := Shift(r.alloc.slots, 4 * |p.params|))
    ensures var a1 := DeclareParams(a0, p.params);
      var st := Stacked(a1, derefs, p.dcls);
      && |st| == Delta(DclsCode(a1, derefs, p.dcls).code)
      && (forall j :: 0 <= j < |st| ==> st[j] in b.slots && b.slots[st[j]].offset == -4 * j)
      && (forall i :: 0 <= i < |p.dcls| && p.dcls[i].dcl.name in derefs ==> p.dcls[i].dcl.name in b.slots)
  {
    ParamsUnbound(drop, a0, p);
    DclsTables(DeclareParams(a0, p.params), derefs, p.dcls);
    DclsPushes(DeclareParams(a0, p.params), derefs, p.dcls);
  }

  lemma FrameExclusive(drop: bool, derefs: seq<string>, a0: Alloc, p: Procedure, b: Alloc)
    requires EntryOk(drop, a0, p) && drop
    requires var r := DclsCode(DeclareParams(a0, p.params), derefs, p.dcls);
      b == r.alloc.(slots := Shift(r.alloc.slots, 4 * |p.params|))
    ensures forall x :: x in b.regs ==> x !in b.slots
  {
    ParamsUnbound(drop, a0, p);
    var a1 := DeclareParams(a0, p.params);
    DclsTables(a1, derefs, p.dcls);
    var c := DclsCode(a1, derefs, p.dcls).alloc;
    forall x | x in b.regs
      ensures x !in b.slots
    {
      var names := TypeCheck.InitNames(p.dcls);
      assert x in names;
      var i :| 0 <= i < |names| && names[i] == x;
      assert p.dcls[i].dcl.name == x;
    }
  }

  /** The frame of a procedure whose parameter and local names are
      distinct (as the type checker demands): parameter i of n sits
      4 * (n - i) above the frame pointer, which is where the caller's
      i-th argument push wrote it (after $29 and $31); the j-th local kept
      in the frame sits at -4 * j, the word its push wrote, and these
      pushes are all the declarations push; every local some `&` names is
      in the frame.  With the bindings dropped at entry no name is both in
      a register and in the frame. */
  lemma ProcedureFrame(rule: EntryRule, derefs: seq<string>, g: Gen, p: Procedure)
    requires TypeCheck.Distinct(TypeCheck.DclNames(p.params) + TypeCheck.InitNames(p.dcls))
    requires rule == KeepBindings ==> Unbound(g.alloc, p.dcls)
    ensures var a1 := DeclareParams(Enter(rule, g.alloc), p.params);
      var b := ProcedureCode(rule, derefs, g, p).gen.alloc;
      var st := Stacked(a1, derefs, p.dcls);
      && (forall i :: 0 <= i < |p.params| ==>
            p.params[i].name in b.slots && b.slots[p.params[i].name] == Slot(p.params[i].ty, 4 * (|p.params| - i)))
      && |st| == Delta(DclsCode(a1, derefs, p.dcls).code)
      && (forall j :: 0 <= j < |st| ==> st[j] in b.slots && b.slots[st[j]].offset == -4 * j)
      && (forall i :: 0 <= i < |p.dcls| && p.dcls[i].dcl.name in derefs ==> p.dcls[i].dcl.name in b.slots)
      && (rule == DropBindings ==> forall x :: x in b.regs ==> x !in b.slots)
  {
    var drop := rule == DropBindings;
    var a0 := Enter(rule, g.alloc);
    var b := ProcedureCode(rule, derefs, g, p).gen.alloc;
    ProcedureAlloc(rule, derefs, g, p);
    assert EntryOk(drop, a0, p);
    FrameParams(drop, derefs, a0, p, b);
    FrameLocals(drop, derefs, a0, p, b);
    if drop {
      FrameExclusive(drop, derefs, a0, p, b);
    }
  }

  // ---------------------------------------------------------------------
  // wain: the prologue saves what the epilogue restores
  // ---------------------------------------------------------------------

  /** The registers pushed, in order. */
  function Saved(code: seq<Asm>): seq<Reg>
    decreases |code|
  {
    if |code| == 0 then []
    else SavedWord(code[0]) + Saved(code[1..])
  }

  /** The registers popped, in order. */
  function Restored(code: seq<Asm>): seq<Reg>
    decreases |code|
  {
    if |code| == 0 then []
    else RestoredWord(code[0]) + Restored(code[1..])
  }

  function Reversed(s: seq<Reg>): seq<Reg>
    decreases |s|
  {
    if |s| == 0 then [] else Reversed(s[1..]) + [s[0]]
  }

  /** The words one line pushes or pops. */
  function SavedWord(x: Asm): seq<Reg> {
    if x.Sw? && x.offset == Num(-4) && x.s == 30 then [x.t] else []
  }

  function RestoredWord(x: Asm): seq<Reg> {
    if x.Lw? && x.offset == Num(-4) && x.s == 30 then [x.t] else []
  }

  lemma {:induction false} SavedAppend(a: seq<Asm>, b: seq<Asm>)
    ensures Saved(a + b) == Saved(a) + Saved(b)
    decreases |a|
  {
    if |a| == 0 {
      assert a + b == b;
    } else {
      var c := a + b;
      assert c[0] == a[0];
      assert c[1..] == a[1..] + b;
      SavedAppend(a[1..], b);
      assert Saved(c) == SavedWord(a[0]) + Saved(c[1..]);
      assert Saved(a) == SavedWord(a[0]) + Saved(a[1..]);
    }
  }

  lemma {:induction false} RestoredAppend(a: seq<Asm>, b: seq<Asm>)
    ensures Restored(a + b) == Restored(a) + Restored(b)
    decreases |a|
  {
    if |a| == 0 {
      assert a + b == b;
    } else {
      var c := a + b;
      assert c[0] == a[0];
      assert c[1..] == a[1..] + b;
      RestoredAppend(a[1..], b);
      assert Restored(c) == RestoredWord(a[0]) + Restored(c[1..]);
      assert Restored(a) == RestoredWord(a[0]) + Restored(a[1..]);
    }
  }

  lemma StackWordsAppend(a: seq<Asm>, b: seq<Asm>)
    ensures Saved(a + b) == Saved(a) + Saved(b) && Restored(a + b) == Restored(a) + Restored(b)
  {
    SavedAppend(a, b);
    RestoredAppend(a, b);
  }

  lemma PushPopWords(r: Reg)
    ensures Saved(Push(r)) == [r] && Restored(Push(r)) == []
    ensures Saved(Pop(r)) == [] && Restored(Pop(r)) == [r]
  {
    assert Push(r)[1..] == [Sub(30, 30, 4)] && Pop(r)[1..] == [Lw(r, Num(-4), 30)];
    assert Saved([Sub(30, 30, 4)]) == [] + Saved([]);
    assert Restored([Sub(30, 30, 4)]) == [] + Restored([]);
    assert Saved([Lw(r, Num(-4), 30)]) == [] + Saved([]);
    assert Restored([Lw(r, Num(-4), 30)]) == [r] + Restored([]);
  }

  lemma GuardedWords(b: bool, r: Reg)
    ensures Saved(PushIf(b, r)) == (if b then [r] else []) && Restored(PushIf(b, r)) == []
    ensures Saved(PopIf(b, r)) == [] && Restored(PopIf(b, r)) == (if b then [r] else [])
    ensures Delta(PushIf(b, r)) == (if b then 1 else 0) && Delta(PopIf(b, r)) == (if b then -1 else 0)
  {
    PushPopWords(r);
    PushPopDelta(r);
  }

  lemma {:induction false} QuietWords(code: seq<Asm>)
    requires forall i :: 0 <= i < |code| ==> !code[i].Sw? && !code[i].Lw?
    ensures Saved(code) == [] && Restored(code) == []
    decreases |code|
  {
    if |code| > 0 {
      QuietWords(code[1..]);
    }
  }

  /** The words pushed or popped by the two guarded parameter saves. */
  function WainSaved(derefs: seq<string>, m: Main): seq<Reg> {
    (if m.first.name in derefs then [1] else []) + (if m.second.name in derefs then [2] else [])
  }

  lemma ParamPushes(derefs: seq<string>, m: Main)
    ensures var mid := PushIf(m.first.name in derefs, 1) + PushIf(m.second.name in derefs, 2);
      Saved(mid) == WainSaved(derefs, m) && Delta(mid) == |WainSaved(derefs, m)|
  {
    var b1 := m.first.name in derefs;
    var b2 := m.second.name in derefs;
    GuardedWords(b1, 1);
    GuardedWords(b2, 2);
    StackWordsAppend(PushIf(b1, 1), PushIf(b2, 2));
    DeltaAppend(PushIf(b1, 1), PushIf(b2, 2));
  }

  const PrologueHead: seq<Asm> :=
    [Import("print"), Import("init"), Import("new"), Import("delete"), Lis(4), Word(Num(4)), Sub(29, 30, 4)]

  const PrologueTail: seq<Asm> :=
    [Lis(11), Word(Num(1)), Lis(10), WordLabel(Extern("print")), Beq(0, 0, WainLabel)]

  lemma HeadQuiet()
    ensures Saved(PrologueHead) == [] && Delta(PrologueHead) == 0
  {
    var h := PrologueHead;
    assert forall i :: 0 <= i < |h| ==> h[i].Import? || h[i].Lis? || h[i].Word? || h[i] == Sub(29, 30, 4);
    QuietWords(h);
    QuietDelta(h);
  }

  lemma TailQuiet()
    ensures Saved(PrologueTail) == [] && Delta(PrologueTail) == 0
  {
    var t := PrologueTail;
    assert forall i :: 0 <= i < |t| ==> t[i].Lis? || t[i].Word? || t[i].WordLabel? || t[i].Beq?;
    QuietWords(t);
    QuietDelta(t);
  }

  /** The prologue pushes wain's dereferenced parameters, first then
      second, each push adding one word to the stack. */
  lemma PrologueSaves(derefs: seq<string>, m: Main)
    ensures Saved(Prologue(derefs, m)) == WainSaved(derefs, m)
    ensures Delta(Prologue(derefs, m)) == |WainSaved(derefs, m)|
  {
    var mid := PushIf(m.first.name in derefs, 1) + PushIf(m.second.name in derefs, 2);
    assert Prologue(derefs, m) == PrologueHead + mid + PrologueTail;
    ParamPushes(derefs, m);
    HeadQuiet();
    TailQuiet();
    BetweenQuiet(PrologueHead, mid, PrologueTail);
  }

  lemma BetweenQuiet(h: seq<Asm>, mid: seq<Asm>, t: seq<Asm>)
    requires Saved(h) == [] && Delta(h) == 0 && Saved(t) == [] && Delta(t) == 0
    ensures Saved(h + mid + t) == Saved(mid) && Delta(h + mid + t) == Delta(mid)
  {
    StackWordsAppend(h, mid);
    StackWordsAppend(h + mid, t);
    DeltaAppend(h, mid);
    DeltaAppend(h + mid, t);
  }

  /** The epilogue pops the same parameters, second then first. */
  lemma EpilogueRestores(derefs: seq<string>, m: Main)
    ensures Restored(Epilogue(derefs, m)) == Reversed(WainSaved(derefs, m))
    ensures Delta(Epilogue(derefs, m)) == -|WainSaved(derefs, m)|
  {
    PopWords(m.first.name in derefs, m.second.name in derefs);
  }

  lemma PopWords(b1: bool, b2: bool)
    ensures var w := (if b1 then [1] else []) + (if b2 then [2] else []);
      var code := PopIf(b2, 2) + PopIf(b1, 1) + [Jr(31)];
      Restored(code) == Reversed(w) && Delta(code) == -|w|
  {
    var c := PopIf(b2, 2) + PopIf(b1, 1);
    GuardedWords(b1, 1);
    GuardedWords(b2, 2);
    StackWordsAppend(PopIf(b2, 2), PopIf(b1, 1));
    DeltaAppend(PopIf(b2, 2), PopIf(b1, 1));
    QuietWords([Jr(31)]);
    QuietDelta([Jr(31)]);
    StackWordsAppend(c, [Jr(31)]);
    DeltaAppend(c, [Jr(31)]);
    ReversedPair(b1, b2);
  }

  lemma ReversedPair(b1: bool, b2: bool)
    ensures Reversed((if b1 then [1] else []) + (if b2 then [2] else []))
         == (if b2 then [2] else []) + (if b1 then [1] else [])
  {
    assert Reversed([1]) == Reversed([]) + [1];
    assert Reversed([2]) == Reversed([]) + [2];
    assert Reversed([1, 2]) == Reversed([2]) + [1];
  }

  /** Together: the epilogue restores in reverse exactly what the prologue
      saved, and leaves the stack pointer where it found it. */
  lemma WainSaveRestore(derefs: seq<string>, m: Main)
    ensures Restored(Epilogue(derefs, m)) == Reversed(Saved(Prologue(derefs, m)))
    ensures Delta(Prologue(derefs, m)) + Delta(Epilogue(derefs, m)) == 0
  {
    PrologueSaves(derefs, m);
    EpilogueRestores(derefs, m);
  }

  /** wain's parameters bound: a dereferenced one takes the next slot down
      from 0, in the order the prologue pushes them. */
  lemma WainParams(rule: EntryRule, derefs: seq<string>, a: Alloc, m: Main)
    requires m.first.name != m.second.name
    ensures var a2 := BindWainParam(BindWainParam(Enter(rule, a), derefs, m.first, 1), derefs, m.second, 2);
      var n := |WainSaved(derefs, m)|;
      && a2.next == -4 * n
      && (m.first.name in derefs ==> m.first.name in a2.slots && a2.slots[m.first.name] == Slot(m.first.ty, 0))
      && (m.second.name in derefs ==>
            m.second.name in a2.slots && a2.slots[m.second.name] == Slot(m.second.ty, -4 * (n - 1)))
      && (forall x :: x in a2.slots ==> x == m.first.name || x == m.second.name)
  {
  }

  /** The allocation wain ends with is the one its declarations leave. */
  lemma MainAlloc(rule: EntryRule, derefs: seq<string>, g: Gen, m: Main)
    ensures var a2 := BindWainParam(BindWainParam(Enter(rule, g.alloc), derefs, m.first, 1), derefs, m.second, 2);
      MainCode(rule, derefs, g, m).gen.alloc == DclsCode(a2, derefs, m.dcls).alloc
  {
  }

  /** The locals of wain go below its n pushed parameters, which keep
      their slots. */
  lemma WainLayout(derefs: seq<string>, a2: Alloc, m: Main, n: nat, b: Alloc)
    requires TypeCheck.Distinct(TypeCheck.InitNames(m.dcls)) && Unbound(a2, m.dcls) && a2.next == -4 * n
    requires m.first.name !in TypeCheck.InitNames(m.dcls) && m.second.name !in TypeCheck.InitNames(m.dcls)
    requires m.first.name in derefs ==> m.first.name in a2.slots && a2.slots[m.first.name] == Slot(m.first.ty, 0)
    requires m.second.name in derefs ==>
      m.second.name in a2.slots && a2.slots[m.second.name] == Slot(m.second.ty, -4 * (n - 1))
    requires b == DclsCode(a2, derefs, m.dcls).alloc
    ensures var st := Stacked(a2, derefs, m.dcls);
      && (m.first.name in derefs ==> m.first.name in b.slots && b.slots[m.first.name] == Slot(m.first.ty, 0))
      && (m.second.name in derefs ==>
            m.second.name in b.slots && b.slots[m.second.name] == Slot(m.second.ty, -4 * (n - 1)))
      && (forall j :: 0 <= j < |st| ==> st[j] in b.slots && b.slots[st[j]].offset == -4 * (n + j))
  {
    DclsTables(a2, derefs, m.dcls);
    DclsPushes(a2, derefs, m.dcls);
  }

  /** wain's frame: the k-th parameter the prologue pushed has the slot k
      words below the frame pointer (where that push wrote it, $29 being
      $30 - 4 before the pushes), and the j-th local kept in the frame
      comes after them. */
  lemma WainFrame(rule: EntryRule, derefs: seq<string>, g: Gen, m: Main)
    requires TypeCheck.Distinct([m.first.name, m.second.name] + TypeCheck.InitNames(m.dcls))
    requires rule == KeepBindings ==> Unbound(g.alloc, m.dcls)
    ensures var n := |Saved(Prologue(derefs, m))|;
      var b := MainCode(rule, derefs, g, m).gen.alloc;
      var a2 := BindWainParam(BindWainParam(Enter(rule, g.alloc), derefs, m.first, 1), derefs, m.second, 2);
      var st := Stacked(a2, derefs, m.dcls);
      && (m.first.name in derefs ==> m.first.name in b.slots && b.slots[m.first.name] == Slot(m.first.ty, 0))
      && (m.second.name in derefs ==>
            m.second.name in b.slots && b.slots[m.second.name] == Slot(m.second.ty, -4 * (n - 1)))
      && (forall j :: 0 <= j < |st| ==> st[j] in b.slots && b.slots[st[j]].offset == -4 * (n + j))
  {
    PrologueSaves(derefs, m);
    var pn := [m.first.name, m.second.name];
    var dn := TypeCheck.InitNames(m.dcls);
    DistinctSplit(pn, dn);
    assert pn[0] != pn[1];
    WainParams(rule, derefs, g.alloc, m);
    var a2 := BindWainParam(BindWainParam(Enter(rule, g.alloc), derefs, m.first, 1), derefs, m.second, 2);
    assert Unbound(a2, m.dcls) by {
      forall i | 0 <= i < |m.dcls|
        ensures m.dcls[i].dcl.name !in a2.regs && m.dcls[i].dcl.name !in a2.slots
      {
        assert m.dcls[i].dcl.name == dn[i];
        assert dn[i] !in pn;
      }
    }
    assert m.first.name !in dn && m.second.name !in dn;
    MainAlloc(rule, derefs, g, m);
    WainLayout(derefs, a2, m, |WainSaved(derefs, m)|, MainCode(rule, derefs, g, m).gen.alloc);
  }

  // ---------------------------------------------------------------------
  // Bindings kept across procedures
  // ---------------------------------------------------------------------

  /** `return x;` */
  const ReturnX: Expr := ETerm(TFactor(FId("x", Int), Int), Int)

  /** int f() { int x = 1; return x; } */
  const LocalX: Procedure := Procedure("f", [], [InitDcl(Dcl(Int, "x"), NumInit(1))], [], ReturnX)

  /** int g(int x) { return x; } */
  const ParamX: Procedure := Procedure("g", [Dcl(Int, "x")], [], [], ReturnX)

  /** As written, the register table keeps f's binding of x to $8 when g is
      compiled: x is then both in a register and in g's frame, and g's
      `return x` reads $8 instead of its argument.  Dropping the bindings
      at entry reads the argument from the frame. */
  lemma StaleBindingAsWritten()
    ensures var f := ProcedureCode(KeepBindings, [], Initial, LocalX);
      var b := ProcedureCode(KeepBindings, [], f.gen, ParamX).gen.alloc;
      && "x" in b.regs && "x" in b.slots
      && ExprCode(EnvOf(b), ReturnX) == [Add(3, 0, 8)]
    ensures var f := ProcedureCode(DropBindings, [], Initial, LocalX);
      var b := ProcedureCode(DropBindings, [], f.gen, ParamX).gen.alloc;
      && "x" !in b.regs && "x" in b.slots
      && ExprCode(EnvOf(b), ReturnX) == [Lw(3, Num(4), 29)]
  {
    var keep := ProcedureCode(KeepBindings, [], Initial, LocalX);
    var r := DclsCode(Enter(KeepBindings, Initial.alloc), [], LocalX.dcls);
    assert LocalX.dcls[..0] == [];
    assert r.alloc.regs == map["x" := 8];
    assert keep.gen.alloc.regs == map["x" := 8];
    var b := ProcedureCode(KeepBindings, [], keep.gen, ParamX).gen.alloc;
    assert DeclareParams(Enter(KeepBindings, keep.gen.alloc), ParamX.params).slots == map["x" := Slot(Int, 0)];
    assert b.slots == map["x" := Slot(Int, 4)];
    var drop := ProcedureCode(DropBindings, [], Initial, LocalX);
    var c := ProcedureCode(DropBindings, [], drop.gen, ParamX).gen.alloc;
    assert DeclareParams(Enter(DropBindings, drop.gen.alloc), ParamX.params).slots == map["x" := Slot(Int, 0)];
    assert c.regs == map[] && c.slots == map["x" := Slot(Int, 4)];
  }
}
