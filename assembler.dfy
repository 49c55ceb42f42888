/** The two-pass MIPS assembler. Pass one records, for every label, the byte
    address of the line it stands on; pass two walks every token of every
    line, encodes each instruction and each `.word` into a 32-bit word and
    emits the words as big-endian bytes. The scanner that turns a text line
    into tokens is not part of this model: lines arrive already tokenized. */
module Assembler {

  import opened Wrappers
  import opened Encoding

  datatype Kind = ID | LABEL | WORD | COMMA | LPAREN | RPAREN | INT | HEXINT | REG | WHITESPACE | COMMENT

  /** One token of a line; `value` is the token's numeric reading (the
      register number of a REG, the value of an INT or HEXINT). */
  datatype Token = Token(kind: Kind, lexeme: string, value: int)

  type Line = seq<Token>

  /** Label name to byte address. */
  type SymbolTable = map<string, nat>

  datatype AsmError =
    | DuplicateLabel(name: string)
    | NotEnoughTokens
    | UnexpectedKind(got: Kind)
    | RegisterOutOfRange(reg: int)
    | ImmediateOutOfRange(imm: int)
    | ValueOutOfRange(value: int)
    | UndeclaredLabel(name: string)
    | UnrecognizedToken(lexeme: string)

  type Res<T> = Result<T, AsmError>

  /** A lexeme without its last character (the colon of a label definition);
      an empty lexeme stays empty. */
  function DropLast(s: string): string
  {
    if |s| == 0 then s else s[..|s| - 1]
  }

  predicate Distinct(s: seq<string>)
  {
    forall i, j :: 0 <= i < j < |s| ==> s[i] != s[j]
  }

  // ------------------------------------------------------------------
  // Pass one
  // ------------------------------------------------------------------

  /** Tokens that make a line count as an instruction line in pass one. */
  predicate IsInstrToken(tok: Token)
  {
    tok.kind == ID || tok.kind == WORD
  }

  /** Pass one on a single line from token `i`: every LABEL token met before
      the first ID or WORD token is entered with address `4 * count`; a name
      already in the table is an error. The flag says whether the line counts. */
  function ScanLabels(line: Line, i: nat, table: SymbolTable, count: nat): Res<(SymbolTable, bool)>
    decreases |line| - i
  {
    if i >= |line| then Ok((table, false))
    else if IsInstrToken(line[i]) then Ok((table, true))
    else if line[i].kind == LABEL then
      var l := DropLast(line[i].lexeme);
      if l in table then Err(DuplicateLabel(l))
      else ScanLabels(line, i + 1, table[l := 4 * count], count)
    else ScanLabels(line, i + 1, table, count)
  }

  /** Pass one over all lines: the label table and the number of lines that count. */
  function FirstPass(lines: seq<Line>): Res<(SymbolTable, nat)>
    decreases |lines|
  {
    if lines == [] then Ok((map[], 0))
    else
      var before :- FirstPass(lines[..|lines| - 1]);
      var after :- ScanLabels(lines[|lines| - 1], 0, before.0, before.1);
      Ok((after.0, if after.1 then before.1 + 1 else before.1))
  }

  // Reference definitions for pass one.

  /** The labels a line defines: its LABEL tokens before its first ID or WORD token. */
  function LineDefs(line: Line, i: nat): seq<string>
    decreases |line| - i
  {
    if i >= |line| || IsInstrToken(line[i]) then []
    else if line[i].kind == LABEL then [DropLast(line[i].lexeme)] + LineDefs(line, i + 1)
    else LineDefs(line, i + 1)
  }

  /** Whether a line holds an ID or WORD token at or after `i`. */
  predicate HasInstr(line: Line, i: nat)
  {
    exists j :: i <= j < |line| && IsInstrToken(line[j])
  }

  /** All label definitions, line by line. */
  function AllDefs(lines: seq<Line>): seq<string>
    decreases |lines|
  {
    if lines == [] then [] else AllDefs(lines[..|lines| - 1]) + LineDefs(lines[|lines| - 1], 0)
  }

  /** The number of lines holding an ID or WORD token. */
  function CountedLines(lines: seq<Line>): nat
    decreases |lines|
  {
    if lines == [] then 0
    else CountedLines(lines[..|lines| - 1]) + (if HasInstr(lines[|lines| - 1], 0) then 1 else 0)
  }

  /** The table with every name of `names` mapped to `v`. */
  function Extend(table: SymbolTable, names: seq<string>, v: nat): (r: SymbolTable)
    ensures forall l :: l in r <==> l in table || l in names
    ensures forall l :: l in r ==> r[l] == if l in names then v else table[l]
    decreases |names|
  {
    if names == [] then table else Extend(table[names[0] := v], names[1..], v)
  }

  lemma DistinctAppend(a: seq<string>, b: seq<string>)
    ensures Distinct(a + b) <==> Distinct(a) && Distinct(b) && (forall x :: x in a ==> x !in b)
  {
    var ab := a + b;
    if Distinct(ab) {
      forall i, j | 0 <= i < j < |a| ensures a[i] != a[j] {
        assert a[i] == ab[i] && a[j] == ab[j];
      }
      forall i, j | 0 <= i < j < |b| ensures b[i] != b[j] {
        assert b[i] == ab[|a| + i] && b[j] == ab[|a| + j];
      }
      forall x | x in a ensures x !in b {
        var i :| 0 <= i < |a| && a[i] == x;
        forall j | 0 <= j < |b| ensures b[j] != x {
          assert ab[i] == a[i] && ab[|a| + j] == b[j];
        }
      }
    }
    if Distinct(a) && Distinct(b) && (forall x :: x in a ==> x !in b) {
      forall i, j | 0 <= i < j < |ab| ensures ab[i] != ab[j] {
        if j < |a| {
          assert ab[i] == a[i] && ab[j] == a[j];
        } else if i >= |a| {
          assert ab[i] == b[i - |a|] && ab[j] == b[j - |a|];
        } else {
          assert ab[i] == a[i] && ab[j] == b[j - |a|];
          assert a[i] in a && b[j - |a|] in b;
        }
      }
    }
  }

  /** Pass one on a line succeeds exactly when the line's labels are distinct
      and new; it then adds exactly those labels, each with address 4 * count,
      and reports whether the line holds an instruction. */
  lemma {:induction false} ScanLabelsSpec(line: Line, i: nat, table: SymbolTable, count: nat)
    ensures ScanLabels(line, i, table, count).Ok?
      <==> Distinct(LineDefs(line, i)) && forall l :: l in LineDefs(line, i) ==> l !in table
    ensures ScanLabels(line, i, table, count).Ok? ==>
      ScanLabels(line, i, table, count).value == (Extend(table, LineDefs(line, i), 4 * count), HasInstr(line, i))
    decreases |line| - i
  {
    if i >= |line| {
    } else if IsInstrToken(line[i]) {
      assert HasInstr(line, i);
    } else {
      assert HasInstr(line, i) == HasInstr(line, i + 1) by {
        if HasInstr(line, i) {
          var j :| i <= j < |line| && IsInstrToken(line[j]);
          assert j != i;
        }
      }
      if line[i].kind == LABEL {
        var l := DropLast(line[i].lexeme);
        var rest := LineDefs(line, i + 1);
        assert LineDefs(line, i) == [l] + rest;
        assert ([l] + rest)[1..] == rest;
        DistinctAppend([l], rest);
        if l !in table {
          ScanLabelsSpec(line, i + 1, table[l := 4 * count], count);
        }
      } else {
        ScanLabelsSpec(line, i + 1, table, count);
      }
    }
  }

  /** A failure of pass one on a prefix of the lines is the failure of the whole pass. */
  lemma {:induction false} FirstPassErrExtends(lines: seq<Line>, k: nat)
    requires k <= |lines| && FirstPass(lines[..k]).Err?
    ensures FirstPass(lines) == FirstPass(lines[..k])
    decreases |lines| - k
  {
    if k < |lines| {
      assert lines[..k + 1][..k] == lines[..k];
      FirstPassErrExtends(lines, k + 1);
    } else {
      assert lines[..k] == lines;
    }
  }

  lemma {:induction false} LineDefsInAll(lines: seq<Line>, k: nat)
    requires k < |lines|
    ensures forall l :: l in LineDefs(lines[k], 0) ==> l in AllDefs(lines)
    decreases |lines|
  {
    var n := |lines| - 1;
    if k < n {
      LineDefsInAll(lines[..n], k);
      assert lines[..n][k] == lines[k];
    }
  }

  /** Pass one succeeds exactly when no label is defined twice; it then maps
      precisely the defined labels and counts the instruction lines. */
  lemma {:induction false} FirstPassSpec(lines: seq<Line>)
    ensures FirstPass(lines).Ok? <==> Distinct(AllDefs(lines))
    ensures FirstPass(lines).Ok? ==>
      FirstPass(lines).value.1 == CountedLines(lines) &&
      (forall l :: l in FirstPass(lines).value.0 <==> l in AllDefs(lines))
    decreases |lines|
  {
    if lines != [] {
      var n := |lines| - 1;
      var prefix, last := lines[..n], lines[n];
      FirstPassSpec(prefix);
      DistinctAppend(AllDefs(prefix), LineDefs(last, 0));
      if FirstPass(prefix).Ok? {
        var before := FirstPass(prefix).value;
        ScanLabelsSpec(last, 0, before.0, before.1);
      }
    }
  }

  /** After a successful pass one, each label a line defines maps to four
      times the number of instruction lines before that line. */
  lemma {:induction false} FirstPassAddresses(lines: seq<Line>)
    requires FirstPass(lines).Ok?
    ensures forall k, l :: 0 <= k < |lines| && l in LineDefs(lines[k], 0) ==>
      l in FirstPass(lines).value.0 && FirstPass(lines).value.0[l] == 4 * CountedLines(lines[..k])
    decreases |lines|
  {
    if lines != [] {
      var n := |lines| - 1;
      var prefix, last := lines[..n], lines[n];
      var before := FirstPass(prefix).value;
      FirstPassAddresses(prefix);
      FirstPassSpec(prefix);
      ScanLabelsSpec(last, 0, before.0, before.1);
      var table := FirstPass(lines).value.0;
      forall k, l | 0 <= k < |lines| && l in LineDefs(lines[k], 0)
        ensures l in table && table[l] == 4 * CountedLines(lines[..k])
      {
        if k < n {
          assert prefix[k] == lines[k];
          assert prefix[..k] == lines[..k];
          LineDefsInAll(prefix, k);
        } else {
          assert lines[..k] == prefix;
        }
      }
    }
  }

  /** Pass one as a method: a loop over the lines and, inside it, a loop over
      the tokens of the line that stops at the first ID or WORD token. */
  method BuildSymbolTable(lines: seq<Line>) returns (r: Res<SymbolTable>)
    ensures r == match FirstPass(lines) case Ok(p) => Ok(p.0) case Err(e) => Err(e)
  {
    var table: SymbolTable := map[];
    var count: nat := 0;
    var k := 0;
    while k < |lines|
      invariant 0 <= k <= |lines|
      invariant FirstPass(lines[..k]) == Ok((table, count))
    {
      var line := lines[k];
      var t: SymbolTable := table;
      var counted := false;
      var i := 0;
      while i < |line|
        invariant 0 <= i <= |line|
        invariant ScanLabels(line, 0, table, count) == ScanLabels(line, i, t, count)
      {
        if IsInstrToken(line[i]) {
          counted := true;
          break;
        } else if line[i].kind == LABEL {
          var l := DropLast(line[i].lexeme);
          if l in t {
            assert lines[..k + 1][..k] == lines[..k];
            FirstPassErrExtends(lines, k + 1);
            return Err(DuplicateLabel(l));
          }
          t := t[l := 4 * count];
        }
        i := i + 1;
      }
      assert ScanLabels(line, 0, table, count) == Ok((t, counted));
      assert lines[..k + 1][..k] == lines[..k];
      table := t;
      count := if counted then count + 1 else count;
      k := k + 1;
    }
    assert lines[..k] == lines;
    return Ok(table);
  }

  // ------------------------------------------------------------------
  // Pass two
  // ------------------------------------------------------------------

  /** Tokens at which the pass-two instruction counter advances: a WORD, or
      an ID whose lexeme is not a label name. */
  predicate Advances(tok: Token, table: SymbolTable)
  {
    tok.kind == WORD || (tok.kind == ID && tok.lexeme !in table)
  }

  /** The operand at index `j`: it must exist and be of one of `kinds`. */
  function Operand(line: Line, j: nat, kinds: set<Kind>): (r: Res<Token>)
    ensures r.Ok? <==> j < |line| && line[j].kind in kinds
    ensures r.Ok? ==> r.value == line[j]
  {
    if j >= |line| then Err(NotEnoughTokens)
    else if line[j].kind in kinds then Ok(line[j])
    else Err(UnexpectedKind(line[j].kind))
  }

  /** A register operand through the register range check. */
  function Register(tok: Token): (r: Res<bv32>)
    ensures r.Ok? <==> RegInRange(Narrow32(tok.value))
    ensures r.Ok? ==> r.value < 32
  {
    var v := Narrow32(tok.value);
    if RegInRange(v) then Ok(v as bv32) else Err(RegisterOutOfRange(v))
  }

  /** A numeric immediate through the decimal or hexadecimal range check,
      as its low 16 bits. The check sees the value narrowed to 32 bits, and
      narrowing keeps the low 16 bits, so they are taken from the narrowed value. */
  function Immediate(tok: Token): (r: Res<bv32>)
    requires tok.kind == INT || tok.kind == HEXINT
    ensures r.Ok? <==>
      if tok.kind == INT then DecImmInRange(Narrow32(tok.value)) else HexImmInRange(Narrow32(tok.value))
    ensures r.Ok? ==> r.value == Low16(Narrow32(tok.value))
  {
    var v := Narrow32(tok.value);
    if tok.kind == INT && !DecImmInRange(v) then Err(ImmediateOutOfRange(v))
    else if tok.kind == HEXINT && !HexImmInRange(v) then Err(ImmediateOutOfRange(v))
    else Ok(Low16(v))
  }

  /** The branch offset to a label: the label's instruction index minus the
      counter, which already includes the branch itself. */
  function BranchOffset(table: SymbolTable, name: string, pc: int): int
    requires name in table
  {
    table[name] / 4 - pc
  }

  const ThreeRegister: set<string> := {"add", "sub", "slt", "sltu"}
  const TwoRegister: set<string> := {"mult", "multu", "div", "divu"}
  const DestOnly: set<string> := {"mfhi", "mflo", "lis"}
  const SourceOnly: set<string> := {"jr", "jalr"}
  const Memory: set<string> := {"lw", "sw"}
  const Branch: set<string> := {"beq", "bne"}

  function MakeThree(m: string, d: bv32, s: bv32, t: bv32): Instr
    requires m in ThreeRegister
  {
    if m == "add" then Add(d, s, t) else if m == "sub" then Sub(d, s, t)
    else if m == "slt" then Slt(d, s, t) else Sltu(d, s, t)
  }

  function MakeTwo(m: string, s: bv32, t: bv32): Instr
    requires m in TwoRegister
  {
    if m == "mult" then Mult(s, t) else if m == "multu" then Multu(s, t)
    else if m == "div" then Div(s, t) else Divu(s, t)
  }

  function MakeDest(m: string, d: bv32): Instr
    requires m in DestOnly
  {
    if m == "mfhi" then Mfhi(d) else if m == "mflo" then Mflo(d) else Lis(d)
  }

  function MakeSource(m: string, s: bv32): Instr
    requires m in SourceOnly
  {
    if m == "jr" then Jr(s) else Jalr(s)
  }

  /** The result of one instruction: the words it emits and the next token index. */
  type Step = Res<(seq<Item>, nat)>

  /** `.word n` or `.word label`. */
  function WordDirective(line: Line, i: nat, table: SymbolTable): Step
  {
    var tok :- Operand(line, i + 1, {INT, HEXINT, ID});
    if tok.kind == ID then
      if tok.lexeme !in table then Err(UndeclaredLabel(tok.lexeme))
      else Ok(([Data(Low32(table[tok.lexeme]))], i + 2))
    else if tok.value < 0 || tok.value > 0xFFFF_FFFF then Err(ValueOutOfRange(tok.value))
    else Ok(([Data(tok.value as bv32)], i + 2))
  }

  /** `m $d, $s, $t`; the ranges are checked in the order s, t, d. */
  function ThreeRegisterInstr(line: Line, i: nat, m: string): Step
    requires m in ThreeRegister
  {
    var d :- Operand(line, i + 1, {REG});
    var c1 :- Operand(line, i + 2, {COMMA});
    var s :- Operand(line, i + 3, {REG});
    var c2 :- Operand(line, i + 4, {COMMA});
    var t :- Operand(line, i + 5, {REG});
    var sv :- Register(s);
    var tv :- Register(t);
    var dv :- Register(d);
    Ok(([Code(MakeThree(m, dv, sv, tv))], i + 6))
  }

  /** `m $s, $t`. */
  function TwoRegisterInstr(line: Line, i: nat, m: string): Step
    requires m in TwoRegister
  {
    var s :- Operand(line, i + 1, {REG});
    var c1 :- Operand(line, i + 2, {COMMA});
    var t :- Operand(line, i + 3, {REG});
    var sv :- Register(s);
    var tv :- Register(t);
    Ok(([Code(MakeTwo(m, sv, tv))], i + 4))
  }

  /** `m $d` for mfhi, mflo, lis. */
  function DestInstr(line: Line, i: nat, m: string): Step
    requires m in DestOnly
  {
    var d :- Operand(line, i + 1, {REG});
    var dv :- Register(d);
    Ok(([Code(MakeDest(m, dv))], i + 2))
  }

  /** `m $s` for jr, jalr. */
  function SourceInstr(line: Line, i: nat, m: string): Step
    requires m in SourceOnly
  {
    var s :- Operand(line, i + 1, {REG});
    var sv :- Register(s);
    Ok(([Code(MakeSource(m, sv))], i + 2))
  }

  /** `lw $t, imm($s)` and `sw $t, imm($s)`. */
  function MemoryInstr(line: Line, i: nat, m: string): Step
    requires m in Memory
  {
    var t :- Operand(line, i + 1, {REG});
    var c1 :- Operand(line, i + 2, {COMMA});
    var imm :- Operand(line, i + 3, {INT, HEXINT});
    var lp :- Operand(line, i + 4, {LPAREN});
    var s :- Operand(line, i + 5, {REG});
    var rp :- Operand(line, i + 6, {RPAREN});
    var sv :- Register(s);
    var tv :- Register(t);
    var iv :- Immediate(imm);
    Ok(([Code(if m == "lw" then Lw(tv, iv, sv) else Sw(tv, iv, sv))], i + 7))
  }

  /** `beq`/`bne $s, $t, target` where the target is a number or a label. */
  function BranchInstr(line: Line, i: nat, m: string, table: SymbolTable, pc: int): Step
    requires m in Branch
  {
    var s :- Operand(line, i + 1, {REG});
    var c1 :- Operand(line, i + 2, {COMMA});
    var t :- Operand(line, i + 3, {REG});
    var c2 :- Operand(line, i + 4, {COMMA});
    var imm :- Operand(line, i + 5, {INT, HEXINT, ID});
    var sv :- Register(s);
    var tv :- Register(t);
    var iv :-
      if imm.kind != ID then Immediate(imm)
      else if imm.lexeme !in table then Err(UndeclaredLabel(imm.lexeme))
      else Ok(Low16(BranchOffset(table, imm.lexeme, pc)));
    Ok(([Code(if m == "beq" then Beq(sv, tv, iv) else Bne(sv, tv, iv))], i + 6))
  }

  /** Pass two at the token with index `i`, the counter already advanced to
      `pc`. The lexeme selects the instruction; a token that is no mnemonic is
      skipped when its lexeme less its last character is a label, and is an
      error otherwise. */
  function Instruction(line: Line, i: nat, table: SymbolTable, pc: int): (r: Step)
    requires i < |line|
    ensures r.Ok? ==> i < r.value.1 <= |line| && |r.value.0| <= 1
  {
    var m := line[i].lexeme;
    if m == ".word" then WordDirective(line, i, table)
    else if m in ThreeRegister then ThreeRegisterInstr(line, i, m)
    else if m in TwoRegister then TwoRegisterInstr(line, i, m)
    else if m in DestOnly then DestInstr(line, i, m)
    else OtherInstruction(line, i, table, pc)
  }

  /** The mnemonics with an immediate or a label operand, jr and jalr, and
      the tokens that are no mnemonic. */
  function OtherInstruction(line: Line, i: nat, table: SymbolTable, pc: int): (r: Step)
    requires i < |line|
    ensures r.Ok? ==> i < r.value.1 <= |line| && |r.value.0| <= 1
  {
    var m := line[i].lexeme;
    if m in Memory then MemoryInstr(line, i, m)
    else if m in Branch then BranchInstr(line, i, m, table, pc)
    else if m in SourceOnly then SourceInstr(line, i, m)
    else if DropLast(m) in table then Ok(([], i + 1))
    else Err(UnrecognizedToken(m))
  }

  /** Pass two on a line from token `i` with counter `pc`: the words emitted
      and the counter at the end of the line. */
  function LineWords(line: Line, i: nat, table: SymbolTable, pc: int): Res<(seq<Item>, int)>
    decreases |line| - i
  {
    if i >= |line| then Ok(([], pc))
    else
      var pc' := if Advances(line[i], table) then pc + 1 else pc;
      var step :- Instruction(line, i, table, pc');
      var rest :- LineWords(line, step.1, table, pc');
      Ok((step.0 + rest.0, rest.1))
  }

  /** Pass two over all lines: the words emitted and the final counter. */
  function SecondPass(lines: seq<Line>, table: SymbolTable): Res<(seq<Item>, int)>
    decreases |lines|
  {
    if lines == [] then Ok(([], 0))
    else
      var before :- SecondPass(lines[..|lines| - 1], table);
      var line :- LineWords(lines[|lines| - 1], 0, table, before.1);
      Ok((before.0 + line.0, line.1))
  }

  /** The whole assembler: machine code as bytes, or the first error. */
  function Assembly(lines: seq<Line>): Res<seq<Byte>>
  {
    var symbols :- FirstPass(lines);
    var words :- SecondPass(lines, symbols.0);
    Ok(Bytes(words.0))
  }

  lemma {:induction false} SecondPassErrExtends(lines: seq<Line>, table: SymbolTable, k: nat)
    requires k <= |lines| && SecondPass(lines[..k], table).Err?
    ensures SecondPass(lines, table) == SecondPass(lines[..k], table)
    decreases |lines| - k
  {
    if k < |lines| {
      assert lines[..k + 1][..k] == lines[..k];
      SecondPassErrExtends(lines, table, k + 1);
    } else {
      assert lines[..k] == lines;
    }
  }

  /** `r` with `items` put in front of its items. */
  function Prepend(items: seq<Item>, r: Res<(seq<Item>, int)>): Res<(seq<Item>, int)>
  {
    match r
    case Ok(p) => Ok((items + p.0, p.1))
    case Err(e) => Err(e)
  }

  lemma PrependPrepend(a: seq<Item>, b: seq<Item>, r: Res<(seq<Item>, int)>)
    ensures Prepend(a, Prepend(b, r)) == Prepend(a + b, r)
  {
    if r.Ok? {
      assert a + (b + r.value.0) == (a + b) + r.value.0;
    }
  }

  /** The inner loop of pass two: the token index jumps past each
      instruction and its operands. */
  method EncodeLine(line: Line, table: SymbolTable, pc0: int) returns (r: Res<(seq<Item>, int)>)
    ensures r == LineWords(line, 0, table, pc0)
  {
    var items: seq<Item> := [];
    var pc := pc0;
    var i := 0;
    assert Prepend([], LineWords(line, 0, table, pc0)) == LineWords(line, 0, table, pc0) by {
      assert forall x: seq<Item> :: [] + x == x;
    }
    while i < |line|
      invariant 0 <= i <= |line|
      invariant LineWords(line, 0, table, pc0) == Prepend(items, LineWords(line, i, table, pc))
      decreases |line| - i
    {
      if Advances(line[i], table) {
        pc := pc + 1;
      }
      var step := Instruction(line, i, table, pc);
      if step.Err? {
        return Err(step.error);
      }
      PrependPrepend(items, step.value.0, LineWords(line, step.value.1, table, pc));
      items := items + step.value.0;
      i := step.value.1;
    }
    assert items + [] == items;
    return Ok((items, pc));
  }

  /** Pass two as a method: the lines in order, the counter carried across them. */
  method Encode2(lines: seq<Line>, table: SymbolTable) returns (r: Res<seq<Byte>>)
    ensures r == match SecondPass(lines, table) case Ok(p) => Ok(Bytes(p.0)) case Err(e) => Err(e)
  {
    var out: seq<Byte> := [];
    ghost var words: seq<Item> := [];
    var pc := 0;
    var k := 0;
    while k < |lines|
      invariant 0 <= k <= |lines|
      invariant SecondPass(lines[..k], table) == Ok((words, pc))
      invariant out == Bytes(words)
    {
      var line := EncodeLine(lines[k], table, pc);
      assert lines[..k + 1][..k] == lines[..k];
      if line.Err? {
        SecondPassErrExtends(lines, table, k + 1);
        return Err(line.error);
      }
      BytesAppend(words, line.value.0);
      out := out + Bytes(line.value.0);
      words := words + line.value.0;
      pc := line.value.1;
      k := k + 1;
    }
    assert lines[..k] == lines;
    return Ok(out);
  }

  /** The assembler: pass one, then pass two with the table pass one built. */
  method Assemble(lines: seq<Line>) returns (r: Res<seq<Byte>>)
    ensures r == Assembly(lines)
  {
    var symbols := BuildSymbolTable(lines);
    if symbols.Err? {
      return Err(symbols.error);
    }
    r := Encode2(lines, symbols.value);
  }

  // ------------------------------------------------------------------
  // Properties of single instructions
  // ------------------------------------------------------------------

  /** `.word` emits its number when it lies in 0..2^32-1 and fails otherwise;
      with a label it emits the label's address, and an undeclared label fails. */
  lemma WordDirectiveSpec(line: Line, i: nat, table: SymbolTable, pc: int)
    requires i + 1 < |line| && line[i].lexeme == ".word"
    ensures line[i + 1].kind in {INT, HEXINT} ==>
      (Instruction(line, i, table, pc).Ok? <==> 0 <= line[i + 1].value < TwoTo32) &&
      (Instruction(line, i, table, pc).Ok? ==>
        Instruction(line, i, table, pc).value == ([Data(line[i + 1].value as bv32)], i + 2))
    ensures line[i + 1].kind == ID ==>
      (Instruction(line, i, table, pc).Ok? <==> line[i + 1].lexeme in table) &&
      (Instruction(line, i, table, pc).Ok? ==>
        Instruction(line, i, table, pc).value == ([Data(Low32(table[line[i + 1].lexeme]))], i + 2))
    ensures line[i + 1].kind !in {INT, HEXINT, ID} ==> Instruction(line, i, table, pc).Err?
  {
  }

  /** `beq`/`bne` to a declared label: when both registers pass the range
      check, the one emitted word has the branch opcode, the two registers,
      and the low 16 bits of the label's instruction index minus the counter. */
  lemma BranchToLabel(line: Line, i: nat, table: SymbolTable, pc: int)
    requires i + 5 < |line| && line[i].lexeme in Branch
    requires line[i + 1].kind == REG && line[i + 2].kind == COMMA
    requires line[i + 3].kind == REG && line[i + 4].kind == COMMA && line[i + 5].kind == ID
    requires RegInRange(Narrow32(line[i + 1].value)) && RegInRange(Narrow32(line[i + 3].value))
    ensures var r := Instruction(line, i, table, pc);
      (r.Ok? <==> line[i + 5].lexeme in table) &&
      (r.Ok? ==>
         r.value.1 == i + 6 && |r.value.0| == 1 &&
         var w := ItemWord(r.value.0[0]);
         Opcode(w) == (if line[i].lexeme == "beq" then 4 else 5) &&
         Imm(w) == Low16(table[line[i + 5].lexeme] / 4 - pc))
  {
  }
}
