/** The WLP4 LR parser driver (parser/wlp4parse.cc): a shift/reduce
    automaton over three stacks (grammar symbols, parse trees and
    automaton states) driven by a table of production rules, a transition
    table and a reduction table.  The tables are parameters; the grammar
    text they are read from is not part of this model. */
module Parser {
  import opened Wrappers

  /** An input token: its kind (a terminal of the grammar) and lexeme. */
  datatype Tok = Tok(kind: string, lexeme: string)

  /** A parse tree: a terminal node holds its token, a rule node the
      production it was reduced by and the popped subtrees. */
  datatype Tree = Leaf(tok: Tok) | Node(lhs: string, rhs: seq<string>, children: seq<Tree>)

  datatype Rule = Rule(lhs: string, rhs: seq<string>)

  /** `transitions[state]` lists (symbol, target state) pairs and
      `reductions[state]` lists (rule number, lookahead tag) pairs; a state
      with no entry behaves as an empty list. */
  datatype Tables = Tables(
    rules: seq<Rule>,
    transitions: map<int, seq<(string, int)>>,
    reductions: map<int, seq<(int, string)>>)

  datatype ParseError =
    | ErrorAt(position: nat)   // no transition for the shifted token
    | CannotMatchOnReduce      // a popped symbol differs from the rule's right-hand side
    | ShiftPastEnd             // shift with the whole input consumed
    | EmptyStack               // back() or pop_back() on an empty stack
    | NoSuchRule(rule: int)
    | OutOfFuel

  const EmptyRhs := ".EMPTY"
  const AcceptTag := ".ACCEPT"

  /** The automaton's configuration between two steps. */
  datatype Config = Config(
    symbols: seq<string>, trees: seq<Tree>, states: seq<int>, pos: nat, accepted: bool)

  function Last<T>(s: seq<T>): T
    requires s != []
  {
    s[|s| - 1]
  }

  function DropLast<T>(s: seq<T>): seq<T>
    requires s != []
  {
    s[..|s| - 1]
  }

  /** The input bracketed by BOF and EOF. */
  function Bracket(tokens: seq<Tok>): (input: seq<Tok>)
    ensures |input| == |tokens| + 2 && input[0] == Tok("BOF", "BOF")
    ensures input[|input| - 1] == Tok("EOF", "EOF") && input[1 .. |input| - 1] == tokens
  {
    [Tok("BOF", "BOF")] + tokens + [Tok("EOF", "EOF")]
  }

  /** Empty symbol and tree stacks, the state stack `[0]`, the cursor on BOF. */
  const Initial := Config([], [], [0], 0, false)

  function Transitions(g: Tables, state: int): seq<(string, int)> {
    if state in g.transitions then g.transitions[state] else []
  }

  function Reductions(g: Tables, state: int): seq<(int, string)> {
    if state in g.reductions then g.reductions[state] else []
  }

  // ---------------------------------------------------------------------
  // Table lookups

  /** Index of the first transition from the `k`-th on labelled `sym`. */
  function FirstTransition(entries: seq<(string, int)>, sym: string, k: nat): (r: Option<nat>)
    ensures r.Some? ==>
      k <= r.value < |entries| && entries[r.value].0 == sym
      && (forall q :: k <= q < r.value ==> entries[q].0 != sym)
    ensures r.None? ==> forall q :: k <= q < |entries| ==> entries[q].0 != sym
    decreases |entries| - k
  {
    if k >= |entries| then None
    else if entries[k].0 == sym then Some(k)
    else FirstTransition(entries, sym, k + 1)
  }

  /** A reduction entry applies when its tag is the next token's kind or
      `.ACCEPT`. */
  predicate Applies(entry: (int, string), next: Option<string>) {
    (next.Some? && entry.1 == next.value) || entry.1 == AcceptTag
  }

  /** Index of the first applicable reduction entry from the `k`-th on. */
  function FirstReduction(entries: seq<(int, string)>, next: Option<string>, k: nat): (r: Option<nat>)
    ensures r.Some? ==>
      k <= r.value < |entries| && Applies(entries[r.value], next)
      && (forall q :: k <= q < r.value ==> !Applies(entries[q], next))
    ensures r.None? ==> forall q :: k <= q < |entries| ==> !Applies(entries[q], next)
    decreases |entries| - k
  {
    if k >= |entries| then None
    else if Applies(entries[k], next) then Some(k)
    else FirstReduction(entries, next, k + 1)
  }

  // ---------------------------------------------------------------------
  // One step

  /** Number of right-hand-side symbols popped when the first `i` are
      examined right to left: the scan stops at `.EMPTY`. */
  function Popped(rhs: seq<string>, i: nat): (n: nat)
    requires i <= |rhs|
    ensures n <= i
  {
    if i == 0 || rhs[i - 1] == EmptyRhs then 0 else 1 + Popped(rhs, i - 1)
  }

  datatype Stacks = Stacks(symbols: seq<string>, trees: seq<Tree>, states: seq<int>, children: seq<Tree>)

  /** The reduce loop: examine `rhs[..i]` right to left, popping one entry
      from each stack per symbol and moving the popped tree to the front
      of `children`. */
  function PopRhs(rhs: seq<string>, i: nat, st: Stacks): Result<Stacks, ParseError>
    requires i <= |rhs|
    decreases i
  {
    if i == 0 || rhs[i - 1] == EmptyRhs then Ok(st)
    else if st.symbols == [] then Err(EmptyStack)
    else if rhs[i - 1] != Last(st.symbols) then Err(CannotMatchOnReduce)
    else if st.states == [] then Err(EmptyStack)
    else PopRhs(rhs, i - 1, PopOne(st))
  }

  /** One pop: the tree moves to the front of `children` (if the tree stack
      is not empty). */
  function PopOne(st: Stacks): Stacks
    requires st.symbols != [] && st.states != []
  {
    if st.trees != [] then
      Stacks(DropLast(st.symbols), DropLast(st.trees), DropLast(st.states), [Last(st.trees)] + st.children)
    else Stacks(DropLast(st.symbols), st.trees, DropLast(st.states), st.children)
  }

  /** The symbols the reduce loop expects on top of the symbol stack. */
  predicate RhsOnTop(rhs: seq<string>, i: nat, st: Stacks)
    requires i <= |rhs|
  {
    var n := Popped(rhs, i);
    n <= |st.symbols| && n <= |st.states| && st.symbols[|st.symbols| - n..] == rhs[i - n .. i]
  }

  /** The reduce loop succeeds exactly when the `n` symbols it pops (the
      right-hand side after its last `.EMPTY`) are on top of the symbol
      stack and the state stack holds `n` states. */
  lemma {:induction false} PopRhsSucceeds(rhs: seq<string>, i: nat, st: Stacks)
    requires i <= |rhs|
    ensures PopRhs(rhs, i, st).Ok? <==> RhsOnTop(rhs, i, st)
    decreases i
  {
    if i == 0 || rhs[i - 1] == EmptyRhs {
      assert st.symbols[|st.symbols|..] == [];
      assert rhs[i .. i] == [];
    } else if st.symbols != [] && rhs[i - 1] == Last(st.symbols) && st.states != [] {
      PopRhsSucceeds(rhs, i - 1, PopOne(st));
      OnTopStep(rhs, i, st);
    } else if st.symbols != [] && rhs[i - 1] != Last(st.symbols) {
      var n := Popped(rhs, i);
      if n <= |st.symbols| {
        assert st.symbols[|st.symbols| - n..][n - 1] == Last(st.symbols);
        assert rhs[i - n .. i][n - 1] == rhs[i - 1];
      }
    }
  }

  /** Popping a matching top symbol leaves the rest of the right-hand
      side on top exactly when the whole of it was. */
  lemma OnTopStep(rhs: seq<string>, i: nat, st: Stacks)
    requires 0 < i <= |rhs| && rhs[i - 1] != EmptyRhs
    requires st.symbols != [] && st.states != [] && rhs[i - 1] == Last(st.symbols)
    ensures RhsOnTop(rhs, i, st) <==> RhsOnTop(rhs, i - 1, PopOne(st))
  {
    var q := PopOne(st);
    var n := Popped(rhs, i);
    var m := Popped(rhs, i - 1);
    assert n == m + 1;
    assert q.symbols == DropLast(st.symbols) && |q.states| + 1 == |st.states|;
    if m <= |q.symbols| {
      var a := q.symbols[|q.symbols| - m..];
      var b := rhs[i - 1 - m .. i - 1];
      assert st.symbols[|st.symbols| - n..] == a + [Last(st.symbols)];
      assert rhs[i - n .. i] == b + [rhs[i - 1]];
      if a + [Last(st.symbols)] == b + [rhs[i - 1]] {
        assert a == (a + [Last(st.symbols)])[..m];
        assert b == (b + [rhs[i - 1]])[..m];
      }
    }
  }

  /** When it succeeds, the reduce loop pops `n` entries from the symbol
      and state stacks, and the trees it pops become the children in their
      stack order: none is lost, none is reordered. */
  lemma {:induction false} PopRhsPops(rhs: seq<string>, i: nat, st: Stacks)
    requires i <= |rhs|
    ensures var n := Popped(rhs, i); var r := PopRhs(rhs, i, st);
      r.Ok? ==>
        n <= |st.symbols| && n <= |st.states|
        && r.value.symbols == st.symbols[..|st.symbols| - n]
        && r.value.states == st.states[..|st.states| - n]
        && r.value.trees + r.value.children == st.trees + st.children
        && (|st.trees| == |st.symbols| ==>
              |r.value.trees| == |r.value.symbols| && |r.value.children| == |st.children| + n)
    decreases i
  {
    if i == 0 || rhs[i - 1] == EmptyRhs {
      assert st.symbols[..|st.symbols|] == st.symbols && st.states[..|st.states|] == st.states;
    } else if st.symbols != [] && rhs[i - 1] == Last(st.symbols) && st.states != [] {
      var q := PopOne(st);
      PopRhsPops(rhs, i - 1, q);
      if PopRhs(rhs, i, st).Ok? {
        var n := Popped(rhs, i);
        var m := n - 1;
        var r := PopRhs(rhs, i - 1, q).value;
        assert r.symbols == q.symbols[..|q.symbols| - m] == st.symbols[..|st.symbols| - n];
        assert r.states == q.states[..|q.states| - m] == st.states[..|st.states| - n];
        if st.trees != [] {
          assert q.trees + q.children == st.trees + st.children;
        }
      }
    }
  }

  /** Shift: push the next token's kind, its terminal node and the
      transition target, then advance the cursor. */
  function Shift(g: Tables, input: seq<Tok>, c: Config, state: int): Result<Config, ParseError> {
    if c.pos >= |input| then Err(ShiftPastEnd)
    else
      var tok := input[c.pos];
      var entries := Transitions(g, state);
      match FirstTransition(entries, tok.kind, 0)
      case None => Err(ErrorAt(c.pos))
      case Some(m) =>
        Ok(Config(c.symbols + [tok.kind], c.trees + [Leaf(tok)], c.states + [entries[m].1],
                  c.pos + 1, c.accepted))
  }

  /** Reduce by rule `n`: pop the right-hand side, push the left-hand side
      and the new node, and push the transition on the left-hand side from
      the state exposed by the pops, if there is one. */
  function Reduce(g: Tables, c: Config, n: int, accepted: bool): Result<Config, ParseError> {
    if !(0 <= n < |g.rules|) then Err(NoSuchRule(n))
    else
      var rule := g.rules[n];
      var p :- PopRhs(rule.rhs, |rule.rhs|, Stacks(c.symbols, c.trees, c.states, []));
      if p.states == [] then Err(EmptyStack)
      else
        var entries := Transitions(g, Last(p.states));
        var states := match FirstTransition(entries, rule.lhs, 0)
          case Some(m) => p.states + [entries[m].1]
          case None => p.states;
        Ok(Config(p.symbols + [rule.lhs], p.trees + [Node(rule.lhs, rule.rhs, p.children)],
                  states, c.pos, accepted))
  }

  /** The next token's kind, if any input is left. */
  function Lookahead(input: seq<Tok>, c: Config): Option<string> {
    if c.pos < |input| then Some(input[c.pos].kind) else None
  }

  /** One iteration of the driver loop. */
  function Step(g: Tables, input: seq<Tok>, c: Config): Result<Config, ParseError> {
    if c.states == [] then Err(EmptyStack)
    else
      var state := Last(c.states);
      var entries := Reductions(g, state);
      var next := Lookahead(input, c);
      match FirstReduction(entries, next, 0)
      case None => Shift(g, input, c, state)
      case Some(m) =>
        var byTag := next.Some? && entries[m].1 == next.value;
        Reduce(g, c, entries[m].0, c.accepted || !byTag)
  }

  /** The loop continues while input is left or nothing was accepted. */
  predicate Running(input: seq<Tok>, c: Config) {
    c.pos < |input| || !c.accepted
  }

  /** At most `fuel` iterations of the loop. */
  function Run(g: Tables, input: seq<Tok>, c: Config, fuel: nat): (r: Result<Config, ParseError>)
    ensures r.Ok? ==> !Running(input, r.value)
    decreases fuel
  {
    if !Running(input, c) then Ok(c)
    else if fuel == 0 then Err(OutOfFuel)
    else
      var next :- Step(g, input, c);
      Run(g, input, next, fuel - 1)
  }

  /** The tree stack when the loop ends; the source prints its last tree. */
  function Parse(g: Tables, tokens: seq<Tok>, fuel: nat): Result<seq<Tree>, ParseError> {
    var c :- Run(g, Bracket(tokens), Initial, fuel);
    Ok(c.trees)
  }

  // ---------------------------------------------------------------------
  // The driver loop

  method FindTransition(entries: seq<(string, int)>, sym: string) returns (r: Option<nat>)
    ensures r == FirstTransition(entries, sym, 0)
  {
    var k := 0;
    while k < |entries|
      invariant 0 <= k <= |entries|
      invariant FirstTransition(entries, sym, 0) == FirstTransition(entries, sym, k)
      decreases |entries| - k
    {
      if entries[k].0 == sym {
        return Some(k);
      }
      k := k + 1;
    }
    return None;
  }

  method FindReduction(entries: seq<(int, string)>, next: Option<string>) returns (r: Option<nat>)
    ensures r == FirstReduction(entries, next, 0)
  {
    var k := 0;
    while k < |entries|
      invariant 0 <= k <= |entries|
      invariant FirstReduction(entries, next, 0) == FirstReduction(entries, next, k)
      decreases |entries| - k
    {
      if (next.Some? && entries[k].1 == next.value) || entries[k].1 == AcceptTag {
        return Some(k);
      }
      k := k + 1;
    }
    return None;
  }

  /** The pop loop of a reduction, over the three stacks. */
  method PopLoop(rhs: seq<string>, symbols0: seq<string>, trees0: seq<Tree>, states0: seq<int>)
    returns (r: Result<Stacks, ParseError>)
    ensures r == PopRhs(rhs, |rhs|, Stacks(symbols0, trees0, states0, []))
  {
    var symbols, trees, states, children := symbols0, trees0, states0, [];
    var i := |rhs|;
    while i > 0
      invariant 0 <= i <= |rhs|
      invariant PopRhs(rhs, |rhs|, Stacks(symbols0, trees0, states0, []))
             == PopRhs(rhs, i, Stacks(symbols, trees, states, children))
      decreases i
    {
      if rhs[i - 1] == EmptyRhs {
        break;
      }
      if symbols == [] {
        return Err(EmptyStack);
      }
      if rhs[i - 1] != Last(symbols) {
        return Err(CannotMatchOnReduce);
      }
      if states == [] {
        return Err(EmptyStack);
      }
      if trees != [] {
        children := [Last(trees)] + children;
        trees := DropLast(trees);
      }
      symbols := DropLast(symbols);
      states := DropLast(states);
      i := i - 1;
    }
    return Ok(Stacks(symbols, trees, states, children));
  }

  /** The driver: BOF and EOF bracket the tokens, the state stack starts
      as `[0]`, and each iteration either shifts or reduces. */
  method ParseTokens(g: Tables, tokens: seq<Tok>, fuel0: nat) returns (r: Result<seq<Tree>, ParseError>)
    ensures r == Parse(g, tokens, fuel0)
  {
    var unread := Bracket(tokens);
    var stack: seq<string> := [];
    var parseTreeStack: seq<Tree> := [];
    var stateStack: seq<int> := [0];
    var position: nat := 0;
    var accepted := false;
    var fuel := fuel0;
    while position < |unread| || !accepted
      invariant Run(g, unread, Initial, fuel0)
             == Run(g, unread, Config(stack, parseTreeStack, stateStack, position, accepted), fuel)
      decreases fuel
    {
      if fuel == 0 {
        return Err(OutOfFuel);
      }
      ghost var c := Config(stack, parseTreeStack, stateStack, position, accepted);
      if stateStack == [] {
        return Err(EmptyStack);
      }
      var currentState := Last(stateStack);
      var reductions := Reductions(g, currentState);
      var next := if position < |unread| then Some(unread[position].kind) else None;
      var found := FindReduction(reductions, next);
      if found.None? {
        // shift
        if position >= |unread| {
          return Err(ShiftPastEnd);
        }
        var tok := unread[position];
        var transitions := Transitions(g, currentState);
        var target := FindTransition(transitions, tok.kind);
        if target.None? {
          return Err(ErrorAt(position));
        }
        stack := stack + [tok.kind];
        parseTreeStack := parseTreeStack + [Leaf(tok)];
        stateStack := stateStack + [transitions[target.value].1];
        position := position + 1;
        assert Shift(g, unread, c, currentState) == Ok(Config(stack, parseTreeStack, stateStack, position, accepted));
      } else {
        // reduce
        var entry := reductions[found.value];
        if !(next.Some? && entry.1 == next.value) {
          accepted := true;
        }
        var ruleNumber := entry.0;
        if !(0 <= ruleNumber < |g.rules|) {
          return Err(NoSuchRule(ruleNumber));
        }
        var rule := g.rules[ruleNumber];
        var popped := PopLoop(rule.rhs, stack, parseTreeStack, stateStack);
        if popped.Err? {
          return Err(popped.error);
        }
        var p := popped.value;
        if p.states == [] {
          return Err(EmptyStack);
        }
        var transitions := Transitions(g, Last(p.states));
        var target := FindTransition(transitions, rule.lhs);
        stack := p.symbols + [rule.lhs];
        parseTreeStack := p.trees + [Node(rule.lhs, rule.rhs, p.children)];
        stateStack := if target.Some? then p.states + [transitions[target.value].1] else p.states;
        assert Reduce(g, c, ruleNumber, accepted) == Ok(Config(stack, parseTreeStack, stateStack, position, accepted));
      }
      assert Step(g, unread, c) == Ok(Config(stack, parseTreeStack, stateStack, position, accepted));
      fuel := fuel - 1;
    }
    return Ok(parseTreeStack);
  }

  // ---------------------------------------------------------------------
  // Properties

  /** The grammar symbol a tree stands for. */
  function Root(t: Tree): string {
    match t
    case Leaf(tok) => tok.kind
    case Node(lhs, _, _) => lhs
  }

  function Roots(ts: seq<Tree>): (r: seq<string>)
    ensures |r| == |ts| && forall k :: 0 <= k < |ts| ==> r[k] == Root(ts[k])
  {
    seq(|ts|, k requires 0 <= k < |ts| => Root(ts[k]))
  }

  /** The tokens at the leaves of a tree, left to right. */
  function Yield(t: Tree): seq<Tok>
    decreases t, 1
  {
    match t
    case Leaf(tok) => [tok]
    case Node(_, _, cs) => Yields(cs)
  }

  function Yields(ts: seq<Tree>): seq<Tok>
    decreases ts, 0
  {
    if ts == [] then [] else Yield(ts[0]) + Yields(ts[1..])
  }

  /** Every rule node's children stand, in order, for the symbols its rule
      pops: the right-hand side after its last `.EMPTY`. */
  predicate Derivation(t: Tree)
    decreases t
  {
    match t
    case Leaf(_) => true
    case Node(lhs, rhs, cs) =>
      Roots(cs) == rhs[|rhs| - Popped(rhs, |rhs|)..]
      && forall k :: 0 <= k < |cs| ==> Derivation(cs[k])
  }

  /** What every configuration reached from `Initial` satisfies: the
      symbol stack lists the roots of the tree stack (so the two have equal
      length), every tree is a derivation, and the trees' leaves are the
      input consumed so far. */
  predicate Inv(input: seq<Tok>, c: Config) {
    Roots(c.trees) == c.symbols && c.pos <= |input|
    && Yields(c.trees) == input[..c.pos]
    && forall k :: 0 <= k < |c.trees| ==> Derivation(c.trees[k])
  }

  lemma {:induction false} YieldsAppend(a: seq<Tree>, b: seq<Tree>)
    ensures Yields(a + b) == Yields(a) + Yields(b)
  {
    if a != [] {
      assert (a + b)[0] == a[0] && (a + b)[1..] == a[1..] + b;
      YieldsAppend(a[1..], b);
    } else {
      assert a + b == b;
    }
  }

  lemma InitialInv(input: seq<Tok>)
    ensures Inv(input, Initial)
  {
    assert input[..0] == [];
  }

  lemma ShiftInv(g: Tables, input: seq<Tok>, c: Config, state: int)
    requires Inv(input, c) && Shift(g, input, c, state).Ok?
    ensures Inv(input, Shift(g, input, c, state).value)
  {
    var d := Shift(g, input, c, state).value;
    var tok := input[c.pos];
    YieldsAppend(c.trees, [Leaf(tok)]);
    assert Yields([Leaf(tok)]) == [tok];
    assert input[..c.pos + 1] == input[..c.pos] + [tok];
    assert d.trees == c.trees + [Leaf(tok)];
    assert Roots(d.trees) == Roots(c.trees) + [tok.kind];
  }

  /** The pops of a reduction, from a configuration that keeps the
      invariant, leave the bottom of the tree stack in place and give a
      rule node whose children are exactly the popped trees. */
  lemma PopsSplit(rule: Rule, c: Config, p: Stacks)
    requires Roots(c.trees) == c.symbols
    requires PopRhs(rule.rhs, |rule.rhs|, Stacks(c.symbols, c.trees, c.states, [])) == Ok(p)
    ensures var m := Popped(rule.rhs, |rule.rhs|);
      m <= |c.trees| && p.trees == c.trees[..|c.trees| - m] && p.children == c.trees[|c.trees| - m..]
      && p.symbols == c.symbols[..|c.trees| - m]
  {
    var st := Stacks(c.symbols, c.trees, c.states, []);
    PopRhsPops(rule.rhs, |rule.rhs|, st);
    var m := Popped(rule.rhs, |rule.rhs|);
    assert |p.trees| == |c.symbols| - m;
    assert p.trees + p.children == c.trees + [];
    SplitAppend(p.trees, p.children, c.trees);
  }

  /** The node a reduction builds is a derivation. */
  lemma PoppedNode(rule: Rule, c: Config, p: Stacks)
    requires Roots(c.trees) == c.symbols && forall k :: 0 <= k < |c.trees| ==> Derivation(c.trees[k])
    requires PopRhs(rule.rhs, |rule.rhs|, Stacks(c.symbols, c.trees, c.states, [])) == Ok(p)
    ensures Derivation(Node(rule.lhs, rule.rhs, p.children))
  {
    PopsSplit(rule, c, p);
    PopRhsSucceeds(rule.rhs, |rule.rhs|, Stacks(c.symbols, c.trees, c.states, []));
    TopDerivation(rule, c, Popped(rule.rhs, |rule.rhs|), p.children);
  }

  lemma TopDerivation(rule: Rule, c: Config, m: nat, children: seq<Tree>)
    requires Roots(c.trees) == c.symbols && forall k :: 0 <= k < |c.trees| ==> Derivation(c.trees[k])
    requires m == Popped(rule.rhs, |rule.rhs|) && m <= |c.trees|
    requires children == c.trees[|c.trees| - m..]
    requires c.symbols[|c.symbols| - m..] == rule.rhs[|rule.rhs| - m..]
    ensures Derivation(Node(rule.lhs, rule.rhs, children))
  {
    var len := |c.trees|;
    RootsSuffix(c.trees, len - m);
    assert Roots(children) == rule.rhs[|rule.rhs| - m..];
    forall k | 0 <= k < |children| ensures Derivation(children[k]) {
      assert children[k] == c.trees[len - m + k];
    }
  }

  lemma RootsSuffix(ts: seq<Tree>, k: nat)
    requires k <= |ts|
    ensures Roots(ts[k..]) == Roots(ts)[k..]
  {
    var a, b := Roots(ts[k..]), Roots(ts)[k..];
    assert |a| == |b|;
    forall q | 0 <= q < |a| ensures a[q] == b[q] {
      assert ts[k..][q] == ts[k + q];
    }
  }

  lemma SplitAppend<T>(a: seq<T>, b: seq<T>, c: seq<T>)
    requires a + b == c
    ensures a == c[..|a|] && b == c[|a|..]
  {
  }

  /** A successful reduction pushes the rule node over what the pops
      left, and its left-hand side over the popped symbol stack. */
  lemma ReduceShape(g: Tables, c: Config, n: int, accepted: bool)
    requires Reduce(g, c, n, accepted).Ok?
    ensures 0 <= n < |g.rules|
    ensures var rule := g.rules[n];
      var p := PopRhs(rule.rhs, |rule.rhs|, Stacks(c.symbols, c.trees, c.states, []));
      var d := Reduce(g, c, n, accepted).value;
      p.Ok? && d.trees == p.value.trees + [Node(rule.lhs, rule.rhs, p.value.children)]
      && d.symbols == p.value.symbols + [rule.lhs] && d.pos == c.pos
  {
  }

  lemma ReduceInv(g: Tables, input: seq<Tok>, c: Config, n: int, accepted: bool)
    requires Inv(input, c) && Reduce(g, c, n, accepted).Ok?
    ensures Inv(input, Reduce(g, c, n, accepted).value)
  {
    ReduceShape(g, c, n, accepted);
    PopsInv(input, c, g.rules[n], Reduce(g, c, n, accepted).value);
  }

  /** A configuration with the popped trees replaced by the rule node
      keeps the invariant. */
  lemma PopsInv(input: seq<Tok>, c: Config, rule: Rule, d: Config)
    requires Inv(input, c)
    requires var p := PopRhs(rule.rhs, |rule.rhs|, Stacks(c.symbols, c.trees, c.states, []));
      p.Ok? && d.trees == p.value.trees + [Node(rule.lhs, rule.rhs, p.value.children)]
      && d.symbols == p.value.symbols + [rule.lhs] && d.pos == c.pos
    ensures Inv(input, d)
  {
    var p := PopRhs(rule.rhs, |rule.rhs|, Stacks(c.symbols, c.trees, c.states, [])).value;
    PopsSplit(rule, c, p);
    PoppedNode(rule, c, p);
    NodeOnTop(input, c, p.trees, p.children, p.symbols, Node(rule.lhs, rule.rhs, p.children), d);
  }

  lemma NodeOnTop(input: seq<Tok>, c: Config, trees: seq<Tree>, children: seq<Tree>, symbols: seq<string>,
                  node: Tree, d: Config)
    requires Inv(input, c) && node.Node? && node.children == children && Derivation(node)
    requires |trees| <= |c.trees| && trees == c.trees[..|trees|] && children == c.trees[|trees|..]
    requires symbols == c.symbols[..|trees|]
    requires d.trees == trees + [node] && d.symbols == symbols + [node.lhs] && d.pos == c.pos
    ensures Inv(input, d)
  {
    RootsPrefix(c.trees, |trees|);
    RootsSnoc(trees, node);
    NodeYield(trees, children, node, c.trees);
    forall k | 0 <= k < |d.trees| ensures Derivation(d.trees[k]) {
      if k < |trees| {
        assert d.trees[k] == c.trees[k];
      }
    }
  }

  /** Replacing the popped trees by a node over them keeps the leaves. */
  lemma NodeYield(trees: seq<Tree>, children: seq<Tree>, node: Tree, all: seq<Tree>)
    requires node.Node? && node.children == children && all == trees + children
    ensures Yields(trees + [node]) == Yields(all)
  {
    YieldsAppend(trees, [node]);
    YieldsAppend(trees, children);
    assert [node][1..] == [];
    assert Yields([node]) == Yield(node) + [];
  }

  lemma RootsPrefix(ts: seq<Tree>, k: nat)
    requires k <= |ts|
    ensures Roots(ts[..k]) == Roots(ts)[..k]
  {
    var a, b := Roots(ts[..k]), Roots(ts)[..k];
    assert |a| == |b|;
    forall q | 0 <= q < |a| ensures a[q] == b[q] {
      assert ts[..k][q] == ts[q];
    }
  }

  lemma RootsSnoc(ts: seq<Tree>, t: Tree)
    ensures Roots(ts + [t]) == Roots(ts) + [Root(t)]
  {
    var a, b := Roots(ts + [t]), Roots(ts) + [Root(t)];
    assert |a| == |b|;
    forall q | 0 <= q < |a| ensures a[q] == b[q] {
      assert (ts + [t])[q] == if q < |ts| then ts[q] else t;
    }
  }

  /** Every step keeps the invariant. */
  lemma StepInv(g: Tables, input: seq<Tok>, c: Config)
    requires Inv(input, c) && Step(g, input, c).Ok?
    ensures Inv(input, Step(g, input, c).value)
  {
    var state := Last(c.states);
    var entries := Reductions(g, state);
    var next := Lookahead(input, c);
    match FirstReduction(entries, next, 0)
    case None => ShiftInv(g, input, c, state);
    case Some(m) =>
      var byTag := next.Some? && entries[m].1 == next.value;
      ReduceInv(g, input, c, entries[m].0, c.accepted || !byTag);
  }

  lemma {:induction false} RunInv(g: Tables, input: seq<Tok>, c: Config, fuel: nat)
    requires Inv(input, c) && Run(g, input, c, fuel).Ok?
    ensures Inv(input, Run(g, input, c, fuel).value)
    decreases fuel
  {
    if Running(input, c) {
      StepInv(g, input, c);
      RunInv(g, input, Step(g, input, c).value, fuel - 1);
    }
  }

  /** When the loop ends, the trees' leaves are the whole bracketed input,
      BOF and EOF included, every tree is a derivation, and the symbol
      stack lists the trees' roots; a single remaining tree (the one the
      source prints) therefore yields the whole input. */
  lemma ParseYield(g: Tables, tokens: seq<Tok>, fuel: nat)
    ensures Parse(g, tokens, fuel).Ok? ==>
      var trees := Parse(g, tokens, fuel).value;
      Yields(trees) == Bracket(tokens)
      && (forall k :: 0 <= k < |trees| ==> Derivation(trees[k]))
      && (|trees| == 1 ==> Yield(trees[0]) == Bracket(tokens))
  {
    var input := Bracket(tokens);
    InitialInv(input);
    if Parse(g, tokens, fuel).Ok? {
      RunInv(g, input, Initial, fuel);
      var c := Run(g, input, Initial, fuel).value;
      assert input[..c.pos] == input;
      if |c.trees| == 1 {
        assert c.trees[1..] == [];
      }
    }
  }
}
