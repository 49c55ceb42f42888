/** The WLP4 scanner (scanner/wlp4scan.cc).  Every input line is split
    into whitespace-separated chunks and each chunk is tokenized left to
    right by maximal munch: comments, punctuation, one- and two-character
    operators, keywords, decimal numbers and identifiers.  The first error
    stops the scan. */
module Scanner {
  import opened Wrappers

  datatype Kind =
    | ID | NUM | LPAREN | RPAREN | LBRACE | RBRACE | RETURN | IF | ELSE
    | WHILE | PRINTLN | WAIN | BECOMES | INT | EQ | NE | LT | GT | LE | GE
    | PLUS | MINUS | STAR | SLASH | PCT | COMMA | SEMI | NEW | DELETE
    | LBRACK | RBRACK | AMP | NULL

  datatype Token = Token(kind: Kind, lexeme: string)

  datatype ScanError =
    | BangWithoutEquals
    | NumOutOfRange(digits: string)
    | LeadingZero(digits: string)
    | UnrecognizedCharacter(c: char)

  /** How a keyword is compared with the chunk.  `AsWritten` is the
      comparison the scanner performs: it takes a substring whose length is
      `i + |kw|` instead of `|kw|`, so a keyword only matches at the start
      of a chunk or when it ends the chunk.  `Intended` compares exactly
      the `|kw|` characters at `i`. */
  datatype KeywordRule = AsWritten | Intended

  /** Largest value a NUM token may denote. */
  const MaxNum := 2147483647

  const Keywords: seq<string> :=
    ["return", "if", "else", "while", "println", "wain", "int", "new", "delete", "NULL"]
  const KeywordKinds: seq<Kind> :=
    [RETURN, IF, ELSE, WHILE, PRINTLN, WAIN, INT, NEW, DELETE, NULL]

  // ---------------------------------------------------------------------
  // Character classes (the C locale's isalpha, isdigit and isspace)

  predicate IsAlpha(c: char) { ('a' <= c <= 'z') || ('A' <= c <= 'Z') }

  predicate IsDigit(c: char) { '0' <= c <= '9' }

  predicate IsIdChar(c: char) { IsAlpha(c) || IsDigit(c) }

  predicate IsSpace(c: char) {
    c == ' ' || c == '\t' || c == '\n' || c == '\r' || c == '\U{000B}' || c == '\U{000C}'
  }

  predicate NoSpace(s: string) { forall k :: 0 <= k < |s| ==> !IsSpace(s[k]) }

  predicate AllDigits(s: string) { forall k :: 0 <= k < |s| ==> IsDigit(s[k]) }

  predicate AllIdChars(s: string) { forall k :: 0 <= k < |s| ==> IsIdChar(s[k]) }

  function DigitValue(c: char): (v: nat)
    requires IsDigit(c)
    ensures v < 10
  {
    (c as int) - ('0' as int)
  }

  /** The value of a string of decimal digits (what `stoll` computes). */
  function DecimalValue(d: string): nat
    requires AllDigits(d)
  {
    if d == [] then 0 else DecimalValue(d[..|d| - 1]) * 10 + DigitValue(d[|d| - 1])
  }

  function Min(a: int, b: int): int { if a <= b then a else b }

  /** `s.substr(pos, count)`: at most `count` characters from `pos`. */
  function Substr(s: string, pos: nat, count: nat): (r: string)
    requires pos <= |s|
    ensures |r| == Min(count, |s| - pos)
  {
    s[pos .. Min(pos + count, |s|)]
  }

  // ---------------------------------------------------------------------
  // Maximal runs

  /** End of the maximal run of digits that starts at `k`. */
  function DigitEnd(s: string, k: nat): (e: nat)
    requires k <= |s|
    ensures k <= e <= |s| && AllDigits(s[k..e]) && (e < |s| ==> !IsDigit(s[e]))
    decreases |s| - k
  {
    if k < |s| && IsDigit(s[k]) then DigitEnd(s, k + 1) else k
  }

  /** End of the maximal run of letters and digits that starts at `k`. */
  function IdEnd(s: string, k: nat): (e: nat)
    requires k <= |s|
    ensures k <= e <= |s| && AllIdChars(s[k..e]) && (e < |s| ==> !IsIdChar(s[e]))
    decreases |s| - k
  {
    if k < |s| && IsIdChar(s[k]) then IdEnd(s, k + 1) else k
  }

  // ---------------------------------------------------------------------
  // One token

  function PunctKind(c: char): Option<Kind> {
    if c == '(' then Some(LPAREN)
    else if c == ')' then Some(RPAREN)
    else if c == '{' then Some(LBRACE)
    else if c == '}' then Some(RBRACE)
    else if c == '+' then Some(PLUS)
    else if c == '-' then Some(MINUS)
    else if c == '*' then Some(STAR)
    else if c == '/' then Some(SLASH)
    else if c == '%' then Some(PCT)
    else if c == ',' then Some(COMMA)
    else if c == ';' then Some(SEMI)
    else if c == '[' then Some(LBRACK)
    else if c == ']' then Some(RBRACK)
    else if c == '&' then Some(AMP)
    else None
  }

  /** The comparison of keyword `kw` with the chunk at `i`, under `rule`. */
  predicate Compare(rule: KeywordRule, s: string, i: nat, kw: string)
    requires i + |kw| <= |s|
  {
    match rule
    case AsWritten => Substr(s, i, i + |kw|) == kw
    case Intended => s[i .. i + |kw|] == kw
  }

  /** Keyword `kw` is accepted at `i`: it fits, compares equal and is not
      followed by a letter or digit. */
  predicate KeywordFits(rule: KeywordRule, s: string, i: nat, kw: string) {
    i + |kw| <= |s| && Compare(rule, s, i, kw)
    && (i + |kw| == |s| || !IsIdChar(s[i + |kw|]))
  }

  /** Index of the first entry of `table`, from the `j`-th on, accepted
      at `i`. */
  function FirstFit(rule: KeywordRule, s: string, i: nat, table: seq<string>, j: nat): (r: Option<nat>)
    ensures r.Some? ==>
      j <= r.value < |table| && KeywordFits(rule, s, i, table[r.value])
      && s[i .. i + |table[r.value]|] == table[r.value]
    ensures r.None? ==> forall k :: j <= k < |table| ==> !KeywordFits(rule, s, i, table[k])
    decreases |table| - j
  {
    if j >= |table| then None
    else if KeywordFits(rule, s, i, table[j]) then Some(j)
    else FirstFit(rule, s, i, table, j + 1)
  }

  /** Index of the first keyword, from the `j`-th on, accepted at `i`. */
  function MatchKeyword(rule: KeywordRule, s: string, i: nat, j: nat): (r: Option<nat>)
    ensures r.Some? ==>
      j <= r.value < |Keywords| && KeywordFits(rule, s, i, Keywords[r.value])
      && s[i .. i + |Keywords[r.value]|] == Keywords[r.value]
    ensures r.None? ==> forall k :: j <= k < |Keywords| ==> !KeywordFits(rule, s, i, Keywords[k])
  {
    FirstFit(rule, s, i, Keywords, j)
  }

  /** What the scanner does at one position: stop at a comment, or emit a
      token and continue at `next`. */
  datatype Lexed = Comment | Emit(tok: Token, next: nat)

  predicate CommentAt(s: string, i: nat) {
    i + 1 < |s| && s[i] == '/' && s[i + 1] == '/'
  }

  /** The characters that start a punctuation or operator token. */
  predicate IsOperatorStart(c: char) {
    PunctKind(c).Some? || c == '=' || c == '!' || c == '<' || c == '>'
  }

  /** Punctuation and the one- or two-character operators, by maximal munch. */
  function LexOperator(s: string, i: nat): (r: Result<Lexed, ScanError>)
    requires i < |s| && IsOperatorStart(s[i])
    ensures r.Ok? ==> r.value.Emit? && i < r.value.next <= |s| && r.value.tok.lexeme == s[i .. r.value.next]
  {
    var c := s[i];
    if PunctKind(c).Some? then Ok(Emit(Token(PunctKind(c).value, [c]), i + 1))
    else if c == '=' then
      if i + 1 < |s| && s[i + 1] == '=' then Ok(Emit(Token(EQ, s[i .. i + 2]), i + 2))
      else Ok(Emit(Token(BECOMES, [c]), i + 1))
    else if c == '!' then
      if i + 1 < |s| && s[i + 1] == '=' then Ok(Emit(Token(NE, s[i .. i + 2]), i + 2))
      else Err(BangWithoutEquals)
    else if c == '<' then
      if i + 1 < |s| && s[i + 1] == '=' then Ok(Emit(Token(LE, s[i .. i + 2]), i + 2))
      else Ok(Emit(Token(LT, [c]), i + 1))
    else
      if i + 1 < |s| && s[i + 1] == '=' then Ok(Emit(Token(GE, s[i .. i + 2]), i + 2))
      else Ok(Emit(Token(GT, [c]), i + 1))
  }

  /** A number or an identifier: the maximal digit run if there is one,
      otherwise a letter and the maximal run of letters and digits. */
  function LexNumberOrId(s: string, i: nat): (r: Result<Lexed, ScanError>)
    requires i < |s|
    ensures r.Ok? ==> r.value.Emit? && i < r.value.next <= |s| && r.value.tok.lexeme == s[i .. r.value.next]
  {
    var e := DigitEnd(s, i);
    var digits := s[i .. e];
    if |digits| == 1 then Ok(Emit(Token(NUM, digits), e))
    else if |digits| > 10 then Err(NumOutOfRange(digits))
    else if |digits| >= 2 then
      if digits[0] == '0' then Err(LeadingZero(digits))
      else if DecimalValue(digits) <= MaxNum then Ok(Emit(Token(NUM, digits), e))
      else Err(NumOutOfRange(digits))
    else if IsAlpha(s[i]) then
      var f := IdEnd(s, i + 1);
      Ok(Emit(Token(ID, s[i .. f]), f))
    else Err(UnrecognizedCharacter(s[i]))
  }

  /** A keyword if one is accepted at `i`, otherwise a number or identifier. */
  function LexWord(rule: KeywordRule, s: string, i: nat): (r: Result<Lexed, ScanError>)
    requires i < |s|
    ensures r.Ok? ==> r.value.Emit? && i < r.value.next <= |s| && r.value.tok.lexeme == s[i .. r.value.next]
  {
    match MatchKeyword(rule, s, i, 0)
    case Some(j) => Ok(Emit(Token(KeywordKinds[j], Keywords[j]), i + |Keywords[j]|))
    case None => LexNumberOrId(s, i)
  }

  /** The token that starts at position `i` of chunk `s`. */
  function Lex(rule: KeywordRule, s: string, i: nat): (r: Result<Lexed, ScanError>)
    requires i < |s|
    ensures r.Ok? && r.value.Comment? <==> CommentAt(s, i)
    ensures r.Ok? && r.value.Emit? ==>
      i < r.value.next <= |s| && r.value.tok.lexeme == s[i .. r.value.next]
  {
    if CommentAt(s, i) then Ok(Comment)
    else if IsOperatorStart(s[i]) then LexOperator(s, i)
    else LexWord(rule, s, i)
  }

  // ---------------------------------------------------------------------
  // A chunk, a line, a program

  /** Tokens of a chunk from position `i`, and whether a comment ended it. */
  type ChunkResult = Result<(seq<Token>, bool), ScanError>

  function Prefixed(toks: seq<Token>, r: ChunkResult): ChunkResult {
    match r
    case Ok((t, comment)) => Ok((toks + t, comment))
    case Err(e) => Err(e)
  }

  function ChunkTokens(rule: KeywordRule, s: string, i: nat): ChunkResult
    decreases |s| - i
  {
    if i >= |s| then Ok(([], false))
    else match Lex(rule, s, i)
      case Err(e) => Err(e)
      case Ok(Comment) => Ok(([], true))
      case Ok(Emit(t, j)) => Prefixed([t], ChunkTokens(rule, s, j))
  }

  /** End of the maximal run of non-whitespace characters from `k`. */
  function WordEnd(line: string, k: nat): (e: nat)
    requires k <= |line|
    ensures k <= e <= |line| && NoSpace(line[k..e]) && (e < |line| ==> IsSpace(line[e]))
    decreases |line| - k
  {
    if k < |line| && !IsSpace(line[k]) then WordEnd(line, k + 1) else k
  }

  /** The chunks `lineStream >> s` reads from a line. */
  function Chunks(line: string): (cs: seq<string>)
    ensures forall k :: 0 <= k < |cs| ==> cs[k] != [] && NoSpace(cs[k])
    decreases |line|
  {
    if line == [] then []
    else if IsSpace(line[0]) then Chunks(line[1..])
    else
      var e := WordEnd(line, 0);
      [line[..e]] + Chunks(line[e..])
  }

  function ChunksTokens(rule: KeywordRule, cs: seq<string>): Result<seq<Token>, ScanError> {
    if cs == [] then Ok([])
    else
      var (t, comment) :- ChunkTokens(rule, cs[0], 0);
      if comment then Ok(t)
      else
        var rest :- ChunksTokens(rule, cs[1..]);
        Ok(t + rest)
  }

  function LineTokens(rule: KeywordRule, line: string): Result<seq<Token>, ScanError> {
    ChunksTokens(rule, Chunks(line))
  }

  /** The token stream of a whole program; a comment ends only its line. */
  function ProgramTokens(rule: KeywordRule, lines: seq<string>): Result<seq<Token>, ScanError> {
    if lines == [] then Ok([])
    else
      var t :- LineTokens(rule, lines[0]);
      var rest :- ProgramTokens(rule, lines[1..]);
      Ok(t + rest)
  }

  function Prepended(toks: seq<Token>, r: Result<seq<Token>, ScanError>): Result<seq<Token>, ScanError> {
    match r
    case Ok(t) => Ok(toks + t)
    case Err(e) => Err(e)
  }

  lemma PrefixedPrefixed(a: seq<Token>, b: seq<Token>, r: ChunkResult)
    ensures Prefixed(a, Prefixed(b, r)) == Prefixed(a + b, r)
  {
    if r.Ok? {
      assert a + (b + r.value.0) == (a + b) + r.value.0;
    }
  }

  lemma PrefixedNil(r: ChunkResult)
    ensures Prefixed([], r) == r
  {
    if r.Ok? {
      assert [] + r.value.0 == r.value.0;
    }
  }

  lemma PrependedPrepended(a: seq<Token>, b: seq<Token>, r: Result<seq<Token>, ScanError>)
    ensures Prepended(a, Prepended(b, r)) == Prepended(a + b, r)
  {
    if r.Ok? {
      assert a + (b + r.value) == (a + b) + r.value;
    }
  }

  /** The first chunk of a line, then the rest unless it ended in a comment. */
  lemma ChunksStep(rule: KeywordRule, cs: seq<string>)
    requires |cs| > 0
    ensures ChunksTokens(rule, cs)
            == match ChunkTokens(rule, cs[0], 0)
               case Err(e) => Err(e)
               case Ok((t, comment)) => if comment then Ok(t) else Prepended(t, ChunksTokens(rule, cs[1..]))
  {
  }

  /** The first line, then the rest. */
  lemma LinesStep(rule: KeywordRule, lines: seq<string>)
    requires |lines| > 0
    ensures ProgramTokens(rule, lines)
            == match LineTokens(rule, lines[0])
               case Err(e) => Err(e)
               case Ok(t) => Prepended(t, ProgramTokens(rule, lines[1..]))
  {
  }

  lemma PrependedNil(r: Result<seq<Token>, ScanError>)
    ensures Prepended([], r) == r
  {
    if r.Ok? {
      assert [] + r.value == r.value;
    }
  }

  // ---------------------------------------------------------------------
  // The scanning loops

  /** The keyword loop: the keywords are tried in table order and the
      first one accepted at `i` wins. */
  method FindKeyword(rule: KeywordRule, s: string, i: nat) returns (found: Option<nat>)
    ensures found == MatchKeyword(rule, s, i, 0)
  {
    found := FindIn(rule, s, i, Keywords);
  }

  method FindIn(rule: KeywordRule, s: string, i: nat, table: seq<string>) returns (found: Option<nat>)
    ensures found == FirstFit(rule, s, i, table, 0)
  {
    var j := 0;
    while j < |table|
      invariant 0 <= j <= |table|
      invariant FirstFit(rule, s, i, table, 0) == FirstFit(rule, s, i, table, j)
      decreases |table| - j
    {
      var kw := table[j];
      if i + |kw| <= |s| {
        var same := if rule == AsWritten then Substr(s, i, i + |kw|) == kw else s[i .. i + |kw|] == kw;
        if same && (i + |kw| == |s| || !IsIdChar(s[i + |kw|])) {
          return Some(j);
        }
      }
      j := j + 1;
    }
    return None;
  }

  /** The number and identifier loops, which extend the token one character
      at a time. */
  method ScanNumberOrId(s: string, i: nat) returns (r: Result<Lexed, ScanError>)
    requires i < |s|
    ensures r == LexNumberOrId(s, i)
  {
    var index := i;
    while index < |s| && IsDigit(s[index])
      invariant i <= index <= |s|
      invariant DigitEnd(s, i) == DigitEnd(s, index)
      decreases |s| - index
    {
      index := index + 1;
    }
    var digits := s[i .. index];
    if |digits| == 1 {
      return Ok(Emit(Token(NUM, digits), index));
    } else if |digits| > 10 {
      return Err(NumOutOfRange(digits));
    } else if |digits| >= 2 {
      if digits[0] == '0' {
        return Err(LeadingZero(digits));
      }
      if DecimalValue(digits) <= MaxNum {
        return Ok(Emit(Token(NUM, digits), index));
      }
      return Err(NumOutOfRange(digits));
    }
    if IsAlpha(s[i]) {
      index := i + 1;
      while index < |s| && IsIdChar(s[index])
        invariant i + 1 <= index <= |s|
        invariant IdEnd(s, i + 1) == IdEnd(s, index)
        decreases |s| - index
      {
        index := index + 1;
      }
      return Ok(Emit(Token(ID, s[i .. index]), index));
    }
    return Err(UnrecognizedCharacter(s[i]));
  }

  /** The per-chunk loop: the character index advances past each token
      emitted, and a comment stops the chunk. */
  method ScanChunk(rule: KeywordRule, s: string) returns (r: ChunkResult)
    ensures r == ChunkTokens(rule, s, 0)
  {
    var toks: seq<Token> := [];
    var i := 0;
    PrefixedNil(ChunkTokens(rule, s, 0));
    while i < |s|
      invariant 0 <= i <= |s|
      invariant ChunkTokens(rule, s, 0) == Prefixed(toks, ChunkTokens(rule, s, i))
      decreases |s| - i
    {
      ChunkStep(rule, s, i);
      if s[i] == '/' && i + 1 < |s| && s[i + 1] == '/' {
        assert toks + [] == toks;
        return Ok((toks, true));
      }
      var lexed := ScanToken(rule, s, i);
      if lexed.Err? {
        return Err(lexed.error);
      }
      var tok, next := lexed.value.tok, lexed.value.next;
      PrefixedPrefixed(toks, [tok], ChunkTokens(rule, s, next));
      toks := toks + [tok];
      i := next;
    }
    assert toks + [] == toks;
    return Ok((toks, false));
  }

  /** One step of a chunk: a comment ends it, an error stops it, a token
      is emitted and the rest follows. */
  lemma ChunkStep(rule: KeywordRule, s: string, i: nat)
    requires i < |s|
    ensures CommentAt(s, i) ==> ChunkTokens(rule, s, i) == Ok(([], true))
    ensures !CommentAt(s, i) && Lex(rule, s, i).Err? ==> ChunkTokens(rule, s, i) == Err(Lex(rule, s, i).error)
    ensures !CommentAt(s, i) && Lex(rule, s, i).Ok? ==>
              && Lex(rule, s, i).value.Emit?
              && ChunkTokens(rule, s, i)
                 == Prefixed([Lex(rule, s, i).value.tok], ChunkTokens(rule, s, Lex(rule, s, i).value.next))
  {
  }

  /** The token at `i` of a chunk, where no comment starts. */
  method ScanToken(rule: KeywordRule, s: string, i: nat) returns (lexed: Result<Lexed, ScanError>)
    requires i < |s| && !CommentAt(s, i)
    ensures lexed == Lex(rule, s, i)
  {
    if IsOperatorStart(s[i]) {
      lexed := ScanOperator(s, i);
    } else {
      lexed := ScanWord(rule, s, i);
    }
  }

  /** A keyword when one is spelled here, else a number or an identifier. */
  method ScanWord(rule: KeywordRule, s: string, i: nat) returns (lexed: Result<Lexed, ScanError>)
    requires i < |s|
    ensures lexed == LexWord(rule, s, i)
  {
    var kw := FindKeyword(rule, s, i);
    if kw.Some? {
      lexed := Ok(Emit(Token(KeywordKinds[kw.value], Keywords[kw.value]), i + |Keywords[kw.value]|));
    } else {
      lexed := ScanNumberOrId(s, i);
    }
  }

  /** Punctuation and operators: one character, or two when the second is
      `=`; a `!` alone is an error. */
  method ScanOperator(s: string, i: nat) returns (lexed: Result<Lexed, ScanError>)
    requires i < |s| && IsOperatorStart(s[i])
    ensures lexed == LexOperator(s, i)
  {
    var c := s[i];
    var punct := PunctKind(c);
    if punct.Some? {
      lexed := Ok(Emit(Token(punct.value, [c]), i + 1));
    } else if c != '!' && !(i + 1 < |s| && s[i + 1] == '=') {
      lexed := Ok(Emit(Token(if c == '=' then BECOMES else if c == '<' then LT else GT, [c]), i + 1));
    } else if c == '!' && !(i + 1 < |s| && s[i + 1] == '=') {
      lexed := Err(BangWithoutEquals);
    } else {
      var kind := if c == '=' then EQ else if c == '!' then NE else if c == '<' then LE else GE;
      lexed := Ok(Emit(Token(kind, s[i .. i + 2]), i + 2));
    }
  }

  /** One line: the chunks are scanned in order until one ends in a
      comment. */
  method ScanLine(rule: KeywordRule, line: string) returns (r: Result<seq<Token>, ScanError>)
    ensures r == LineTokens(rule, line)
  {
    var cs := Chunks(line);
    var toks: seq<Token> := [];
    var k := 0;
    assert cs[0..] == cs;
    PrependedNil(LineTokens(rule, line));
    while k < |cs|
      invariant 0 <= k <= |cs|
      invariant LineTokens(rule, line) == Prepended(toks, ChunksTokens(rule, cs[k..]))
      decreases |cs| - k
    {
      assert cs[k..][1..] == cs[k + 1..];
      ChunksStep(rule, cs[k..]);
      var chunk := ScanChunk(rule, cs[k]);
      if chunk.Err? {
        return Err(chunk.error);
      }
      var (t, comment) := chunk.value;
      if comment {
        return Ok(toks + t);
      }
      PrependedPrepended(toks, t, ChunksTokens(rule, cs[k + 1..]));
      toks := toks + t;
      k := k + 1;
    }
    assert toks + [] == toks;
    return Ok(toks);
  }

  /** The whole input, line by line. */
  method Scan(rule: KeywordRule, lines: seq<string>) returns (r: Result<seq<Token>, ScanError>)
    ensures r == ProgramTokens(rule, lines)
  {
    var toks: seq<Token> := [];
    var k := 0;
    assert lines[0..] == lines;
    PrependedNil(ProgramTokens(rule, lines));
    while k < |lines|
      invariant 0 <= k <= |lines|
      invariant ProgramTokens(rule, lines) == Prepended(toks, ProgramTokens(rule, lines[k..]))
      decreases |lines| - k
    {
      assert lines[k..][1..] == lines[k + 1..];
      LinesStep(rule, lines[k..]);
      var t := ScanLine(rule, lines[k]);
      if t.Err? {
        return Err(t.error);
      }
      PrependedPrepended(toks, t.value, ProgramTokens(rule, lines[k + 1..]));
      toks := toks + t.value;
      k := k + 1;
    }
    assert toks + [] == toks;
    return Ok(toks);
  }

  // ---------------------------------------------------------------------
  // Properties

  /** The fixed spelling of every kind other than ID and NUM. */
  function Spelling(k: Kind): string {
    match k
    case ID => "" case NUM => ""
    case LPAREN => "(" case RPAREN => ")" case LBRACE => "{" case RBRACE => "}"
    case RETURN => "return" case IF => "if" case ELSE => "else" case WHILE => "while"
    case PRINTLN => "println" case WAIN => "wain" case BECOMES => "=" case INT => "int"
    case EQ => "==" case NE => "!=" case LT => "<" case GT => ">" case LE => "<=" case GE => ">="
    case PLUS => "+" case MINUS => "-" case STAR => "*" case SLASH => "/" case PCT => "%"
    case COMMA => "," case SEMI => ";" case NEW => "new" case DELETE => "delete"
    case LBRACK => "[" case RBRACK => "]" case AMP => "&" case NULL => "NULL"
  }

  /** A token the scanner may emit: an identifier is a letter followed by
      letters and digits, a number is a canonical decimal numeral of at
      most 2147483647, and every other kind has its fixed spelling. */
  predicate WellFormedToken(t: Token) {
    match t.kind
    case ID => t.lexeme != [] && IsAlpha(t.lexeme[0]) && AllIdChars(t.lexeme)
    case NUM =>
      t.lexeme != [] && AllDigits(t.lexeme) && (|t.lexeme| == 1 || t.lexeme[0] != '0')
      && DecimalValue(t.lexeme) <= MaxNum
    case _ => t.lexeme == Spelling(t.kind)
  }

  /** Under the intended keyword comparison an identifier is moreover
      never spelled like a keyword. */
  predicate Sound(rule: KeywordRule, t: Token) {
    WellFormedToken(t) && (rule.Intended? && t.kind.ID? ==> t.lexeme !in Keywords)
  }

  predicate AllSound(rule: KeywordRule, toks: seq<Token>) {
    forall k :: 0 <= k < |toks| ==> Sound(rule, toks[k])
  }

  lemma KeywordFacts()
    ensures forall k :: 0 <= k < |Keywords| ==> Spelling(KeywordKinds[k]) == Keywords[k]
    ensures forall k :: 0 <= k < |Keywords| ==> Keywords[k] != [] && AllIdChars(Keywords[k]) && IsAlpha(Keywords[k][0])
  {
  }

  lemma KeywordsDistinct()
    ensures forall a, b :: 0 <= a < b < |Keywords| ==> Keywords[a] != Keywords[b]
  {
  }

  lemma OperatorWellFormed(s: string, i: nat)
    requires i < |s| && IsOperatorStart(s[i])
    ensures LexOperator(s, i).Ok? ==> WellFormedToken(LexOperator(s, i).value.tok)
  {
  }

  lemma NumberOrIdWellFormed(s: string, i: nat)
    requires i < |s|
    ensures LexNumberOrId(s, i).Ok? ==> WellFormedToken(LexNumberOrId(s, i).value.tok)
  {
    var e := DigitEnd(s, i);
    if e == i && IsAlpha(s[i]) {
      var f := IdEnd(s, i + 1);
      assert AllIdChars(s[i .. f]) by {
        forall k | 0 <= k < f - i ensures IsIdChar(s[i .. f][k]) {
          if k > 0 { assert s[i .. f][k] == s[i + 1 .. f][k - 1]; }
        }
      }
    }
  }

  /** Every token one step of the scanner emits is well formed. */
  lemma LexWellFormed(rule: KeywordRule, s: string, i: nat)
    requires i < |s|
    ensures Lex(rule, s, i).Ok? && Lex(rule, s, i).value.Emit? ==> WellFormedToken(Lex(rule, s, i).value.tok)
  {
    if !CommentAt(s, i) {
      if IsOperatorStart(s[i]) {
        OperatorWellFormed(s, i);
      } else if MatchKeyword(rule, s, i, 0).None? {
        NumberOrIdWellFormed(s, i);
      } else {
        KeywordFacts();
      }
    }
  }

  lemma SpellingNoSpace(k: Kind)
    ensures NoSpace(Spelling(k))
  {
    match k
    case ID => case NUM =>
    case LPAREN => case RPAREN => case LBRACE => case RBRACE =>
    case RETURN => case IF => case ELSE => case WHILE =>
    case PRINTLN => case WAIN => case BECOMES => case INT =>
    case EQ => case NE => case LT => case GT => case LE => case GE =>
    case PLUS => case MINUS => case STAR => case SLASH => case PCT =>
    case COMMA => case SEMI => case NEW => case DELETE =>
    case LBRACK => case RBRACK => case AMP => case NULL =>
  }

  /** A token never contains whitespace. */
  lemma WellFormedNoSpace(t: Token)
    requires WellFormedToken(t)
    ensures NoSpace(t.lexeme)
  {
    if !t.kind.ID? && !t.kind.NUM? {
      SpellingNoSpace(t.kind);
    }
  }

  /** `r`, the scan of `s` from `i`, spells in order the characters from
      `i` up to the comment marker that stopped it, or up to the end. */
  predicate Covers(s: string, i: nat, r: ChunkResult) {
    r.Ok? ==>
      var e := i + |Lexemes(r.value.0)|;
      e <= |s| && s[i .. e] == Lexemes(r.value.0) && (r.value.1 <==> e < |s|)
      && (r.value.1 ==> CommentAt(s, e))
  }

  /** The tokens of a chunk spell the chunk up to a comment marker, or the
      whole chunk. */
  lemma {:induction false} ChunkCover(rule: KeywordRule, s: string, i: nat)
    requires i <= |s|
    ensures Covers(s, i, ChunkTokens(rule, s, i))
    decreases |s| - i
  {
    if i < |s| {
      ChunkStep(rule, s, i);
      if CommentAt(s, i) {
        assert Lexemes([]) == [];
      } else if Lex(rule, s, i).Ok? {
        var t, j := Lex(rule, s, i).value.tok, Lex(rule, s, i).value.next;
        ChunkCover(rule, s, j);
        CoverStep(s, i, t, j, ChunkTokens(rule, s, j));
      }
    } else {
      assert Lexemes([]) == [];
    }
  }

  /** A token spelling `s[i..j]` in front of a scan that covers from `j`
      covers from `i`. */
  lemma CoverStep(s: string, i: nat, t: Token, j: nat, rest: ChunkResult)
    requires i < j <= |s| && t.lexeme == s[i .. j] && Covers(s, j, rest)
    ensures Covers(s, i, Prefixed([t], rest))
  {
    if rest.Ok? {
      var toks := [t] + rest.value.0;
      assert toks[0] == t && toks[1..] == rest.value.0;
      assert Lexemes(toks) == t.lexeme + Lexemes(rest.value.0);
      var e := j + |Lexemes(rest.value.0)|;
      assert s[i .. e] == s[i .. j] + s[j .. e];
    }
  }

  function Lexemes(toks: seq<Token>): string {
    if toks == [] then [] else toks[0].lexeme + Lexemes(toks[1..])
  }

  /** The tokens of one chunk are all well formed. */
  lemma {:induction false} ChunkWellFormed(rule: KeywordRule, s: string, i: nat)
    ensures ChunkTokens(rule, s, i).Ok? ==> AllSound(rule, ChunkTokens(rule, s, i).value.0)
    decreases |s| - i
  {
    if i < |s| {
      LexWellFormed(rule, s, i);
      if rule.Intended? {
        NoKeywordIds(s, i);
      }
      match Lex(rule, s, i)
      case Err(_) =>
      case Ok(Comment) =>
      case Ok(Emit(t, j)) => ChunkWellFormed(rule, s, j);
    }
  }

  lemma {:induction false} ChunksWellFormed(rule: KeywordRule, cs: seq<string>)
    ensures ChunksTokens(rule, cs).Ok? ==> AllSound(rule, ChunksTokens(rule, cs).value)
  {
    if cs != [] {
      ChunkWellFormed(rule, cs[0], 0);
      ChunksWellFormed(rule, cs[1..]);
    }
  }

  /** Every token of a scanned program is well formed, so in particular no
      token spans whitespace; under the intended keyword comparison no
      identifier is spelled like a keyword. */
  lemma {:induction false} ProgramWellFormed(rule: KeywordRule, lines: seq<string>)
    ensures ProgramTokens(rule, lines).Ok? ==>
      var toks := ProgramTokens(rule, lines).value;
      AllSound(rule, toks) && forall k :: 0 <= k < |toks| ==> NoSpace(toks[k].lexeme)
  {
    if lines != [] {
      ChunksWellFormed(rule, Chunks(lines[0]));
      ProgramWellFormed(rule, lines[1..]);
      if ProgramTokens(rule, lines).Ok? {
        var toks := ProgramTokens(rule, lines).value;
        forall k | 0 <= k < |toks| ensures NoSpace(toks[k].lexeme) {
          WellFormedNoSpace(toks[k]);
        }
      }
    }
  }

  // ---------------------------------------------------------------------
  // The rules for each kind of token

  /** A `/` followed by `/` starts a comment; any other punctuation
      character is a token of its own, spelled by that character. */
  lemma PunctuationRule(rule: KeywordRule, s: string, i: nat)
    requires i < |s| && PunctKind(s[i]).Some? && !CommentAt(s, i)
    ensures Lex(rule, s, i) == Ok(Emit(Token(PunctKind(s[i]).value, [s[i]]), i + 1))
    ensures Spelling(PunctKind(s[i]).value) == [s[i]]
  {
  }

  /** Maximal munch for `=`, `!`, `<` and `>`: two characters are taken
      exactly when the second is `=`, and a lone `!` is an error. */
  lemma OperatorMunch(rule: KeywordRule, s: string, i: nat)
    requires i < |s| && (s[i] == '=' || s[i] == '!' || s[i] == '<' || s[i] == '>')
    ensures var two := i + 1 < |s| && s[i + 1] == '=';
      (Lex(rule, s, i).Ok? <==> two || s[i] != '!')
      && (Lex(rule, s, i).Ok? ==>
            Lex(rule, s, i).value.Emit? && Lex(rule, s, i).value.next == (if two then i + 2 else i + 1))
  {
  }

  lemma NoKeywordAtDigit(rule: KeywordRule, s: string, i: nat)
    requires i < |s| && IsDigit(s[i])
    ensures MatchKeyword(rule, s, i, 0).None?
  {
    KeywordFacts();
  }

  /** A number is the maximal run of digits; it is accepted when it is a
      single digit, or has at most ten digits, no leading zero and a value
      of at most 2147483647. */
  lemma NumberRule(rule: KeywordRule, s: string, i: nat)
    requires i < |s| && IsDigit(s[i])
    ensures var e := DigitEnd(s, i); var d := s[i .. e];
      (Lex(rule, s, i).Ok? <==> |d| == 1 || (|d| <= 10 && d[0] != '0' && DecimalValue(d) <= MaxNum))
      && (Lex(rule, s, i).Ok? ==> Lex(rule, s, i).value == Emit(Token(NUM, d), e))
  {
    NoKeywordAtDigit(rule, s, i);
    assert !CommentAt(s, i) && !IsOperatorStart(s[i]);
    assert Lex(rule, s, i) == LexNumberOrId(s, i);
  }

  /** Where no keyword is accepted, a letter starts an identifier that
      takes the maximal run of letters and digits. */
  lemma IdentifierRule(rule: KeywordRule, s: string, i: nat)
    requires i < |s| && IsAlpha(s[i]) && MatchKeyword(rule, s, i, 0).None?
    ensures Lex(rule, s, i) == Ok(Emit(Token(ID, s[i .. IdEnd(s, i)]), IdEnd(s, i)))
  {
  }

  /** Any character that starts no token is an error. */
  lemma UnrecognizedRule(rule: KeywordRule, s: string, i: nat)
    requires i < |s| && !IsOperatorStart(s[i]) && !IsIdChar(s[i])
    ensures Lex(rule, s, i) == Err(UnrecognizedCharacter(s[i]))
  {
    KeywordFacts();
  }

  /** The keyword `kw` spelled at `i` and not followed by a letter or digit. */
  predicate KeywordSpelledAt(s: string, i: nat, kw: string) {
    i + |kw| <= |s| && s[i .. i + |kw|] == kw && (i + |kw| == |s| || !IsIdChar(s[i + |kw|]))
  }

  /** At most one keyword is spelled at a position. */
  lemma OneKeywordAt(s: string, i: nat, j: nat, k: nat)
    requires j < |Keywords| && k < |Keywords|
    requires KeywordSpelledAt(s, i, Keywords[j]) && KeywordSpelledAt(s, i, Keywords[k])
    ensures j == k
  {
    KeywordFacts();
    KeywordsDistinct();
    if |Keywords[j]| == |Keywords[k]| {
      assert Keywords[j] == s[i .. i + |Keywords[j]|] == Keywords[k];
    }
  }

  lemma FitsSpelled(rule: KeywordRule, s: string, i: nat, kw: string)
    requires KeywordFits(rule, s, i, kw)
    ensures KeywordSpelledAt(s, i, kw)
  {
  }

  /** The first keyword from `m` on that is accepted is `j`. */
  lemma MatchFirst(rule: KeywordRule, s: string, i: nat, m: nat, j: nat)
    requires m <= j < |Keywords| && KeywordFits(rule, s, i, Keywords[j])
    requires forall k :: m <= k < j ==> !KeywordFits(rule, s, i, Keywords[k])
    ensures MatchKeyword(rule, s, i, m) == Some(j)
  {
    FirstFitIs(rule, s, i, Keywords, m, j);
  }

  lemma {:induction false} FirstFitIs(rule: KeywordRule, s: string, i: nat, table: seq<string>, m: nat, j: nat)
    requires m <= j < |table| && KeywordFits(rule, s, i, table[j])
    requires forall k :: m <= k < j ==> !KeywordFits(rule, s, i, table[k])
    ensures FirstFit(rule, s, i, table, m) == Some(j)
    decreases j - m
  {
    if m < j {
      FirstFitIs(rule, s, i, table, m + 1, j);
    }
  }

  lemma {:induction false} IdEndAt(s: string, k: nat, e: nat)
    requires k <= e <= |s| && AllIdChars(s[k .. e]) && (e == |s| || !IsIdChar(s[e]))
    ensures IdEnd(s, k) == e
    decreases e - k
  {
    if k < e {
      assert s[k] == s[k .. e][0];
      assert s[k + 1 .. e] == s[k .. e][1..];
      IdEndAt(s, k + 1, e);
    }
  }

  /** A position where a keyword is accepted yields that keyword's token. */
  lemma LexKeyword(rule: KeywordRule, s: string, i: nat, j: nat)
    requires i < |s| && j < |Keywords| && IsAlpha(s[i]) && MatchKeyword(rule, s, i, 0) == Some(j)
    ensures Lex(rule, s, i) == Ok(Emit(Token(KeywordKinds[j], Keywords[j]), i + |Keywords[j]|))
  {
    WordAt(rule, s, i);
  }

  /** A letter starts neither a comment nor an operator. */
  lemma WordAt(rule: KeywordRule, s: string, i: nat)
    requires i < |s| && IsAlpha(s[i])
    ensures Lex(rule, s, i) == LexWord(rule, s, i)
  {
    assert !CommentAt(s, i);
    assert !IsOperatorStart(s[i]);
  }

  /** With the intended comparison, a keyword spelled at `i` and not
      followed by a letter or digit is always that keyword's token. */
  lemma KeywordIntended(s: string, i: nat, j: nat)
    requires j < |Keywords| && KeywordSpelledAt(s, i, Keywords[j])
    ensures Lex(Intended, s, i) == Ok(Emit(Token(KeywordKinds[j], Keywords[j]), i + |Keywords[j]|))
  {
    KeywordFacts();
    assert s[i] == s[i .. i + |Keywords[j]|][0];
    forall k | 0 <= k < j ensures !KeywordFits(Intended, s, i, Keywords[k]) {
      if KeywordFits(Intended, s, i, Keywords[k]) {
        OneKeywordAt(s, i, j, k);
      }
    }
    MatchFirst(Intended, s, i, 0, j);
    LexKeyword(Intended, s, i, j);
  }

  /** Where no keyword is accepted, a keyword's spelling followed by no
      letter or digit scans as an identifier. */
  lemma LexKeywordAsId(rule: KeywordRule, s: string, i: nat, j: nat)
    requires j < |Keywords| && KeywordSpelledAt(s, i, Keywords[j]) && MatchKeyword(rule, s, i, 0).None?
    ensures Lex(rule, s, i) == Ok(Emit(Token(ID, Keywords[j]), i + |Keywords[j]|))
  {
    KeywordLetters(j);
    var kw := Keywords[j];
    assert s[i] == s[i .. i + |kw|][0];
    IdentifierRun(rule, s, i, i + |kw|);
  }

  lemma KeywordLetters(j: nat)
    requires j < |Keywords|
    ensures Keywords[j] != [] && IsAlpha(Keywords[j][0]) && AllIdChars(Keywords[j])
  {
    KeywordFacts();
  }

  /** A letter followed by letters and digits up to `e`, where no keyword
      is accepted, scans as one identifier ending at `e`. */
  lemma IdentifierRun(rule: KeywordRule, s: string, i: nat, e: nat)
    requires i < e <= |s| && IsAlpha(s[i]) && AllIdChars(s[i .. e]) && (e == |s| || !IsIdChar(s[e]))
    requires MatchKeyword(rule, s, i, 0).None?
    ensures Lex(rule, s, i) == Ok(Emit(Token(ID, s[i .. e]), e))
  {
    assert s[i + 1 .. e] == s[i .. e][1..];
    IdEndAt(s, i + 1, e);
    assert !CommentAt(s, i);
    assert !IsOperatorStart(s[i]);
    assert Lex(rule, s, i) == LexWord(rule, s, i) == LexNumberOrId(s, i);
  }

  /** As written, the same keyword is recognised only at the start of the
      chunk or when it ends the chunk; anywhere else it scans as an
      identifier with the keyword's spelling. */
  lemma KeywordAsWritten(s: string, i: nat, j: nat)
    requires j < |Keywords| && KeywordSpelledAt(s, i, Keywords[j])
    ensures var kw := Keywords[j];
      Lex(AsWritten, s, i)
        == if i == 0 || i + |kw| == |s| then Ok(Emit(Token(KeywordKinds[j], kw), i + |kw|))
           else Ok(Emit(Token(ID, kw), i + |kw|))
  {
    KeywordFacts();
    var kw := Keywords[j];
    assert s[i] == s[i .. i + |kw|][0];
    forall k | 0 <= k < |Keywords| ensures KeywordFits(AsWritten, s, i, Keywords[k]) ==> k == j {
      if KeywordFits(AsWritten, s, i, Keywords[k]) {
        FitsSpelled(AsWritten, s, i, Keywords[k]);
        OneKeywordAt(s, i, j, k);
      }
    }
    if i == 0 || i + |kw| == |s| {
      assert Substr(s, i, i + |kw|) == s[i .. i + |kw|];
      MatchFirst(AsWritten, s, i, 0, j);
      LexKeyword(AsWritten, s, i, j);
    } else {
      assert !KeywordFits(AsWritten, s, i, kw);
      LexKeywordAsId(AsWritten, s, i, j);
    }
  }

  /** With the intended comparison no identifier is spelled like a keyword. */
  lemma NoKeywordIds(s: string, i: nat)
    requires i < |s|
    ensures var r := Lex(Intended, s, i);
      r.Ok? && r.value.Emit? && r.value.tok.kind.ID? ==> r.value.tok.lexeme !in Keywords
  {
    var r := Lex(Intended, s, i);
    if r.Ok? && r.value.Emit? && r.value.tok.kind.ID? {
      IdToken(Intended, s, i);
      var w := r.value.tok.lexeme;
      forall m | 0 <= m < |Keywords| ensures Keywords[m] != w {
        if Keywords[m] == w {
          assert KeywordFits(Intended, s, i, Keywords[m]);
        }
      }
    }
  }

  /** An identifier is scanned only where no keyword is accepted, and it
      runs to a character that is no letter or digit. */
  lemma IdToken(rule: KeywordRule, s: string, i: nat)
    requires i < |s|
    ensures var r := Lex(rule, s, i);
      r.Ok? && r.value.Emit? && r.value.tok.kind.ID? ==>
        var e := r.value.next;
        && MatchKeyword(rule, s, i, 0).None?
        && e == i + |r.value.tok.lexeme| && (e == |s| || !IsIdChar(s[e]))
  {
    if !CommentAt(s, i) {
      if IsOperatorStart(s[i]) {
        OperatorNotId(s, i);
      } else {
        assert Lex(rule, s, i) == LexWord(rule, s, i);
        if MatchKeyword(rule, s, i, 0).Some? {
          KeywordKindsNotId();
        } else {
          IdShape(s, i);
        }
      }
    }
  }

  lemma OperatorNotId(s: string, i: nat)
    requires i < |s| && IsOperatorStart(s[i])
    ensures LexOperator(s, i).Ok? ==> !LexOperator(s, i).value.tok.kind.ID?
  {
  }

  lemma KeywordKindsNotId()
    ensures forall j :: 0 <= j < |KeywordKinds| ==> !KeywordKinds[j].ID?
  {
  }

  lemma IdShape(s: string, i: nat)
    requires i < |s|
    ensures var r := LexNumberOrId(s, i);
      r.Ok? && r.value.tok.kind.ID? ==>
        r.value.next == i + |r.value.tok.lexeme| && (r.value.next == |s| || !IsIdChar(s[r.value.next]))
  {
  }

  /** `}else{` scans, as written, to RBRACE, an identifier `else`, LBRACE;
      with the intended comparison the middle token is ELSE. */
  lemma ElseAfterBrace()
    ensures LineTokens(AsWritten, "}else{")
      == Ok([Token(RBRACE, "}"), Token(ID, "else"), Token(LBRACE, "{")])
    ensures LineTokens(Intended, "}else{")
      == Ok([Token(RBRACE, "}"), Token(ELSE, "else"), Token(LBRACE, "{")])
  {
    var s := "}else{";
    assert WordEnd(s, 0) == 6;
    assert s[..6] == s && s[6..] == [];
    assert Chunks(s) == [s];
    assert KeywordSpelledAt(s, 1, Keywords[2]);
    KeywordAsWritten(s, 1, 2);
    KeywordIntended(s, 1, 2);
    BraceChunk(AsWritten, s, Token(ID, "else"));
    BraceChunk(Intended, s, Token(ELSE, "else"));
  }

  lemma BraceChunk(rule: KeywordRule, s: string, t: Token)
    requires s == "}else{" && Lex(rule, s, 1) == Ok(Emit(t, 5))
    ensures ChunksTokens(rule, [s]) == Ok([Token(RBRACE, "}"), t, Token(LBRACE, "{")])
  {
    PunctuationRule(rule, s, 0);
    PunctuationRule(rule, s, 5);
    var lbrace, rbrace := Token(LBRACE, "{"), Token(RBRACE, "}");
    assert ChunkTokens(rule, s, 6) == Ok(([], false));
    assert [lbrace] + [] == [lbrace];
    assert ChunkTokens(rule, s, 5) == Prefixed([lbrace], ChunkTokens(rule, s, 6));
    assert ChunkTokens(rule, s, 1) == Prefixed([t], ChunkTokens(rule, s, 5));
    assert [t] + [lbrace] == [t, lbrace];
    assert ChunkTokens(rule, s, 0) == Prefixed([rbrace], ChunkTokens(rule, s, 1));
    assert [rbrace] + [t, lbrace] == [rbrace, t, lbrace];
    assert [s][1..] == [];
    assert [rbrace, t, lbrace] + [] == [rbrace, t, lbrace];
  }
}
