/** parser.py and wfostatement.py: the token-level state machine that groups the lexer's tokens
    into statements. A statement starts with a header token, takes a fixed number of arguments,
    each after one separator, and ends at a line break; a token out of place is a ParserError
    with a message naming the token. */
module Parser {
  import opened Wrappers
  import opened Py
  import opened Decimal
  import opened Lexer

  datatype StatementType =
    | CommentStatement | MaterialLibStatement | ObjectStatement | VertexStatement
    | NormalStatement | TexCoordStatement | UseMaterialStatement | FaceStatement
    | SmoothShadingStatement

  /** A statement's data: one value (a comment's text, a name, a lone number) or the tuple of its
      arguments. */
  datatype StatementData = Single(value: TokenData) | Items(items: seq<TokenData>)

  datatype Statement = Statement(kind: StatementType, data: StatementData, line: int, col: int)

  /** An unexpected token and the detail the handler adds ("" for none); ErrorMessage renders it. */
  datatype ParserError = ParserError(token: Token, detail: string)

  /** The parser between tokens: the statements so far, the statement being read (its type,
      data, position and the number of its tokens taken), and the token type it waits for. The
      expected type survives a reset, as the attribute does; it is absent until the first
      header. */
  datatype ParserState = ParserState(
    statements: seq<Statement>,
    current: Option<StatementType>,
    data: StatementData,
    lineNum: int,
    charNum: int,
    parsed: nat,
    awaiting: Option<TokenType>)

  function Init(): ParserState {
    ParserState([], None, Single(NoData), 0, 0, 0, None)
  }

  /** No statement is being read, and the per-statement fields hold their reset values. */
  predicate Idle(p: ParserState) {
    p.current.None? && p.data == Single(NoData) && p.lineNum == 0 && p.charNum == 0 && p.parsed == 0
  }

  /** The header table: which token types start which statements. */
  function HeaderType(k: TokenType): (r: Option<StatementType>)
    ensures r.Some? <==> k !in {Number, StringToken, Polygon, Separator, LineBreak}
  {
    match k
    case Comment => Some(CommentStatement)
    case MaterialLib => Some(MaterialLibStatement)
    case Object => Some(ObjectStatement)
    case Vertex => Some(VertexStatement)
    case Normal => Some(NormalStatement)
    case TexCoord => Some(TexCoordStatement)
    case UseMaterial => Some(UseMaterialStatement)
    case Face => Some(FaceStatement)
    case SmoothShading => Some(SmoothShadingStatement)
    case _ => None
  }

  /** The header token of each statement type. */
  function HeaderToken(s: StatementType): (k: TokenType)
    ensures HeaderType(k) == Some(s)
  {
    match s
    case CommentStatement => Comment
    case MaterialLibStatement => MaterialLib
    case ObjectStatement => Object
    case VertexStatement => Vertex
    case NormalStatement => Normal
    case TexCoordStatement => TexCoord
    case UseMaterialStatement => UseMaterial
    case FaceStatement => Face
    case SmoothShadingStatement => SmoothShading
  }

  /** The token types' names as the enumeration spells them. */
  function TypeName(k: TokenType): string {
    match k
    case Comment => "COMMENT"
    case MaterialLib => "MATERIAL_LIB"
    case Object => "OBJECT"
    case Vertex => "VERTEX"
    case Normal => "NORMAL"
    case TexCoord => "TEX_COORD"
    case UseMaterial => "USE_MATERIAL"
    case Face => "FACE"
    case SmoothShading => "SMOOTH_SHADING"
    case Number => "NUMBER"
    case StringToken => "STRING"
    case Polygon => "POLYGON"
    case Separator => "SEPERATOR"
    case LineBreak => "LINE_BREAK"
  }

  /** _raise_unexpected_token_error: the token's type, line and column, then ", " and the
      detail when there is one. */
  function ErrorMessage(e: ParserError): (m: string)
    ensures "Unexpected token: " + TypeName(e.token.kind) <= m
    ensures e.detail != "" ==> |m| >= |e.detail| + 2 && m[|m| - |e.detail| - 2..] == ", " + e.detail
  {
    var head := "Unexpected token: " + TypeName(e.token.kind);
    var tail := if e.detail == "" then "" else ", " + e.detail;
    var m := head + (" on line: " + IntToString(e.token.line) + " at: " + IntToString(e.token.col) + tail);
    assert m[..|head|] == head;
    assert e.detail != "" ==> m[|m| - |e.detail| - 2..] == tail;
    m
  }

  /** The number of arguments a number statement takes. */
  function Arity(s: StatementType): nat {
    match s
    case VertexStatement => 3
    case NormalStatement => 3
    case TexCoordStatement => 2
    case SmoothShadingStatement => 1
    case FaceStatement => 3
    case _ => 1
  }

  predicate IsNumberStatement(s: StatementType) {
    s in {VertexStatement, NormalStatement, TexCoordStatement, SmoothShadingStatement}
  }

  predicate IsStringStatement(s: StatementType) {
    s in {MaterialLibStatement, ObjectStatement, UseMaterialStatement}
  }

  /** The arguments read so far. */
  function ItemCount(d: StatementData): nat {
    if d.Items? then |d.items| else 0
  }

  /** One more argument: a tuple starts from the header's empty data. A keyword token never
      carries data, so the header's data is always the empty value here. */
  function AddItem(d: StatementData, x: TokenData): (r: StatementData)
    ensures r.Items? && ItemCount(r) == ItemCount(d) + 1 && r.items[|r.items| - 1] == x
    ensures d.Items? ==> r.items[..|r.items| - 1] == d.items
  {
    match d
    case Items(xs) => Items(xs + [x])
    case Single(_) => Items([x])
  }

  /** _extract_statement_from_state and _reset_state: the statement joins the list and the
      per-statement fields are reset; the expected type is kept. */
  function Complete(p: ParserState): (r: ParserState)
    requires p.current.Some?
    ensures Idle(r) && r.awaiting == p.awaiting
    ensures r.statements == p.statements + [Statement(p.current.value, p.data, p.lineNum, p.charNum)]
  {
    p.(statements := p.statements + [Statement(p.current.value, p.data, p.lineNum, p.charNum)],
       current := None, data := Single(NoData), lineNum := 0, charNum := 0, parsed := 0)
  }

  /** _handle_expecting_header_state: separators and line breaks between statements are skipped,
      a header starts a statement, and anything else is an error. */
  function Header(p: ParserState, t: Token): (r: Result<ParserState, ParserError>)
    requires p.current.None?
  {
    if t.kind == Separator || t.kind == LineBreak then Ok(p)
    else match HeaderType(t.kind)
      case None => Err(ParserError(t, "expected statement start"))
      case Some(s) =>
        Ok(p.(current := Some(s), data := Single(t.data), lineNum := t.line, charNum := t.col, parsed := 1,
              awaiting := Some(if t.kind == Comment then LineBreak else Separator)))
  }

  /** _parse_comment_statement: only a line break may follow a comment. */
  function CommentStep(p: ParserState, t: Token): Result<ParserState, ParserError>
    requires p.current.Some?
  {
    if t.kind != LineBreak then Err(ParserError(t, ""))
    else Ok(Complete(p.(parsed := p.parsed + 1)))
  }

  /** _parse_single_string_statement: a separator, a string, a line break. */
  function StringStep(p: ParserState, t: Token): Result<ParserState, ParserError>
    requires p.current.Some?
  {
    if p.awaiting == Some(Separator) && t.kind == Separator then
      Ok(p.(awaiting := Some(StringToken), parsed := p.parsed + 1))
    else if p.awaiting == Some(StringToken) && t.kind == StringToken then
      Ok(p.(data := Single(t.data), awaiting := Some(LineBreak), parsed := p.parsed + 1))
    else if p.awaiting == Some(LineBreak) && t.kind == LineBreak then
      Ok(Complete(p))
    else Err(ParserError(t, ""))
  }

  /** _parse_number_statement: `n` numbers, each after a separator, then a line break; the
      statement's tokens are counted, header included, and after 1 + 2n of them a line break is
      due. A single number is unwrapped from its tuple. */
  function NumberStep(p: ParserState, t: Token, n: nat): Result<ParserState, ParserError>
    requires p.current.Some?
  {
    var untilLineBreak := 1 + n * 2;
    if p.awaiting == Some(Separator) && t.kind == Separator then
      Ok(p.(awaiting := Some(Number), parsed := p.parsed + 1))
    else if p.awaiting == Some(Number) && t.kind == Number then
      var parsed := p.parsed + 1;
      Ok(p.(data := AddItem(p.data, t.data), parsed := parsed,
            awaiting := Some(if parsed >= untilLineBreak then LineBreak else Separator)))
    else if p.awaiting == Some(LineBreak) && t.kind == LineBreak then
      var data := if p.data.Items? && |p.data.items| == 1 then Single(p.data.items[0]) else p.data;
      Ok(Complete(p.(data := data)))
    else Err(ParserError(t, ""))
  }

  /** _parse_face_statement: three polygons, each after a separator, then a line break. */
  function FaceStep(p: ParserState, t: Token): Result<ParserState, ParserError>
    requires p.current.Some?
  {
    if p.awaiting == Some(Separator) && t.kind == Separator then
      Ok(p.(awaiting := Some(Polygon), parsed := p.parsed + 1))
    else if p.awaiting == Some(Polygon) && t.kind == Polygon then
      var parsed := p.parsed + 1;
      Ok(p.(data := AddItem(p.data, t.data), parsed := parsed,
            awaiting := Some(if parsed >= 7 then LineBreak else Separator)))
    else if p.awaiting == Some(LineBreak) && t.kind == LineBreak then
      Ok(Complete(p))
    else Err(ParserError(t, ""))
  }

  /** _process_token: the header state, or the handler of the statement being read. Only a line
      break completes a statement, and a completed statement is the one being read. */
  function ProcessToken(p: ParserState, t: Token): (r: Result<ParserState, ParserError>)
    ensures p.current.None? && (t.kind == Separator || t.kind == LineBreak) ==> r == Ok(p)
    ensures p.current.None? && HeaderType(t.kind).None? && t.kind != Separator && t.kind != LineBreak
            ==> r == Err(ParserError(t, "expected statement start"))
    ensures r.Ok? && r.value.statements != p.statements ==>
              && t.kind == LineBreak && p.current.Some? && Idle(r.value)
              && |r.value.statements| == |p.statements| + 1 && p.statements <= r.value.statements
              && r.value.statements[|p.statements|].kind == p.current.value
              && r.value.statements[|p.statements|].line == p.lineNum
              && r.value.statements[|p.statements|].col == p.charNum
    ensures r.Ok? && t.kind != LineBreak ==> r.value.statements == p.statements
    ensures r.Err? ==> r.error == ParserError(t, "") || r.error == ParserError(t, "expected statement start")
  {
    match p.current
    case None => Header(p, t)
    case Some(s) =>
      match s
      case CommentStatement => CommentStep(p, t)
      case MaterialLibStatement => StringStep(p, t)
      case ObjectStatement => StringStep(p, t)
      case UseMaterialStatement => StringStep(p, t)
      case FaceStatement => FaceStep(p, t)
      case _ => NumberStep(p, t, Arity(s))
  }

  /** The tokens fed in order; the first error ends the parse. */
  function ParseFrom(p: ParserState, ts: seq<Token>): (r: Result<ParserState, ParserError>)
    ensures r.Ok? ==> p.statements <= r.value.statements
    decreases |ts|
  {
    if |ts| == 0 then Ok(p)
    else match ProcessToken(p, ts[0])
      case Err(e) => Err(e)
      case Ok(q) => ParseFrom(q, ts[1..])
  }

  /** parse_tokens: the statements completed, or the first error. A statement still open at the
      end is dropped. */
  function ParseTokens(ts: seq<Token>): Result<seq<Statement>, ParserError> {
    match ParseFrom(Init(), ts)
    case Ok(p) => Ok(p.statements)
    case Err(e) => Err(e)
  }

  /** parse_tokens as the loop it is. */
  method ParseAll(ts: seq<Token>) returns (r: Result<seq<Statement>, ParserError>)
    ensures r == ParseTokens(ts)
  {
    var p := Init();
    var i := 0;
    while i < |ts|
      invariant 0 <= i <= |ts|
      invariant ParseFrom(Init(), ts) == ParseFrom(p, ts[i..])
    {
      assert ts[i..][0] == ts[i] && ts[i..][1..] == ts[i + 1..];
      match ProcessToken(p, ts[i])
      case Err(e) =>
        return Err(e);
      case Ok(q) =>
        p := q;
      i := i + 1;
    }
    return Ok(p.statements);
  }

  /* ---------------- Well-formed statements ---------------- */

  predicate AllKind(xs: seq<TokenData>, polygon: bool) {
    forall i :: 0 <= i < |xs| ==> if polygon then xs[i].Poly? else xs[i].Num?
  }

  /** What each statement type holds: a comment or a name as text, a lone smoothing number, or a
      tuple of as many numbers (or polygons) as the type takes. */
  predicate WellFormed(s: Statement) {
    match s.kind
    case CommentStatement => s.data.Single? && s.data.value.Text?
    case MaterialLibStatement => s.data.Single? && s.data.value.Text?
    case ObjectStatement => s.data.Single? && s.data.value.Text?
    case UseMaterialStatement => s.data.Single? && s.data.value.Text?
    case SmoothShadingStatement => s.data.Single? && s.data.value.Num?
    case FaceStatement => s.data.Items? && |s.data.items| == 3 && AllKind(s.data.items, true)
    case _ => s.data.Items? && |s.data.items| == Arity(s.kind) && AllKind(s.data.items, false)
  }

  predicate AllWellFormed(ss: seq<Statement>) {
    forall i :: 0 <= i < |ss| ==> WellFormed(ss[i])
  }

  /** The tokens the lexer makes of a statement's line: the header, then a separator before each
      argument, then a line break, all placed at the statement's position. */
  function Emit(s: Statement): (ts: seq<Token>)
    requires WellFormed(s)
    ensures |ts| >= 2 && ts[|ts| - 1].kind == LineBreak
    ensures forall i :: 0 <= i < |ts| - 1 ==> ts[i].kind != LineBreak
  {
    var header := Token(HeaderToken(s.kind), s.line, s.col, if s.kind == CommentStatement then s.data.value else NoData);
    var lineBreak := Token(LineBreak, s.line, s.col, Text("\n"));
    var sep := Token(Separator, s.line, s.col, NoData);
    match s.kind
    case CommentStatement => [header, lineBreak]
    case SmoothShadingStatement => [header, sep, Token(Number, s.line, s.col, s.data.value), lineBreak]
    case FaceStatement => [header] + Arguments(s.data.items, Polygon, s.line, s.col) + [lineBreak]
    case VertexStatement => [header] + Arguments(s.data.items, Number, s.line, s.col) + [lineBreak]
    case NormalStatement => [header] + Arguments(s.data.items, Number, s.line, s.col) + [lineBreak]
    case TexCoordStatement => [header] + Arguments(s.data.items, Number, s.line, s.col) + [lineBreak]
    case _ => [header, sep, Token(StringToken, s.line, s.col, s.data.value), lineBreak]
  }

  /** A separator before each argument. */
  function Arguments(xs: seq<TokenData>, kind: TokenType, line: int, col: int): (ts: seq<Token>)
    ensures |ts| == 2 * |xs|
    ensures forall i :: 0 <= i < |ts| ==> ts[i].kind == Separator || ts[i].kind == kind
    decreases |xs|
  {
    if |xs| == 0 then []
    else [Token(Separator, line, col, NoData), Token(kind, line, col, xs[0])] + Arguments(xs[1..], kind, line, col)
  }

  function EmitAll(ss: seq<Statement>): seq<Token>
    requires AllWellFormed(ss)
    decreases |ss|
  {
    if |ss| == 0 then [] else EmitAll(ss[..|ss| - 1]) + Emit(ss[|ss| - 1])
  }

  /* ---------------- Laws ---------------- */

  /** The first token, then the rest. */
  lemma ParseCons(p: ParserState, t: Token, rest: seq<Token>)
    ensures ProcessToken(p, t).Err? ==> ParseFrom(p, [t] + rest) == Err(ProcessToken(p, t).error)
    ensures ProcessToken(p, t).Ok? ==> ParseFrom(p, [t] + rest) == ParseFrom(ProcessToken(p, t).value, rest)
  {
    assert ([t] + rest)[0] == t && ([t] + rest)[1..] == rest;
  }

  /** Feeding two token lists one after the other is feeding their concatenation. */
  lemma {:induction false} ParseAppend(p: ParserState, a: seq<Token>, b: seq<Token>)
    ensures ParseFrom(p, a).Err? ==> ParseFrom(p, a + b) == Err(ParseFrom(p, a).error)
    ensures ParseFrom(p, a).Ok? ==> ParseFrom(p, a + b) == ParseFrom(ParseFrom(p, a).value, b)
    decreases |a|
  {
    if |a| == 0 {
      assert a + b == b;
    } else {
      assert a + b == [a[0]] + (a[1..] + b);
      assert a == [a[0]] + a[1..];
      ParseCons(p, a[0], a[1..] + b);
      ParseCons(p, a[0], a[1..]);
      if ProcessToken(p, a[0]).Ok? {
        ParseAppend(ProcessToken(p, a[0]).value, a[1..], b);
      }
    }
  }

  /** Between statements, separators and line breaks are skipped and change nothing. */
  lemma {:induction false} SkipFillers(p: ParserState, ts: seq<Token>)
    requires p.current.None?
    requires forall i :: 0 <= i < |ts| ==> ts[i].kind == Separator || ts[i].kind == LineBreak
    ensures ParseFrom(p, ts) == Ok(p)
    decreases |ts|
  {
    if |ts| > 0 {
      SkipFillers(p, ts[1..]);
    }
  }

  /** The token type a statement's arguments have. */
  function ArgumentType(s: StatementType): TokenType {
    if s == FaceStatement then Polygon else Number
  }

  function PriorItems(d: StatementData): seq<TokenData> {
    if d.Items? then d.items else []
  }

  /** The parser after one more argument of a number or face statement. */
  function WithArgument(q: ParserState, x: TokenData): (r: ParserState)
    requires q.current.Some?
    ensures r.current == q.current && r.parsed == q.parsed + 2
    ensures PriorItems(r.data) == PriorItems(q.data) + [x]
  {
    q.(data := AddItem(q.data, x), parsed := q.parsed + 2,
       awaiting := Some(if q.parsed + 2 >= 1 + 2 * Arity(q.current.value) then LineBreak else Separator))
  }

  /** The parser once the arguments `xs` have followed those already read: a line break is due. */
  function ArgumentsDone(q: ParserState, xs: seq<TokenData>): (r: ParserState)
    requires q.current.Some?
    ensures r.current == q.current && r.awaiting == Some(LineBreak)
    ensures r.data == Items(PriorItems(q.data) + xs)
  {
    q.(data := Items(PriorItems(q.data) + xs), parsed := 1 + 2 * Arity(q.current.value), awaiting := Some(LineBreak))
  }

  /** Waiting for an argument of a number or face statement, `n` of which remain. */
  predicate ArgumentsDue(q: ParserState, n: nat) {
    && q.current.Some? && (IsNumberStatement(q.current.value) || q.current.value == FaceStatement)
    && q.awaiting == Some(Separator) && q.parsed == 1 + 2 * ItemCount(q.data)
    && ItemCount(q.data) + n == Arity(q.current.value)
  }

  /** The last argument leaves the parser waiting for the line break. */
  lemma LastArgument(q: ParserState, x: TokenData)
    requires ArgumentsDue(q, 1)
    ensures WithArgument(q, x) == ArgumentsDone(q, [x])
  {
    assert AddItem(q.data, x) == Items(PriorItems(q.data) + [x]);
  }

  /** An argument that is not the last leaves the parser waiting for the next one. */
  lemma NextArgument(q: ParserState, xs: seq<TokenData>)
    requires |xs| > 1 && ArgumentsDue(q, |xs|)
    ensures ArgumentsDue(WithArgument(q, xs[0]), |xs| - 1)
    ensures ArgumentsDone(WithArgument(q, xs[0]), xs[1..]) == ArgumentsDone(q, xs)
  {
    var q2 := WithArgument(q, xs[0]);
    assert ItemCount(q2.data) == ItemCount(q.data) + 1;
    assert PriorItems(q.data) + [xs[0]] + xs[1..] == PriorItems(q.data) + xs;
  }

  /** The arguments of a number or face statement, each after a separator, are all taken and the
      line break becomes due after the last. */
  lemma {:induction false} ArgumentsRun(q: ParserState, xs: seq<TokenData>, line: int, col: int)
    requires |xs| > 0 && ArgumentsDue(q, |xs|)
    ensures ParseFrom(q, Arguments(xs, ArgumentType(q.current.value), line, col)) == Ok(ArgumentsDone(q, xs))
    decreases |xs|
  {
    var kind := ArgumentType(q.current.value);
    var rest := Arguments(xs[1..], kind, line, col);
    var q2 := WithArgument(q, xs[0]);
    assert ParseFrom(q, Arguments(xs, kind, line, col)) == ParseFrom(q2, rest) by {
      assert Arguments(xs, kind, line, col) == [Token(Separator, line, col, NoData), Token(kind, line, col, xs[0])] + rest;
      ArgumentStep(q, xs[0], line, col, rest);
    }
    if |xs| > 1 {
      NextArgument(q, xs);
      ArgumentsRun(q2, xs[1..], line, col);
    } else {
      LastArgument(q, xs[0]);
      assert xs == [xs[0]];
      assert ParseFrom(q2, rest) == Ok(q2) by {
        assert rest == [];
      }
    }
  }

  /** The first separator and argument of a run of arguments. */
  lemma ArgumentStep(q: ParserState, x: TokenData, line: int, col: int, rest: seq<Token>)
    requires q.current.Some? && (IsNumberStatement(q.current.value) || q.current.value == FaceStatement)
    requires q.awaiting == Some(Separator)
    ensures ParseFrom(q, [Token(Separator, line, col, NoData), Token(ArgumentType(q.current.value), line, col, x)] + rest)
         == ParseFrom(WithArgument(q, x), rest)
  {
    var kind := ArgumentType(q.current.value);
    var sep := Token(Separator, line, col, NoData);
    var arg := Token(kind, line, col, x);
    assert [sep, arg] + rest == [sep] + ([arg] + rest);
    var q1 := q.(awaiting := Some(kind), parsed := q.parsed + 1);
    SeparatorStep(q, sep);
    ParseCons(q, sep, [arg] + rest);
    ArgumentTokenStep(q1, arg);
    assert q1.(data := AddItem(q1.data, arg.data), parsed := q1.parsed + 1,
               awaiting := Some(if q1.parsed + 1 >= 1 + 2 * Arity(q1.current.value) then LineBreak else Separator))
        == WithArgument(q, x);
    ParseCons(q1, arg, rest);
  }

  /** The token handler of a number statement is the number step with the statement's arity. */
  lemma NumberDispatch(p: ParserState, t: Token)
    requires p.current.Some? && IsNumberStatement(p.current.value)
    ensures ProcessToken(p, t) == NumberStep(p, t, Arity(p.current.value))
  {
  }

  /** The token handler of a name statement is the string step. */
  lemma StringDispatch(p: ParserState, t: Token)
    requires p.current.Some? && IsStringStatement(p.current.value)
    ensures ProcessToken(p, t) == StringStep(p, t)
  {
  }

  /** The token handler of a face statement is the face step. */
  lemma FaceDispatch(p: ParserState, t: Token)
    requires p.current == Some(FaceStatement)
    ensures ProcessToken(p, t) == FaceStep(p, t)
  {
  }

  /** A separator where one is awaited inside a number or face statement: the argument is awaited
      next. */
  lemma SeparatorStep(q: ParserState, sep: Token)
    requires q.current.Some? && (IsNumberStatement(q.current.value) || q.current.value == FaceStatement)
    requires q.awaiting == Some(Separator) && sep.kind == Separator
    ensures ProcessToken(q, sep) == Ok(q.(awaiting := Some(ArgumentType(q.current.value)), parsed := q.parsed + 1))
  {
    if q.current.value == FaceStatement {
      FaceDispatch(q, sep);
    } else {
      NumberDispatch(q, sep);
    }
  }

  /** An argument where one is awaited: it joins the data, and a line break is awaited once the
      statement's arguments are all read. */
  lemma ArgumentTokenStep(q: ParserState, arg: Token)
    requires q.current.Some? && (IsNumberStatement(q.current.value) || q.current.value == FaceStatement)
    requires q.awaiting == Some(ArgumentType(q.current.value)) && arg.kind == ArgumentType(q.current.value)
    ensures ProcessToken(q, arg)
         == Ok(q.(data := AddItem(q.data, arg.data), parsed := q.parsed + 1,
                  awaiting := Some(if q.parsed + 1 >= 1 + 2 * Arity(q.current.value) then LineBreak else Separator)))
  {
    if q.current.value == FaceStatement {
      FaceDispatch(q, arg);
    } else {
      NumberDispatch(q, arg);
    }
  }

  function Finished(p: ParserState, s: Statement): (r: ParserState)
    ensures r.statements == p.statements + [s] && Idle(r)
  {
    ParserState(p.statements + [s], None, Single(NoData), 0, 0, 0, Some(LineBreak))
  }

  /** The parser just after a statement's header. */
  function Started(p: ParserState, s: Statement): (r: ParserState)
    requires WellFormed(s)
  {
    p.(current := Some(s.kind), data := Single(Emit(s)[0].data), lineNum := s.line, charNum := s.col, parsed := 1,
       awaiting := Some(if s.kind == CommentStatement then LineBreak else Separator))
  }

  /** A statement's header starts it. */
  lemma HeaderStarts(p: ParserState, s: Statement)
    requires p.current.None? && WellFormed(s)
    ensures ParseFrom(p, Emit(s)) == ParseFrom(Started(p, s), Emit(s)[1..])
  {
    var ts := Emit(s);
    assert ts == [ts[0]] + ts[1..];
    ParseCons(p, ts[0], ts[1..]);
  }

  /** After its header, a comment needs only its line break. */
  lemma CommentRest(p: ParserState, s: Statement)
    requires p.current.None? && WellFormed(s) && s.kind == CommentStatement
    ensures ParseFrom(Started(p, s), Emit(s)[1..]) == Ok(Finished(p, s))
  {
    var lb := Token(LineBreak, s.line, s.col, Text("\n"));
    assert Emit(s)[1..] == [lb] + [];
    ParseCons(Started(p, s), lb, []);
  }

  /** After its header, a name or a smoothing number: a separator, the argument, a line break. */
  lemma SingleRest(p: ParserState, s: Statement)
    requires p.current.None? && WellFormed(s) && (IsStringStatement(s.kind) || s.kind == SmoothShadingStatement)
    ensures ParseFrom(Started(p, s), Emit(s)[1..]) == Ok(Finished(p, s))
  {
    var ts := Emit(s);
    var sep := ts[1];
    var arg := ts[2];
    var lb := ts[3];
    var q := Started(p, s);
    var q1 := q.(awaiting := Some(arg.kind), parsed := 2);
    var q2 := if s.kind == SmoothShadingStatement
              then q1.(data := Items([arg.data]), parsed := 3, awaiting := Some(LineBreak))
              else q1.(data := Single(arg.data), parsed := 3, awaiting := Some(LineBreak));
    assert ts[1..] == [sep, arg, lb];
    assert ProcessToken(q, sep) == Ok(q1) && ProcessToken(q1, arg) == Ok(q2)
        && ProcessToken(q2, lb) == Ok(Finished(p, s)) by {
      if s.kind == SmoothShadingStatement {
        NumberDispatch(q, sep);
        NumberDispatch(q1, arg);
        NumberDispatch(q2, lb);
      } else {
        StringDispatch(q, sep);
        StringDispatch(q1, arg);
        StringDispatch(q2, lb);
      }
    }
    ThreeTokens(q, sep, arg, lb);
  }

  /** Three tokens, each taken in turn. */
  lemma ThreeTokens(q: ParserState, a: Token, b: Token, c: Token)
    requires ProcessToken(q, a).Ok? && ProcessToken(ProcessToken(q, a).value, b).Ok?
    ensures ParseFrom(q, [a, b, c]) == ParseFrom(ProcessToken(ProcessToken(q, a).value, b).value, [c])
  {
    var q1 := ProcessToken(q, a).value;
    assert [a, b, c] == [a] + [b, c];
    ParseCons(q, a, [b, c]);
    assert [b, c] == [b] + [c];
    ParseCons(q1, b, [c]);
  }

  /** The tokens of a tuple statement: its header, its arguments, its line break. */
  lemma EmitTuple(s: Statement)
    requires WellFormed(s)
    requires s.kind != CommentStatement && !IsStringStatement(s.kind) && s.kind != SmoothShadingStatement
    ensures Emit(s)[0].data == NoData
    ensures Emit(s)[1..] == Arguments(s.data.items, ArgumentType(s.kind), s.line, s.col) + [Token(LineBreak, s.line, s.col, Text("\n"))]
  {
  }

  /** After its header, a tuple statement takes its arguments and then its line break. */
  lemma TupleRest(p: ParserState, s: Statement)
    requires p.current.None? && WellFormed(s)
    requires s.kind != CommentStatement && !IsStringStatement(s.kind) && s.kind != SmoothShadingStatement
    ensures ParseFrom(Started(p, s), Emit(s)[1..]) == Ok(Finished(p, s))
  {
    EmitTuple(s);
    var q := Started(p, s);
    var lb := Token(LineBreak, s.line, s.col, Text("\n"));
    var args := Arguments(s.data.items, ArgumentType(s.kind), s.line, s.col);
    ArgumentsRun(q, s.data.items, s.line, s.col);
    var q2 := ArgumentsDone(q, s.data.items);
    assert PriorItems(q.data) + s.data.items == s.data.items;
    ParseAppend(q, args, [lb]);
    TupleLineBreak(p, s, q2, lb);
  }

  /** The line break that ends a tuple statement once all its arguments are in. */
  lemma TupleLineBreak(p: ParserState, s: Statement, q2: ParserState, lb: Token)
    requires WellFormed(s) && s.kind != CommentStatement && !IsStringStatement(s.kind) && s.kind != SmoothShadingStatement
    requires q2 == p.(current := Some(s.kind), data := Items(s.data.items), lineNum := s.line, charNum := s.col,
                      parsed := 1 + 2 * Arity(s.kind), awaiting := Some(LineBreak))
    requires lb.kind == LineBreak
    ensures ParseFrom(q2, [lb]) == Ok(Finished(p, s))
  {
    assert [lb] == [lb] + [];
    ParseCons(q2, lb, []);
  }

  /** The tokens of a well-formed statement parse back to it. */
  lemma ParseEmit(p: ParserState, s: Statement)
    requires p.current.None? && WellFormed(s)
    ensures ParseFrom(p, Emit(s)) == Ok(Finished(p, s))
  {
    HeaderStarts(p, s);
    if s.kind == CommentStatement {
      CommentRest(p, s);
    } else if IsStringStatement(s.kind) || s.kind == SmoothShadingStatement {
      SingleRest(p, s);
    } else {
      TupleRest(p, s);
    }
  }

  /** The tokens of a list of well-formed statements parse back to the list. */
  lemma {:induction false} ParseEmitAll(p: ParserState, ss: seq<Statement>)
    requires p.current.None? && AllWellFormed(ss)
    ensures ParseFrom(p, EmitAll(ss)).Ok?
    ensures ParseFrom(p, EmitAll(ss)).value.statements == p.statements + ss
    ensures ParseFrom(p, EmitAll(ss)).value.current.None?
    decreases |ss|
  {
    if |ss| == 0 {
      assert p.statements + ss == p.statements;
    } else {
      var init := ss[..|ss| - 1];
      var last := ss[|ss| - 1];
      InitWellFormed(ss);
      ParseEmitAll(p, init);
      var q := ParseFrom(p, EmitAll(init)).value;
      assert ParseFrom(p, EmitAll(ss)) == Ok(Finished(q, last)) by {
        EmitAllStep(p, ss);
        ParseEmit(q, last);
      }
      SnocInit(p.statements, ss);
    }
  }

  lemma SnocInit<T>(xs: seq<T>, ys: seq<T>)
    requires |ys| > 0
    ensures xs + ys[..|ys| - 1] + [ys[|ys| - 1]] == xs + ys
  {
    assert ys == ys[..|ys| - 1] + [ys[|ys| - 1]];
  }

  lemma InitWellFormed(ss: seq<Statement>)
    requires AllWellFormed(ss) && |ss| > 0
    ensures AllWellFormed(ss[..|ss| - 1]) && WellFormed(ss[|ss| - 1])
  {
    var init := ss[..|ss| - 1];
    forall i | 0 <= i < |init| ensures WellFormed(init[i]) {
      assert init[i] == ss[i];
    }
  }

  /** Feeding the tokens of a list of statements: those of all but the last, then the last's. */
  lemma EmitAllStep(p: ParserState, ss: seq<Statement>)
    requires AllWellFormed(ss) && |ss| > 0
    requires AllWellFormed(ss[..|ss| - 1]) && ParseFrom(p, EmitAll(ss[..|ss| - 1])).Ok?
    ensures ParseFrom(p, EmitAll(ss)) == ParseFrom(ParseFrom(p, EmitAll(ss[..|ss| - 1])).value, Emit(ss[|ss| - 1]))
  {
    var init := ss[..|ss| - 1];
    assert EmitAll(ss) == EmitAll(init) + Emit(ss[|ss| - 1]);
    ParseAppend(p, EmitAll(init), Emit(ss[|ss| - 1]));
  }

  /** parse_tokens gives back the statements whose tokens it is fed. */
  lemma ParseTokensEmit(ss: seq<Statement>)
    requires AllWellFormed(ss)
    ensures ParseTokens(EmitAll(ss)) == Ok(ss)
  {
    var p := Init();
    ParseEmitAll(p, ss);
    var r := ParseFrom(p, EmitAll(ss));
    assert r.Ok? && r.value.statements == ss;
  }

  /** Tokens without a line break complete no statement. */
  lemma {:induction false} NoBreakNoStatement(p: ParserState, ts: seq<Token>)
    requires forall i :: 0 <= i < |ts| ==> ts[i].kind != LineBreak
    requires ParseFrom(p, ts).Ok?
    ensures ParseFrom(p, ts).value.statements == p.statements
    decreases |ts|
  {
    if |ts| > 0 {
      NoBreakNoStatement(ProcessToken(p, ts[0]).value, ts[1..]);
    }
  }

  /** A statement whose line break has not arrived when the tokens end is dropped: the parse
      still succeeds, with the statements completed before it. */
  lemma UnfinishedIsDropped(ss: seq<Statement>, s: Statement, k: nat)
    requires AllWellFormed(ss) && WellFormed(s) && k < |Emit(s)|
    ensures ParseTokens(EmitAll(ss) + Emit(s)[..k]) == Ok(ss)
  {
    var p := Init();
    var ts := Emit(s);
    ParseEmitAll(p, ss);
    var q := ParseFrom(p, EmitAll(ss)).value;
    assert q.statements == ss;
    ParseEmit(q, s);
    ParseAppend(q, ts[..k], ts[k..]);
    assert ts[..k] + ts[k..] == ts;
    assert ParseFrom(q, ts[..k]).Ok?;
    NoBreakNoStatement(q, ts[..k]);
    ParseAppend(p, EmitAll(ss), ts[..k]);
    var r := ParseFrom(p, EmitAll(ss) + ts[..k]);
    assert r.Ok? && r.value.statements == ss;
  }

  /** A number, string or polygon where a statement should start is an error naming it. */
  lemma UnexpectedStart(t: Token, rest: seq<Token>)
    requires t.kind == Number || t.kind == StringToken || t.kind == Polygon
    ensures ParseTokens([t] + rest) == Err(ParserError(t, "expected statement start"))
  {
    ParseCons(Init(), t, rest);
  }

  /** A vertex cut short by a line break: the error names the line break, with no detail after
      its position. */
  lemma ShortVertexError()
    ensures ParseTokens([Token(Vertex, 1, 1, NoData), Token(Separator, 1, 2, NoData), Token(LineBreak, 1, 3, Text("\n"))])
         == Err(ParserError(Token(LineBreak, 1, 3, Text("\n")), ""))
    ensures "Unexpected token: LINE_BREAK" <= ErrorMessage(ParserError(Token(LineBreak, 1, 3, Text("\n")), ""))
  {
    var v := Token(Vertex, 1, 1, NoData);
    var sep := Token(Separator, 1, 2, NoData);
    var lb := Token(LineBreak, 1, 3, Text("\n"));
    var p := Init();
    var q := p.(current := Some(VertexStatement), data := Single(NoData), lineNum := 1, charNum := 1, parsed := 1,
                awaiting := Some(Separator));
    var q1 := q.(awaiting := Some(Number), parsed := 2);
    assert [v, sep, lb] == [v] + ([sep] + ([lb] + []));
    ParseCons(p, v, [sep] + ([lb] + []));
    assert ProcessToken(p, v) == Ok(q);
    ParseCons(q, sep, [lb] + []);
    assert ProcessToken(q, sep) == Ok(q1);
    ParseCons(q1, lb, []);
    assert ProcessToken(q1, lb) == Err(ParserError(lb, ""));
  }

  /* ---------------- What lexer tokens parse into ---------------- */

  /** The statement being read is consistent with what it has taken: a comment awaits its line
      break; a name awaits a separator, the string, or the line break once the text is in; a
      tuple statement has taken two tokens per argument after its header, and its arguments are
      all of the right type. */
  predicate Reading(p: ParserState) {
    p.current.Some? ==>
      var k := p.current.value;
      if k == CommentStatement then
        p.awaiting == Some(LineBreak) && p.data.Single? && p.data.value.Text?
      else if IsStringStatement(k) then
        && p.awaiting in {Some(Separator), Some(StringToken), Some(LineBreak)}
        && (p.awaiting == Some(LineBreak) ==> p.data.Single? && p.data.value.Text?)
      else
        && p.awaiting in {Some(Separator), Some(ArgumentType(k)), Some(LineBreak)}
        && AllKind(PriorItems(p.data), k == FaceStatement)
        && (p.awaiting == Some(Separator) ==> p.parsed == 1 + 2 * ItemCount(p.data) && ItemCount(p.data) < Arity(k))
        && (p.awaiting == Some(ArgumentType(k)) ==> p.parsed == 2 + 2 * ItemCount(p.data) && ItemCount(p.data) < Arity(k))
        && (p.awaiting == Some(LineBreak) ==> p.data.Items? && ItemCount(p.data) == Arity(k))
  }

  predicate ParserOk(p: ParserState) {
    Reading(p) && AllWellFormed(p.statements)
  }

  /** A header of lexer shape starts a consistent statement. */
  lemma HeaderKeepsReading(p: ParserState, t: Token)
    requires p.current.None? && WellShaped(t) && ProcessToken(p, t).Ok?
    ensures Reading(ProcessToken(p, t).value)
  {
  }

  /** The tokens of a name statement keep it consistent. */
  lemma StringKeepsReading(p: ParserState, t: Token)
    requires Reading(p) && p.current.Some? && IsStringStatement(p.current.value)
    requires WellShaped(t) && StringStep(p, t).Ok?
    ensures Reading(StringStep(p, t).value)
  {
  }

  /** The tokens of a tuple statement keep it consistent. */
  lemma TupleKeepsReading(p: ParserState, t: Token)
    requires Reading(p) && p.current.Some? && p.current.value != CommentStatement && !IsStringStatement(p.current.value)
    requires WellShaped(t) && ProcessToken(p, t).Ok?
    ensures Reading(ProcessToken(p, t).value)
  {
    var k := p.current.value;
    var r := ProcessToken(p, t).value;
    if r.current.Some? && t.kind == ArgumentType(k) {
      var items := PriorItems(r.data);
      assert items == PriorItems(p.data) + [t.data];
      assert ItemCount(r.data) == ItemCount(p.data) + 1;
      assert AllKind(items, k == FaceStatement) by {
        forall i | 0 <= i < |items| ensures if k == FaceStatement then items[i].Poly? else items[i].Num? {
          if i < |items| - 1 {
            assert items[i] == PriorItems(p.data)[i];
          }
        }
      }
    }
  }

  /** One token of lexer shape keeps the parser consistent. */
  lemma ProcessKeepsOk(p: ParserState, t: Token)
    requires ParserOk(p) && WellShaped(t) && ProcessToken(p, t).Ok?
    ensures ParserOk(ProcessToken(p, t).value)
  {
    var r := ProcessToken(p, t).value;
    if p.current.None? {
      HeaderKeepsReading(p, t);
    } else if IsStringStatement(p.current.value) {
      StringKeepsReading(p, t);
    } else if p.current.value != CommentStatement {
      TupleKeepsReading(p, t);
    }
    if p.current.Some? && r.statements != p.statements {
      var s := r.statements[|p.statements|];
      assert r.statements == p.statements + [s];
      CompletedWellFormed(p, t);
    }
  }

  /** The statement a line break completes is well formed. */
  lemma CompletedWellFormed(p: ParserState, t: Token)
    requires ParserOk(p) && WellShaped(t) && ProcessToken(p, t).Ok?
    requires p.current.Some? && ProcessToken(p, t).value.statements != p.statements
    ensures WellFormed(ProcessToken(p, t).value.statements[|p.statements|])
  {
    var k := p.current.value;
    if k != CommentStatement && !IsStringStatement(k) {
      assert p.awaiting == Some(LineBreak);
      assert PriorItems(p.data) == p.data.items;
    }
  }

  /** Parsing lexer-shaped tokens keeps the parser consistent all the way. */
  lemma {:induction false} ParseKeepsOk(p: ParserState, ts: seq<Token>)
    requires ParserOk(p) && (forall i :: 0 <= i < |ts| ==> WellShaped(ts[i]))
    requires ParseFrom(p, ts).Ok?
    ensures ParserOk(ParseFrom(p, ts).value)
    decreases |ts|
  {
    if |ts| > 0 {
      ProcessKeepsOk(p, ts[0]);
      ParseKeepsOk(ProcessToken(p, ts[0]).value, ts[1..]);
    }
  }

  /** Whatever the text: if the parser accepts the lexer's tokens, every statement it returns is
      well formed, holding the text, number or tuple its type calls for. */
  lemma LexThenParse(input: string, parse: FloatParser)
    ensures ParseTokens(Lex(input, parse)).Ok? ==> AllWellFormed(ParseTokens(Lex(input, parse)).value)
  {
    var ts := Lex(input, parse);
    LexTokensOk(input, parse);
    if ParseFrom(Init(), ts).Ok? {
      ParseKeepsOk(Init(), ts);
    }
  }
}
