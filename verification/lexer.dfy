/** lexer.py and wfotoken.py: the character-level state machine that cuts a Wavefront OBJ text
    into tokens, each with its type, line, 1-based column and data. Python's float() on a token's
    text is a parameter; int() in polygon indices is Decimal.ParseInt. */
module Lexer {
  import opened Wrappers
  import opened Py
  import opened Decimal

  datatype TokenType =
    | Comment | MaterialLib | Object | Vertex | Normal | TexCoord | UseMaterial | Face
    | SmoothShading | Number | StringToken | Polygon | Separator | LineBreak

  /** A token's data: nothing, its text, a float, or polygon indices (None for an empty one). */
  datatype TokenData = NoData | Text(text: string) | Num(value: real) | Poly(indices: seq<Option<int>>)

  datatype Token = Token(kind: TokenType, line: int, col: int, data: TokenData)

  /** The keyword table: the only texts that lex as statement headers. */
  const Keywords: map<string, TokenType> :=
    map["mtllib" := MaterialLib, "o" := Object, "v" := Vertex, "vn" := Normal, "vt" := TexCoord,
        "usemtl" := UseMaterial, "f" := Face, "s" := SmoothShading]

  /* ---------------- Polygon indices ---------------- */

  /** The pieces of a text between '/' characters; one more piece than there are dividers. */
  function SplitSlash(s: string): (r: seq<string>)
    ensures |r| >= 1
    ensures forall i :: 0 <= i < |r| ==> '/' !in r[i]
    decreases |s|
  {
    if |s| == 0 then [""]
    else
      var rest := SplitSlash(s[1..]);
      if s[0] == '/' then [""] + rest
      else [[s[0]] + rest[0]] + rest[1..]
  }

  /** One index of a polygon: empty text is None, anything else must be an int. The outer None
      means the text is not an index. */
  function PolygonIndex(seg: string): (r: Option<Option<int>>)
    ensures seg == "" ==> r == Some(None)
    ensures seg != "" ==> (r.Some? <==> ParseInt(seg).Some?)
    ensures seg != "" && r.Some? ==> r.value == ParseInt(seg)
  {
    if seg == "" then Some(None)
    else match ParseInt(seg)
      case Some(n) => Some(Some(n))
      case None => None
  }

  function PolygonIndices(segs: seq<string>): (r: Option<seq<Option<int>>>)
    ensures r.Some? <==> forall i :: 0 <= i < |segs| ==> PolygonIndex(segs[i]).Some?
    ensures r.Some? ==> |r.value| == |segs| && forall i :: 0 <= i < |segs| ==> r.value[i] == PolygonIndex(segs[i]).value
    decreases |segs|
  {
    if |segs| == 0 then Some([])
    else match PolygonIndex(segs[0])
      case None => None
      case Some(first) =>
        match PolygonIndices(segs[1..])
        case None => None
        case Some(rest) => Some([first] + rest)
  }

  /** _lex_polygon: at most three '/'-separated indices (a third divider is a ValueError), each
      empty or an int; any failure is a ValueError, here None. */
  function LexPolygon(chars: string): (r: Option<seq<Option<int>>>)
    ensures r.Some? ==> 1 <= |r.value| <= 3 && |r.value| == |SplitSlash(chars)|
    ensures r.Some? <==> |SplitSlash(chars)| <= 3 && PolygonIndices(SplitSlash(chars)).Some?
  {
    var segs := SplitSlash(chars);
    if |segs| > 3 then None else PolygonIndices(segs)
  }

  /** The text of a polygon index: empty for None, str(n) otherwise. */
  function IndexText(x: Option<int>): (r: string)
    ensures '/' !in r
  {
    match x
    case None => ""
    case Some(n) =>
      var t := IntToString(n);
      assert forall i :: 0 <= i < |t| ==> t[i] == '-' || IsDigit(t[i]) by {
        if n < 0 {
          forall i | 0 <= i < |t| ensures t[i] == '-' || IsDigit(t[i]) {
            if i > 0 { assert t[i] == NatToString(-n)[i - 1]; }
          }
        }
      }
      t
  }

  function JoinSlash(parts: seq<string>): string
    requires |parts| >= 1
    decreases |parts|
  {
    if |parts| == 1 then parts[0] else parts[0] + "/" + JoinSlash(parts[1..])
  }

  /** The text of a polygon: its indices joined by '/'. */
  function PolygonText(p: seq<Option<int>>): string
    requires |p| >= 1
  {
    JoinSlash(seq(|p|, i requires 0 <= i < |p| => IndexText(p[i])))
  }

  /* ---------------- Character classes ---------------- */

  predicate IsLineEnding(c: char) {
    c == '\n' || c == '\r'
  }

  /** string.whitespace minus the line endings. */
  predicate IsBlank(c: char) {
    c == ' ' || c == '\t' || c == '\U{000b}' || c == '\U{000c}'
  }

  /* ---------------- The state machine ---------------- */

  datatype Mode = InToken | InLineBreak | InSeparator | InComment

  /** The lexer's fields: tokens so far, the characters not yet turned into a token, the position
      within the line, the line number, and the state (None before the first character). */
  datatype LexState = LexState(tokens: seq<Token>, buffer: string, charPos: nat, lineNum: int, mode: Option<Mode>)

  function Init(): LexState {
    LexState([], "", 0, 1, None)
  }

  /** A plain buffer's token, tried in order: keyword, float, polygon, and a string otherwise. */
  function Classify(buffer: string, line: int, col: int, parse: FloatParser): (t: Token)
    ensures t.line == line && t.col == col
    ensures buffer in Keywords ==> t.kind == Keywords[buffer] && t.data == NoData
    ensures buffer !in Keywords && parse(buffer).Some? ==> t == Token(Number, line, col, Num(parse(buffer).value))
    ensures buffer !in Keywords && parse(buffer).None? && LexPolygon(buffer).Some?
            ==> t == Token(Polygon, line, col, Poly(LexPolygon(buffer).value))
    ensures buffer !in Keywords && parse(buffer).None? && LexPolygon(buffer).None?
            ==> t == Token(StringToken, line, col, Text(buffer))
  {
    if buffer in Keywords then Token(Keywords[buffer], line, col, NoData)
    else match parse(buffer)
      case Some(x) => Token(Number, line, col, Num(x))
      case None =>
        match LexPolygon(buffer)
        case Some(p) => Token(Polygon, line, col, Poly(p))
        case None => Token(StringToken, line, col, Text(buffer))
  }

  /** The token a non-empty buffer becomes, at column charPos - |buffer| + 1: its kind comes from
      the state, and a plain buffer is classified. */
  function Pending(st: LexState, parse: FloatParser): (t: Token)
    ensures t.line == st.lineNum && t.col == st.charPos - |st.buffer| + 1
    ensures t.kind == Separator <==> st.mode == Some(InSeparator)
    ensures t.kind == LineBreak <==> st.mode == Some(InLineBreak)
    ensures t.kind == Comment <==> st.mode == Some(InComment)
  {
    var col := st.charPos - |st.buffer| + 1;
    match st.mode
    case Some(InComment) => Token(Comment, st.lineNum, col, Text(st.buffer))
    case Some(InLineBreak) => Token(LineBreak, st.lineNum, col, Text(st.buffer))
    case Some(InSeparator) => Token(Separator, st.lineNum, col, NoData)
    case _ => Classify(st.buffer, st.lineNum, col, parse)
  }

  /** _process_char_buffer with the append: an empty buffer makes no token; otherwise the buffer
      becomes the pending token, and a line break also moves to the next line. */
  function Flush(st: LexState, parse: FloatParser): (r: LexState)
    ensures r.buffer == "" && r.mode == st.mode
    ensures |st.buffer| == 0 ==> r == st
    ensures |st.buffer| > 0 ==> r.tokens == st.tokens + [Pending(st, parse)]
    ensures |st.buffer| > 0 && st.mode == Some(InLineBreak) ==> r.charPos == 0 && r.lineNum == st.lineNum + 1
    ensures |st.buffer| > 0 && st.mode != Some(InLineBreak) ==> r.charPos == st.charPos && r.lineNum == st.lineNum
  {
    if |st.buffer| == 0 then st
    else if st.mode == Some(InLineBreak) then
      st.(tokens := st.tokens + [Pending(st, parse)], buffer := "", charPos := 0, lineNum := st.lineNum + 1)
    else st.(tokens := st.tokens + [Pending(st, parse)], buffer := "")
  }

  /** The rules of _process_char in order: the state to flush into, or None when the character
      just joins the buffer. A line ending in a comment is caught by the first rule, so the
      fourth can never fire. */
  function Transition(mode: Option<Mode>, buffer: string, c: char): (r: Option<Mode>)
    ensures r == Some(InComment) ==> c == '#'
    ensures r == Some(InLineBreak) ==> IsLineEnding(c)
    ensures r == Some(InSeparator) ==> mode != Some(InSeparator)
    ensures mode.None? ==> r.Some?
    ensures r.None? && mode == Some(InComment) ==> !IsLineEnding(c)
    ensures r.None? && mode == Some(InLineBreak) ==> c == '\r' && buffer != "\n\r"
  {
    var isLineEnding := IsLineEnding(c);
    var isBlank := IsBlank(c);
    var isComment := c == '#';
    var isNormal := !(isLineEnding || isBlank || isComment);
    if isLineEnding && mode != Some(InLineBreak) then Some(InLineBreak)
    else if c == '\n' && mode == Some(InLineBreak) then mode
    else if isLineEnding && buffer == "\n\r" then mode
    else if isLineEnding && mode == Some(InComment) then Some(InLineBreak)
    else if isBlank && mode != Some(InSeparator) && mode != Some(InComment) then Some(InSeparator)
    else if isComment && mode != Some(InComment) then Some(InComment)
    else if isNormal && mode != Some(InToken) && mode != Some(InComment) then Some(InToken)
    else None
  }

  /** _process_char: the first matching rule may flush the buffer and change state; then the
      character joins the buffer. */
  function Step(st: LexState, c: char, parse: FloatParser): LexState {
    var st' :=
      match Transition(st.mode, st.buffer, c)
      case Some(m) => Flush(st, parse).(mode := Some(m))
      case None => st;
    st'.(buffer := st'.buffer + [c], charPos := st'.charPos + 1)
  }

  /** The state after reading every character of `input`. */
  function LexPrefix(input: string, parse: FloatParser): LexState
    decreases |input|
  {
    if |input| == 0 then Init()
    else Step(LexPrefix(input[..|input| - 1], parse), input[|input| - 1], parse)
  }

  /** lex_tokens: read to the end of the stream, then flush the last buffer. */
  function Lex(input: string, parse: FloatParser): seq<Token> {
    Flush(LexPrefix(input, parse), parse).tokens
  }

  /** lex_tokens as the loop it is. */
  method LexTokens(input: string, parse: FloatParser) returns (tokens: seq<Token>)
    ensures tokens == Lex(input, parse)
    ensures TokensOk(tokens)
  {
    var st := Init();
    var i := 0;
    while i < |input|
      invariant 0 <= i <= |input|
      invariant st == LexPrefix(input[..i], parse)
      invariant LexInv(st)
    {
      assert input[..i + 1][..i] == input[..i];
      StepKeepsInv(st, input[i], parse);
      st := Step(st, input[i], parse);
      i := i + 1;
    }
    assert input[..|input|] == input;
    FlushKeepsTokensOk(st, parse);
    tokens := Flush(st, parse).tokens;
  }

  /* ---------------- What every token list satisfies ---------------- */

  /** The number of line breaks in a token list. */
  function CountBreaks(ts: seq<Token>): nat
    decreases |ts|
  {
    if |ts| == 0 then 0
    else CountBreaks(ts[..|ts| - 1]) + (if ts[|ts| - 1].kind == LineBreak then 1 else 0)
  }

  /** Every token's line is one more than the number of line breaks before it. */
  predicate LinesNumbered(ts: seq<Token>) {
    forall i :: 0 <= i < |ts| ==> ts[i].line == 1 + CountBreaks(ts[..i])
  }

  /** A comment's text: '#' first, and no line ending. */
  predicate CommentText(s: string) {
    |s| > 0 && s[0] == '#' && forall i :: 0 <= i < |s| ==> !IsLineEnding(s[i])
  }

  /** A line break's text: "\n", "\n\r", or a run of '\r'. */
  predicate BreakText(s: string) {
    s == "\n" || s == "\n\r" || (|s| > 0 && forall i :: 0 <= i < |s| ==> s[i] == '\r')
  }

  /** The data each kind of token carries. */
  predicate WellShaped(t: Token) {
    match t.kind
    case Comment => t.data.Text? && CommentText(t.data.text)
    case LineBreak => t.data.Text? && BreakText(t.data.text)
    case Number => t.data.Num?
    case Polygon => t.data.Poly? && 1 <= |t.data.indices| <= 3
    case StringToken => t.data.Text?
    case _ => t.data.NoData?
  }

  predicate NoAdjacentSeparators(ts: seq<Token>) {
    forall i :: 0 <= i < |ts| - 1 ==> ts[i].kind != Separator || ts[i + 1].kind != Separator
  }

  predicate TokensOk(ts: seq<Token>) {
    && LinesNumbered(ts)
    && (forall i :: 0 <= i < |ts| ==> ts[i].col >= 1 && WellShaped(ts[i]))
    && NoAdjacentSeparators(ts)
  }

  predicate LastIsNotSeparator(ts: seq<Token>) {
    |ts| == 0 || ts[|ts| - 1].kind != Separator
  }

  /** The state the lexer keeps between characters. */
  predicate LexInv(st: LexState) {
    && TokensOk(st.tokens)
    && st.lineNum == 1 + CountBreaks(st.tokens)
    && |st.buffer| <= st.charPos
    && (st.mode.None? ==> st.tokens == [] && st.buffer == "")
    && (st.mode.Some? ==> |st.buffer| > 0)
    && (st.mode == Some(InComment) ==> CommentText(st.buffer))
    && (st.mode == Some(InLineBreak) ==> BreakText(st.buffer))
    && (st.mode == Some(InSeparator) ==> LastIsNotSeparator(st.tokens))
  }

  lemma AppendToken(ts: seq<Token>, t: Token)
    requires TokensOk(ts) && t.line == 1 + CountBreaks(ts) && t.col >= 1 && WellShaped(t)
    requires t.kind == Separator ==> LastIsNotSeparator(ts)
    ensures TokensOk(ts + [t])
    ensures CountBreaks(ts + [t]) == CountBreaks(ts) + (if t.kind == LineBreak then 1 else 0)
  {
    var r := ts + [t];
    assert r[..|r| - 1] == ts;
    forall i | 0 <= i < |r| ensures r[i].line == 1 + CountBreaks(r[..i]) {
      if i < |ts| {
        assert r[..i] == ts[..i];
      }
    }
  }

  lemma PendingShaped(st: LexState, parse: FloatParser)
    requires LexInv(st) && |st.buffer| > 0
    ensures WellShaped(Pending(st, parse)) && Pending(st, parse).col >= 1
  {
  }

  lemma FlushKeepsTokensOk(st: LexState, parse: FloatParser)
    requires LexInv(st)
    ensures TokensOk(Flush(st, parse).tokens)
    ensures Flush(st, parse).lineNum == 1 + CountBreaks(Flush(st, parse).tokens)
    ensures st.mode != Some(InSeparator) ==> LastIsNotSeparator(Flush(st, parse).tokens)
  {
    if |st.buffer| > 0 {
      PendingShaped(st, parse);
      AppendToken(st.tokens, Pending(st, parse));
    }
  }

  /** A character that joins the buffer keeps the invariant. */
  lemma JoinKeepsInv(st: LexState, c: char)
    requires LexInv(st) && Transition(st.mode, st.buffer, c).None?
    ensures LexInv(st.(buffer := st.buffer + [c], charPos := st.charPos + 1))
  {
    var b := st.buffer + [c];
    if st.mode == Some(InComment) {
      assert CommentText(b);
    }
    if st.mode == Some(InLineBreak) {
      assert BreakText(b);
    }
  }

  /** A character that flushes the buffer and starts a new one keeps the invariant. */
  lemma FlushIntoKeepsInv(st: LexState, m: Mode, c: char, parse: FloatParser)
    requires LexInv(st) && Transition(st.mode, st.buffer, c) == Some(m)
    ensures var f := Flush(st, parse); LexInv(f.(mode := Some(m), buffer := [c], charPos := f.charPos + 1))
  {
    FlushKeepsTokensOk(st, parse);
  }

  lemma StepKeepsInv(st: LexState, c: char, parse: FloatParser)
    requires LexInv(st)
    ensures LexInv(Step(st, c, parse))
  {
    match Transition(st.mode, st.buffer, c)
    case Some(m) =>
      FlushIntoKeepsInv(st, m, c, parse);
      assert Step(st, c, parse) == Flush(st, parse).(mode := Some(m), buffer := [c], charPos := Flush(st, parse).charPos + 1);
    case None =>
      JoinKeepsInv(st, c);
  }

  lemma {:induction false} PrefixInv(input: string, parse: FloatParser)
    ensures LexInv(LexPrefix(input, parse))
    decreases |input|
  {
    if |input| > 0 {
      PrefixInv(input[..|input| - 1], parse);
      StepKeepsInv(LexPrefix(input[..|input| - 1], parse), input[|input| - 1], parse);
    }
  }

  /** Whatever the input: every token's line is one more than the line breaks before it, every
      column is at least 1, every token carries the data its kind calls for (comments without a
      line ending, line breaks "\n", "\n\r" or a run of '\r'), and no two separators are
      adjacent, so a run of blanks is one token. */
  lemma LexTokensOk(input: string, parse: FloatParser)
    ensures TokensOk(Lex(input, parse))
  {
    PrefixInv(input, parse);
    FlushKeepsTokensOk(LexPrefix(input, parse), parse);
  }

  /** Every token takes at least one character: the empty stream gives no tokens, and no stream
      gives more tokens than it has characters. */
  lemma LexTokenBound(input: string, parse: FloatParser)
    ensures Lex("", parse) == []
    ensures |Lex(input, parse)| <= |input|
  {
    PrefixTokenBound(input, parse);
  }

  /** While reading, the tokens emitted plus the one the buffer will make fit in the characters
      read. */
  lemma {:induction false} PrefixTokenBound(input: string, parse: FloatParser)
    ensures var st := LexPrefix(input, parse);
            |st.tokens| + (if |st.buffer| > 0 then 1 else 0) <= |input|
    decreases |input|
  {
    if |input| > 0 {
      PrefixTokenBound(input[..|input| - 1], parse);
    }
  }

  /* ---------------- Polygon laws ---------------- */

  /** Splitting text that starts with a divider-free piece puts that piece in front of the first
      piece of the rest. */
  lemma {:induction false} SplitPrefix(a: string, tail: string)
    requires '/' !in a
    ensures SplitSlash(a + tail) == [a + SplitSlash(tail)[0]] + SplitSlash(tail)[1..]
    decreases |a|
  {
    var h := SplitSlash(tail);
    if |a| == 0 {
      assert a + tail == tail;
      assert a + h[0] == h[0];
      assert [h[0]] + h[1..] == h;
    } else {
      assert (a + tail)[1..] == a[1..] + tail;
      assert (a + tail)[0] == a[0];
      SplitPrefix(a[1..], tail);
      assert [a[0]] + (a[1..] + SplitSlash(tail)[0]) == a + SplitSlash(tail)[0];
    }
  }

  /** Splitting undoes joining, when no piece holds a divider. */
  lemma {:induction false} SplitJoin(parts: seq<string>)
    requires |parts| >= 1 && forall i :: 0 <= i < |parts| ==> '/' !in parts[i]
    ensures SplitSlash(JoinSlash(parts)) == parts
    decreases |parts|
  {
    if |parts| == 1 {
      SplitPrefix(parts[0], "");
      assert parts[0] + "" == parts[0];
    } else {
      var rest := JoinSlash(parts[1..]);
      SplitJoin(parts[1..]);
      assert parts[0] + "/" + rest == parts[0] + ("/" + rest);
      SplitPrefix(parts[0], "/" + rest);
      assert ("/" + rest)[0] == '/' && ("/" + rest)[1..] == rest;
      assert SplitSlash("/" + rest) == [""] + parts[1..];
      assert parts[0] + "" == parts[0];
      assert [parts[0]] + parts[1..] == parts;
    }
  }

  /** Each index reads back from its own text. */
  lemma IndexTextRoundTrip(x: Option<int>)
    ensures PolygonIndex(IndexText(x)) == Some(x)
  {
    if x.Some? {
      ParseIntToString(x.value);
    }
  }

  /** _lex_polygon reads back any polygon of one to three indices from its '/'-joined text. */
  lemma LexPolygonRoundTrip(p: seq<Option<int>>)
    requires 1 <= |p| <= 3
    ensures LexPolygon(PolygonText(p)) == Some(p)
  {
    var parts := seq(|p|, i requires 0 <= i < |p| => IndexText(p[i]));
    SplitJoin(parts);
    forall i | 0 <= i < |p| ensures PolygonIndex(parts[i]) == Some(p[i]) {
      IndexTextRoundTrip(p[i]);
    }
    assert PolygonIndices(parts).value == p;
  }

  /** The texts of the three polygons the unit tests use. */
  lemma TestPolygonTexts()
    ensures PolygonText([Some(1), Some(2), Some(3)]) == "1/2/3"
    ensures PolygonText([Some(1), None, Some(2)]) == "1//2"
    ensures PolygonText([Some(1), Some(3), None]) == "1/3/"
  {
    assert DigitChar(1) == '1' && DigitChar(2) == '2' && DigitChar(3) == '3';
    assert IndexText(Some(1)) == "1" && IndexText(Some(2)) == "2" && IndexText(Some(3)) == "3";
    assert seq(3, i requires 0 <= i < 3 => IndexText([Some(1), Some(2), Some(3)][i])) == ["1", "2", "3"];
    assert seq(3, i requires 0 <= i < 3 => IndexText([Some(1), None, Some(2)][i])) == ["1", "", "2"];
    assert seq(3, i requires 0 <= i < 3 => IndexText([Some(1), Some(3), None][i])) == ["1", "3", ""];
    assert JoinSlash(["1", "2", "3"]) == "1/2/3";
    assert JoinSlash(["1", "", "2"]) == "1//2";
    assert JoinSlash(["1", "3", ""]) == "1/3/";
  }

  /** The polygon cases the unit tests pin down. */
  lemma LexPolygonExamples()
    ensures LexPolygon("1/2/3") == Some([Some(1), Some(2), Some(3)])
    ensures LexPolygon("1//2") == Some([Some(1), None, Some(2)])
    ensures LexPolygon("1/3/") == Some([Some(1), Some(3), None])
  {
    TestPolygonTexts();
    LexPolygonRoundTrip([Some(1), Some(2), Some(3)]);
    LexPolygonRoundTrip([Some(1), None, Some(2)]);
    LexPolygonRoundTrip([Some(1), Some(3), None]);
  }

  /** A fourth index, or an index that is not an int, makes the text no polygon. */
  lemma LexPolygonRefusals()
    ensures LexPolygon("1/2/3/4") == None
    ensures LexPolygon("a/b") == None
  {
    SplitJoin(["1", "2", "3", "4"]);
    assert JoinSlash(["1", "2", "3", "4"]) == "1/2/3/4";
    SplitJoin(["a", "b"]);
    assert JoinSlash(["a", "b"]) == "a/b";
    assert PolygonIndex("a") == None;
  }

  /* ---------------- Traces ---------------- */

  /** The state after the first 3 characters of LineEndingsTrace. */
  lemma LineEndingsTracePrefix3(parse: FloatParser)
    ensures LexPrefix("\r\n\r", parse)
         == LexState([Token(LineBreak, 1, 1, Text("\r"))], "\n\r", 2, 2, Some(InLineBreak))
  {
    assert Step(Init(), '\r', parse)
        == LexState([], "\r", 1, 1, Some(InLineBreak));
    assert "\r\n"[..1] == "\r";
    assert Step(LexState([], "\r", 1, 1, Some(InLineBreak)), '\n', parse)
        == LexState([Token(LineBreak, 1, 1, Text("\r"))], "\n", 1, 2, Some(InLineBreak));
    assert "\r\n\r"[..2] == "\r\n";
    assert Step(LexState([Token(LineBreak, 1, 1, Text("\r"))], "\n", 1, 2, Some(InLineBreak)), '\r', parse)
        == LexState([Token(LineBreak, 1, 1, Text("\r"))], "\n\r", 2, 2, Some(InLineBreak));
  }

  /** The state after the first 6 characters of LineEndingsTrace. */
  lemma LineEndingsTracePrefix6(parse: FloatParser)
    ensures LexPrefix("\r\n\r\n\n\r", parse)
         == LexState([Token(LineBreak, 1, 1, Text("\r")), Token(LineBreak, 2, 1, Text("\n\r")), Token(LineBreak, 3, 1, Text("\n"))], "\n\r", 2, 4, Some(InLineBreak))
  {
    LineEndingsTracePrefix3(parse);
    assert "\r\n\r\n"[..3] == "\r\n\r";
    assert Step(LexState([Token(LineBreak, 1, 1, Text("\r"))], "\n\r", 2, 2, Some(InLineBreak)), '\n', parse)
        == LexState([Token(LineBreak, 1, 1, Text("\r")), Token(LineBreak, 2, 1, Text("\n\r"))], "\n", 1, 3, Some(InLineBreak));
    assert "\r\n\r\n\n"[..4] == "\r\n\r\n";
    assert Step(LexState([Token(LineBreak, 1, 1, Text("\r")), Token(LineBreak, 2, 1, Text("\n\r"))], "\n", 1, 3, Some(InLineBreak)), '\n', parse)
        == LexState([Token(LineBreak, 1, 1, Text("\r")), Token(LineBreak, 2, 1, Text("\n\r")), Token(LineBreak, 3, 1, Text("\n"))], "\n", 1, 4, Some(InLineBreak));
    assert "\r\n\r\n\n\r"[..5] == "\r\n\r\n\n";
    assert Step(LexState([Token(LineBreak, 1, 1, Text("\r")), Token(LineBreak, 2, 1, Text("\n\r")), Token(LineBreak, 3, 1, Text("\n"))], "\n", 1, 4, Some(InLineBreak)), '\r', parse)
        == LexState([Token(LineBreak, 1, 1, Text("\r")), Token(LineBreak, 2, 1, Text("\n\r")), Token(LineBreak, 3, 1, Text("\n"))], "\n\r", 2, 4, Some(InLineBreak));
  }

  /** The state after the first 9 characters of LineEndingsTrace. */
  lemma LineEndingsTracePrefix9(parse: FloatParser)
    ensures LexPrefix("\r\n\r\n\n\r\n\n\r", parse)
         == LexState([Token(LineBreak, 1, 1, Text("\r")), Token(LineBreak, 2, 1, Text("\n\r")), Token(LineBreak, 3, 1, Text("\n")), Token(LineBreak, 4, 1, Text("\n\r")), Token(LineBreak, 5, 1, Text("\n"))], "\n\r", 2, 6, Some(InLineBreak))
  {
    LineEndingsTracePrefix6(parse);
    assert "\r\n\r\n\n\r\n"[..6] == "\r\n\r\n\n\r";
    assert Step(LexState([Token(LineBreak, 1, 1, Text("\r")), Token(LineBreak, 2, 1, Text("\n\r")), Token(LineBreak, 3, 1, Text("\n"))], "\n\r", 2, 4, Some(InLineBreak)), '\n', parse)
        == LexState([Token(LineBreak, 1, 1, Text("\r")), Token(LineBreak, 2, 1, Text("\n\r")), Token(LineBreak, 3, 1, Text("\n")), Token(LineBreak, 4, 1, Text("\n\r"))], "\n", 1, 5, Some(InLineBreak));
    assert "\r\n\r\n\n\r\n\n"[..7] == "\r\n\r\n\n\r\n";
    assert Step(LexState([Token(LineBreak, 1, 1, Text("\r")), Token(LineBreak, 2, 1, Text("\n\r")), Token(LineBreak, 3, 1, Text("\n")), Token(LineBreak, 4, 1, Text("\n\r"))], "\n", 1, 5, Some(InLineBreak)), '\n', parse)
        == LexState([Token(LineBreak, 1, 1, Text("\r")), Token(LineBreak, 2, 1, Text("\n\r")), Token(LineBreak, 3, 1, Text("\n")), Token(LineBreak, 4, 1, Text("\n\r")), Token(LineBreak, 5, 1, Text("\n"))], "\n", 1, 6, Some(InLineBreak));
    assert "\r\n\r\n\n\r\n\n\r"[..8] == "\r\n\r\n\n\r\n\n";
    assert Step(LexState([Token(LineBreak, 1, 1, Text("\r")), Token(LineBreak, 2, 1, Text("\n\r")), Token(LineBreak, 3, 1, Text("\n")), Token(LineBreak, 4, 1, Text("\n\r")), Token(LineBreak, 5, 1, Text("\n"))], "\n", 1, 6, Some(InLineBreak)), '\r', parse)
        == LexState([Token(LineBreak, 1, 1, Text("\r")), Token(LineBreak, 2, 1, Text("\n\r")), Token(LineBreak, 3, 1, Text("\n")), Token(LineBreak, 4, 1, Text("\n\r")), Token(LineBreak, 5, 1, Text("\n"))], "\n\r", 2, 6, Some(InLineBreak));
  }

  /** The state after the first 10 characters of LineEndingsTrace. */
  lemma LineEndingsTracePrefix10(parse: FloatParser)
    ensures LexPrefix("\r\n\r\n\n\r\n\n\r\r", parse)
         == LexState([Token(LineBreak, 1, 1, Text("\r")), Token(LineBreak, 2, 1, Text("\n\r")), Token(LineBreak, 3, 1, Text("\n")), Token(LineBreak, 4, 1, Text("\n\r")), Token(LineBreak, 5, 1, Text("\n")), Token(LineBreak, 6, 1, Text("\n\r"))], "\r", 1, 7, Some(InLineBreak))
  {
    LineEndingsTracePrefix9(parse);
    assert "\r\n\r\n\n\r\n\n\r\r"[..9] == "\r\n\r\n\n\r\n\n\r";
    assert Step(LexState([Token(LineBreak, 1, 1, Text("\r")), Token(LineBreak, 2, 1, Text("\n\r")), Token(LineBreak, 3, 1, Text("\n")), Token(LineBreak, 4, 1, Text("\n\r")), Token(LineBreak, 5, 1, Text("\n"))], "\n\r", 2, 6, Some(InLineBreak)), '\r', parse)
        == LexState([Token(LineBreak, 1, 1, Text("\r")), Token(LineBreak, 2, 1, Text("\n\r")), Token(LineBreak, 3, 1, Text("\n")), Token(LineBreak, 4, 1, Text("\n\r")), Token(LineBreak, 5, 1, Text("\n")), Token(LineBreak, 6, 1, Text("\n\r"))], "\r", 1, 7, Some(InLineBreak));
  }

  /** The unit test of mixed line endings: seven line breaks, one per line, each at column 1;
      a newline followed by a carriage return is one line ending, the reverse pair is two. */
  lemma LineEndingsTrace(parse: FloatParser)
    ensures Lex("\r\n\r\n\n\r\n\n\r\r", parse)
         == [Token(LineBreak, 1, 1, Text("\r")),
            Token(LineBreak, 2, 1, Text("\n\r")),
            Token(LineBreak, 3, 1, Text("\n")),
            Token(LineBreak, 4, 1, Text("\n\r")),
            Token(LineBreak, 5, 1, Text("\n")),
            Token(LineBreak, 6, 1, Text("\n\r")),
            Token(LineBreak, 7, 1, Text("\r"))]
  {
    LineEndingsTracePrefix10(parse);
  }

  /** The state after the first 3 characters of SameLineTrace. */
  lemma SameLineTracePrefix3(parse: FloatParser)
    requires parse("0.00") == Some(0.0) && parse("1.00") == Some(1.0) && parse("2.00") == Some(2.0)
    ensures LexPrefix("v 0", parse)
         == LexState([Token(Vertex, 1, 1, NoData), Token(Separator, 1, 2, NoData)], "0", 3, 1, Some(InToken))
  {
    assert Step(Init(), 'v', parse)
        == LexState([], "v", 1, 1, Some(InToken));
    assert "v "[..1] == "v";
    assert Step(LexState([], "v", 1, 1, Some(InToken)), ' ', parse)
        == LexState([Token(Vertex, 1, 1, NoData)], " ", 2, 1, Some(InSeparator));
    assert "v 0"[..2] == "v ";
    assert Step(LexState([Token(Vertex, 1, 1, NoData)], " ", 2, 1, Some(InSeparator)), '0', parse)
        == LexState([Token(Vertex, 1, 1, NoData), Token(Separator, 1, 2, NoData)], "0", 3, 1, Some(InToken));
  }

  /** The state after the first 6 characters of SameLineTrace. */
  lemma SameLineTracePrefix6(parse: FloatParser)
    requires parse("0.00") == Some(0.0) && parse("1.00") == Some(1.0) && parse("2.00") == Some(2.0)
    ensures LexPrefix("v 0.00", parse)
         == LexState([Token(Vertex, 1, 1, NoData), Token(Separator, 1, 2, NoData)], "0.00", 6, 1, Some(InToken))
  {
    SameLineTracePrefix3(parse);
    assert "v 0."[..3] == "v 0";
    assert Step(LexState([Token(Vertex, 1, 1, NoData), Token(Separator, 1, 2, NoData)], "0", 3, 1, Some(InToken)), '.', parse)
        == LexState([Token(Vertex, 1, 1, NoData), Token(Separator, 1, 2, NoData)], "0.", 4, 1, Some(InToken));
    assert "v 0.0"[..4] == "v 0.";
    assert Step(LexState([Token(Vertex, 1, 1, NoData), Token(Separator, 1, 2, NoData)], "0.", 4, 1, Some(InToken)), '0', parse)
        == LexState([Token(Vertex, 1, 1, NoData), Token(Separator, 1, 2, NoData)], "0.0", 5, 1, Some(InToken));
    assert "v 0.00"[..5] == "v 0.0";
    assert Step(LexState([Token(Vertex, 1, 1, NoData), Token(Separator, 1, 2, NoData)], "0.0", 5, 1, Some(InToken)), '0', parse)
        == LexState([Token(Vertex, 1, 1, NoData), Token(Separator, 1, 2, NoData)], "0.00", 6, 1, Some(InToken));
  }

  /** The state after the first 9 characters of SameLineTrace. */
  lemma SameLineTracePrefix9(parse: FloatParser)
    requires parse("0.00") == Some(0.0) && parse("1.00") == Some(1.0) && parse("2.00") == Some(2.0)
    ensures LexPrefix("v 0.00 1.", parse)
         == LexState([Token(Vertex, 1, 1, NoData), Token(Separator, 1, 2, NoData), Token(Number, 1, 3, Num(0.0)), Token(Separator, 1, 7, NoData)], "1.", 9, 1, Some(InToken))
  {
    SameLineTracePrefix6(parse);
    assert "v 0.00 "[..6] == "v 0.00";
    assert Step(LexState([Token(Vertex, 1, 1, NoData), Token(Separator, 1, 2, NoData)], "0.00", 6, 1, Some(InToken)), ' ', parse)
        == LexState([Token(Vertex, 1, 1, NoData), Token(Separator, 1, 2, NoData), Token(Number, 1, 3, Num(0.0))], " ", 7, 1, Some(InSeparator));
    assert "v 0.00 1"[..7] == "v 0.00 ";
    assert Step(LexState([Token(Vertex, 1, 1, NoData), Token(Separator, 1, 2, NoData), Token(Number, 1, 3, Num(0.0))], " ", 7, 1, Some(InSeparator)), '1', parse)
        == LexState([Token(Vertex, 1, 1, NoData), Token(Separator, 1, 2, NoData), Token(Number, 1, 3, Num(0.0)), Token(Separator, 1, 7, NoData)], "1", 8, 1, Some(InToken));
    assert "v 0.00 1."[..8] == "v 0.00 1";
    assert Step(LexState([Token(Vertex, 1, 1, NoData), Token(Separator, 1, 2, NoData), Token(Number, 1, 3, Num(0.0)), Token(Separator, 1, 7, NoData)], "1", 8, 1, Some(InToken)), '.', parse)
        == LexState([Token(Vertex, 1, 1, NoData), Token(Separator, 1, 2, NoData), Token(Number, 1, 3, Num(0.0)), Token(Separator, 1, 7, NoData)], "1.", 9, 1, Some(InToken));
  }

  /** The state after the first 12 characters of SameLineTrace. */
  lemma SameLineTracePrefix12(parse: FloatParser)
    requires parse("0.00") == Some(0.0) && parse("1.00") == Some(1.0) && parse("2.00") == Some(2.0)
    ensures LexPrefix("v 0.00 1.00 ", parse)
         == LexState([Token(Vertex, 1, 1, NoData), Token(Separator, 1, 2, NoData), Token(Number, 1, 3, Num(0.0)), Token(Separator, 1, 7, NoData), Token(Number, 1, 8, Num(1.0))], " ", 12, 1, Some(InSeparator))
  {
    SameLineTracePrefix9(parse);
    assert "v 0.00 1.0"[..9] == "v 0.00 1.";
    assert Step(LexState([Token(Vertex, 1, 1, NoData), Token(Separator, 1, 2, NoData), Token(Number, 1, 3, Num(0.0)), Token(Separator, 1, 7, NoData)], "1.", 9, 1, Some(InToken)), '0', parse)
        == LexState([Token(Vertex, 1, 1, NoData), Token(Separator, 1, 2, NoData), Token(Number, 1, 3, Num(0.0)), Token(Separator, 1, 7, NoData)], "1.0", 10, 1, Some(InToken));
    assert "v 0.00 1.00"[..10] == "v 0.00 1.0";
    assert Step(LexState([Token(Vertex, 1, 1, NoData), Token(Separator, 1, 2, NoData), Token(Number, 1, 3, Num(0.0)), Token(Separator, 1, 7, NoData)], "1.0", 10, 1, Some(InToken)), '0', parse)
        == LexState([Token(Vertex, 1, 1, NoData), Token(Separator, 1, 2, NoData), Token(Number, 1, 3, Num(0.0)), Token(Separator, 1, 7, NoData)], "1.00", 11, 1, Some(InToken));
    assert "v 0.00 1.00 "[..11] == "v 0.00 1.00";
    assert Step(LexState([Token(Vertex, 1, 1, NoData), Token(Separator, 1, 2, NoData), Token(Number, 1, 3, Num(0.0)), Token(Separator, 1, 7, NoData)], "1.00", 11, 1, Some(InToken)), ' ', parse)
        == LexState([Token(Vertex, 1, 1, NoData), Token(Separator, 1, 2, NoData), Token(Number, 1, 3, Num(0.0)), Token(Separator, 1, 7, NoData), Token(Number, 1, 8, Num(1.0))], " ", 12, 1, Some(InSeparator));
  }

  /** The state after the first 15 characters of SameLineTrace. */
  lemma SameLineTracePrefix15(parse: FloatParser)
    requires parse("0.00") == Some(0.0) && parse("1.00") == Some(1.0) && parse("2.00") == Some(2.0)
    ensures LexPrefix("v 0.00 1.00 2.0", parse)
         == LexState([Token(Vertex, 1, 1, NoData), Token(Separator, 1, 2, NoData), Token(Number, 1, 3, Num(0.0)), Token(Separator, 1, 7, NoData), Token(Number, 1, 8, Num(1.0)), Token(Separator, 1, 12, NoData)], "2.0", 15, 1, Some(InToken))
  {
    SameLineTracePrefix12(parse);
    assert "v 0.00 1.00 2"[..12] == "v 0.00 1.00 ";
    assert Step(LexState([Token(Vertex, 1, 1, NoData), Token(Separator, 1, 2, NoData), Token(Number, 1, 3, Num(0.0)), Token(Separator, 1, 7, NoData), Token(Number, 1, 8, Num(1.0))], " ", 12, 1, Some(InSeparator)), '2', parse)
        == LexState([Token(Vertex, 1, 1, NoData), Token(Separator, 1, 2, NoData), Token(Number, 1, 3, Num(0.0)), Token(Separator, 1, 7, NoData), Token(Number, 1, 8, Num(1.0)), Token(Separator, 1, 12, NoData)], "2", 13, 1, Some(InToken));
    assert "v 0.00 1.00 2."[..13] == "v 0.00 1.00 2";
    assert Step(LexState([Token(Vertex, 1, 1, NoData), Token(Separator, 1, 2, NoData), Token(Number, 1, 3, Num(0.0)), Token(Separator, 1, 7, NoData), Token(Number, 1, 8, Num(1.0)), Token(Separator, 1, 12, NoData)], "2", 13, 1, Some(InToken)), '.', parse)
        == LexState([Token(Vertex, 1, 1, NoData), Token(Separator, 1, 2, NoData), Token(Number, 1, 3, Num(0.0)), Token(Separator, 1, 7, NoData), Token(Number, 1, 8, Num(1.0)), Token(Separator, 1, 12, NoData)], "2.", 14, 1, Some(InToken));
    assert "v 0.00 1.00 2.0"[..14] == "v 0.00 1.00 2.";
    assert Step(LexState([Token(Vertex, 1, 1, NoData), Token(Separator, 1, 2, NoData), Token(Number, 1, 3, Num(0.0)), Token(Separator, 1, 7, NoData), Token(Number, 1, 8, Num(1.0)), Token(Separator, 1, 12, NoData)], "2.", 14, 1, Some(InToken)), '0', parse)
        == LexState([Token(Vertex, 1, 1, NoData), Token(Separator, 1, 2, NoData), Token(Number, 1, 3, Num(0.0)), Token(Separator, 1, 7, NoData), Token(Number, 1, 8, Num(1.0)), Token(Separator, 1, 12, NoData)], "2.0", 15, 1, Some(InToken));
  }

  /** The state after the first 17 characters of SameLineTrace. */
  lemma SameLineTracePrefix17(parse: FloatParser)
    requires parse("0.00") == Some(0.0) && parse("1.00") == Some(1.0) && parse("2.00") == Some(2.0)
    ensures LexPrefix("v 0.00 1.00 2.00\n", parse)
         == LexState([Token(Vertex, 1, 1, NoData), Token(Separator, 1, 2, NoData), Token(Number, 1, 3, Num(0.0)), Token(Separator, 1, 7, NoData), Token(Number, 1, 8, Num(1.0)), Token(Separator, 1, 12, NoData), Token(Number, 1, 13, Num(2.0))], "\n", 17, 1, Some(InLineBreak))
  {
    SameLineTracePrefix15(parse);
    assert "v 0.00 1.00 2.00"[..15] == "v 0.00 1.00 2.0";
    assert Step(LexState([Token(Vertex, 1, 1, NoData), Token(Separator, 1, 2, NoData), Token(Number, 1, 3, Num(0.0)), Token(Separator, 1, 7, NoData), Token(Number, 1, 8, Num(1.0)), Token(Separator, 1, 12, NoData)], "2.0", 15, 1, Some(InToken)), '0', parse)
        == LexState([Token(Vertex, 1, 1, NoData), Token(Separator, 1, 2, NoData), Token(Number, 1, 3, Num(0.0)), Token(Separator, 1, 7, NoData), Token(Number, 1, 8, Num(1.0)), Token(Separator, 1, 12, NoData)], "2.00", 16, 1, Some(InToken));
    assert "v 0.00 1.00 2.00\n"[..16] == "v 0.00 1.00 2.00";
    assert Step(LexState([Token(Vertex, 1, 1, NoData), Token(Separator, 1, 2, NoData), Token(Number, 1, 3, Num(0.0)), Token(Separator, 1, 7, NoData), Token(Number, 1, 8, Num(1.0)), Token(Separator, 1, 12, NoData)], "2.00", 16, 1, Some(InToken)), '\n', parse)
        == LexState([Token(Vertex, 1, 1, NoData), Token(Separator, 1, 2, NoData), Token(Number, 1, 3, Num(0.0)), Token(Separator, 1, 7, NoData), Token(Number, 1, 8, Num(1.0)), Token(Separator, 1, 12, NoData), Token(Number, 1, 13, Num(2.0))], "\n", 17, 1, Some(InLineBreak));
  }

  /** The unit test of one line: a keyword, three numbers and the separators between them, at
      columns 1, 2, 3, 7, 8, 12, 13 and 17, given what float() makes of the numbers. */
  lemma SameLineTrace(parse: FloatParser)
    requires parse("0.00") == Some(0.0) && parse("1.00") == Some(1.0) && parse("2.00") == Some(2.0)
    ensures Lex("v 0.00 1.00 2.00\n", parse)
         == [Token(Vertex, 1, 1, NoData),
            Token(Separator, 1, 2, NoData),
            Token(Number, 1, 3, Num(0.0)),
            Token(Separator, 1, 7, NoData),
            Token(Number, 1, 8, Num(1.0)),
            Token(Separator, 1, 12, NoData),
            Token(Number, 1, 13, Num(2.0)),
            Token(LineBreak, 1, 17, Text("\n"))]
  {
    SameLineTracePrefix17(parse);
  }
}
