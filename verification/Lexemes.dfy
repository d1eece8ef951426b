/** Classification of a token's bytes, and the quoting of string contents. */
module Lexemes {
  import opened Bytes
  import opened Automaton

  datatype Lexeme =
    | Blank
    | Identifier(text: seq<byte>)
    | StringLit(content: seq<byte>)
    | NumberLit
    | DateLit
    | ArrowOp
    | DotOp
    | DollarSign
    | PipeOp
    | CmpOp
    | OpenDelim
    | CloseDelim
    | CommaSep
    | OtherOp

  /** The two-byte operators a structural gap keeps whole. */
  predicate IsTwoByteOp(a: byte, b: byte) {
    || (a == DASH && b == GT)
    || (a == EQUALS && b == EQUALS)
    || (a == BANG && b == EQUALS)
    || (a == LT && b == EQUALS)
    || (a == GT && b == EQUALS)
    || (a == AMP && b == AMP)
    || (a == PIPE && b == PIPE)
  }

  predicate IsContinuation(b: byte) {
    0x80 <= b < 0xC0
  }

  /** The length of the well-formed UTF-8 sequence `bytes` starts with; 0 when there is none. */
  function Utf8Head(bytes: seq<byte>): (n: nat)
    requires bytes != []
    ensures n <= |bytes|
  {
    var a := bytes[0];
    if a < 0x80 then 1
    else if |bytes| >= 2 && 0xC2 <= a < 0xE0 && IsContinuation(bytes[1]) then 2
    else if |bytes| >= 3 && 0xE0 <= a < 0xF0 && IsContinuation(bytes[1]) && IsContinuation(bytes[2])
      && (a == 0xE0 ==> bytes[1] >= 0xA0) && (a == 0xED ==> bytes[1] < 0xA0) then 3
    else if |bytes| >= 4 && 0xF0 <= a < 0xF5 && IsContinuation(bytes[1]) && IsContinuation(bytes[2])
      && IsContinuation(bytes[3]) && (a == 0xF0 ==> bytes[1] >= 0x90) && (a == 0xF4 ==> bytes[1] < 0x90) then 4
    else 0
  }

  predicate IsUtf8(bytes: seq<byte>) {
    bytes == [] || (Utf8Head(bytes) > 0 && IsUtf8(bytes[Utf8Head(bytes)..]))
  }

  lemma {:induction false} AsciiIsUtf8(bytes: seq<byte>)
    requires forall i :: 0 <= i < |bytes| ==> bytes[i] < 0x80
    ensures IsUtf8(bytes)
  {
    if bytes != [] { AsciiIsUtf8(bytes[1..]); }
  }

  function Classify(bytes: seq<byte>): Lexeme {
    if forall i :: 0 <= i < |bytes| ==> IsAsciiWs(bytes[i]) then Blank
    else if bytes == [DASH, GT] then ArrowOp
    else if bytes == [EQUALS, EQUALS] || bytes == [BANG, EQUALS] || bytes == [LT, EQUALS] || bytes == [GT, EQUALS]
      || bytes == [LT] || bytes == [GT] then CmpOp
    else if bytes == [DOT] then DotOp
    else if bytes == [DOLLAR] then DollarSign
    else if bytes == [PIPE] then PipeOp
    else if bytes == [COMMA] then CommaSep
    else if |bytes| == 1 && IsOpener(bytes[0]) then OpenDelim
    else if |bytes| == 1 && IsCloser(bytes[0]) then CloseDelim
    else if bytes[0] == QUOTE then StringLit(Unquote(bytes))
    else if bytes[0] == PERCENT then DateLit
    else if IsDigit(bytes[0]) || (bytes[0] == DASH && |bytes| > 1 && IsDigit(bytes[1])) then NumberLit
    else if IsIdentStart(bytes[0]) && IsUtf8(bytes) then Identifier(bytes)
    else OtherOp
  }

  // ----- quoting -----

  /** Collapse each doubled quote, left to right. */
  function Undoubled(bytes: seq<byte>): seq<byte> {
    if bytes == [] then []
    else if |bytes| > 1 && bytes[0] == QUOTE && bytes[1] == QUOTE then [QUOTE] + Undoubled(bytes[2..])
    else [bytes[0]] + Undoubled(bytes[1..])
  }

  predicate IsQuoted(bytes: seq<byte>) {
    |bytes| >= 2 && bytes[0] == QUOTE && bytes[|bytes| - 1] == QUOTE
  }

  /** Strip the surrounding quotes when both are there, then undouble. */
  function Unquote(bytes: seq<byte>): seq<byte> {
    Undoubled(if IsQuoted(bytes) then bytes[1..|bytes| - 1] else bytes)
  }

  function Doubled(content: seq<byte>): seq<byte> {
    if content == [] then []
    else (if content[0] == QUOTE then [QUOTE, QUOTE] else [content[0]]) + Doubled(content[1..])
  }

  function Quote(content: seq<byte>): seq<byte> {
    [QUOTE] + Doubled(content) + [QUOTE]
  }

  method UnquoteBytes(bytes: seq<byte>) returns (out: seq<byte>)
    ensures out == Unquote(bytes)
  {
    var rest := if IsQuoted(bytes) then bytes[1..|bytes| - 1] else bytes;
    out := [];
    while rest != []
      invariant out + Undoubled(rest) == Unquote(bytes)
      decreases |rest|
    {
      var b := rest[0];
      out := out + [b];
      rest := if b == QUOTE && |rest| > 1 && rest[1] == QUOTE then rest[2..] else rest[1..];
    }
  }

  method QuoteBytes(content: seq<byte>) returns (out: seq<byte>)
    ensures out == Quote(content)
  {
    out := [QUOTE];
    var i := 0;
    while i < |content|
      invariant 0 <= i <= |content|
      invariant out + Doubled(content[i..]) == [QUOTE] + Doubled(content)
    {
      assert content[i..][1..] == content[i + 1..];
      if content[i] == QUOTE {
        out := out + [QUOTE];
      }
      out := out + [content[i]];
      i := i + 1;
    }
    out := out + [QUOTE];
  }

  lemma {:induction false} UndoubleDoubled(content: seq<byte>)
    ensures Undoubled(Doubled(content)) == content
  {
    if content != [] {
      var d := Doubled(content);
      UndoubleDoubled(content[1..]);
      if content[0] == QUOTE {
        assert d[2..] == Doubled(content[1..]);
      } else {
        assert d[1..] == Doubled(content[1..]);
      }
    }
  }

  lemma UnquoteQuote(content: seq<byte>)
    ensures Unquote(Quote(content)) == content
  {
    var q := Quote(content);
    assert q[1..|q| - 1] == Doubled(content);
    UndoubleDoubled(content);
  }

  /** Quoting is injective, so two columns are one quoted string only when they are one column. */
  lemma QuoteIsInjective(a: seq<byte>, b: seq<byte>)
    requires Quote(a) == Quote(b)
    ensures a == b
  {
    UnquoteQuote(a);
    UnquoteQuote(b);
  }

  /** Reading `body` inside a string without leaving it: whether a quote is left pending, or `None`. */
  function StringRun(escaped: bool, body: seq<byte>): Option<bool>
    decreases |body|
  {
    if body == [] then Some(escaped)
    else match StepOf(InStrLit(escaped), None, body[0])
      case Next(InStrLit(next)) => StringRun(next, body[1..])
      case _ => None
  }

  /** From an open string, `body` is read without ever leaving the string, and ends on a closing quote. */
  predicate StaysInString(escaped: bool, body: seq<byte>) {
    StringRun(escaped, body) == Some(true)
  }

  lemma {:induction false} ClosedStringBody(body: seq<byte>)
    requires StaysInString(false, body)
    ensures body != [] && body[|body| - 1] == QUOTE
    ensures var inner := body[..|body| - 1]; inner == Doubled(Undoubled(inner))
    decreases |body|
  {
    var inner := body[..|body| - 1];
    if body[0] == QUOTE && |body| > 1 {
      StillInString(body[1..]);
      var rest := body[2..];
      ClosedStringBody(rest);
      assert inner[2..] == rest[..|rest| - 1];
      assert inner == [QUOTE, QUOTE] + rest[..|rest| - 1];
    } else if body[0] != QUOTE {
      var rest := body[1..];
      ClosedStringBody(rest);
      assert inner[1..] == rest[..|rest| - 1];
      assert inner == [body[0]] + rest[..|rest| - 1];
    }
  }

  /** After a quote inside a string, only a second quote stays in the string. */
  lemma StillInString(body: seq<byte>)
    requires StaysInString(true, body) && body != []
    ensures body[0] == QUOTE && StaysInString(false, body[1..])
  {
  }

  /** Every string the automaton closes is the quoting of its own unquoted content. */
  lemma ClosedStringIsQuoted(lexeme: seq<byte>)
    requires lexeme != [] && lexeme[0] == QUOTE && StaysInString(false, lexeme[1..])
    ensures lexeme == Quote(Unquote(lexeme))
  {
    var body := lexeme[1..];
    ClosedStringBody(body);
    assert lexeme[1..|lexeme| - 1] == body[..|body| - 1];
    assert lexeme == [QUOTE] + body[..|body| - 1] + [QUOTE];
  }
}
