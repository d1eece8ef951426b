/** Raw bytes, and the byte classes the automaton and the lexer share. */
module Bytes {
  newtype byte = x: int | 0 <= x < 256

  datatype Option<+T> = None | Some(value: T)

  const TAB: byte := 9
  const NEWLINE: byte := 10
  const FORM_FEED: byte := 12
  const RETURN: byte := 13
  const SPACE: byte := 32
  const BANG: byte := 33
  const DOLLAR: byte := 36
  const PERCENT: byte := 37
  const AMP: byte := 38
  const QUOTE: byte := 39
  const LPAREN: byte := 40
  const RPAREN: byte := 41
  const STAR: byte := 42
  const PLUS: byte := 43
  const COMMA: byte := 44
  const DASH: byte := 45
  const DOT: byte := 46
  const SLASH: byte := 47
  const ZERO: byte := 48
  const NINE: byte := 57
  const COLON: byte := 58
  const SEMI: byte := 59
  const LT: byte := 60
  const EQUALS: byte := 61
  const GT: byte := 62
  const UPPER_A: byte := 65
  const UPPER_C: byte := 67
  const UPPER_E: byte := 69
  const UPPER_T: byte := 84
  const UPPER_Z: byte := 90
  const LBRACKET: byte := 91
  const RBRACKET: byte := 93
  const UNDERSCORE: byte := 95
  const LOWER_A: byte := 97
  const LOWER_E: byte := 101
  const LOWER_F: byte := 102
  const LOWER_L: byte := 108
  const LOWER_T: byte := 116
  const LOWER_X: byte := 120
  const LOWER_Y: byte := 121
  const LOWER_Z: byte := 122
  const LBRACE: byte := 123
  const PIPE: byte := 124
  const RBRACE: byte := 125
  const TILDE: byte := 126

  predicate IsDigit(b: byte) {
    ZERO <= b <= NINE
  }

  predicate IsLower(b: byte) {
    LOWER_A <= b <= LOWER_Z
  }

  predicate IsAlpha(b: byte) {
    IsLower(b) || UPPER_A <= b <= UPPER_Z
  }

  /** The inter-token whitespace of the grammar: space, tab, newline, carriage return. */
  predicate IsWs(b: byte) {
    b == SPACE || b == TAB || b == NEWLINE || b == RETURN
  }

  /** Rust's `is_ascii_whitespace`: the grammar's whitespace and the form feed. */
  predicate IsAsciiWs(b: byte) {
    IsWs(b) || b == FORM_FEED
  }

  predicate IsIdentStart(b: byte) {
    IsAlpha(b) || b == UNDERSCORE
  }

  predicate IsIdentTail(b: byte) {
    IsAlpha(b) || IsDigit(b) || b == UNDERSCORE
  }

  /** A whole identifier. */
  predicate IsIdent(bytes: seq<byte>) {
    bytes != [] && IsIdentStart(bytes[0]) && forall i :: 0 <= i < |bytes| ==> IsIdentTail(bytes[i])
  }

  /** The bytes inside a `%` date literal: digits and the separators `-`, `T`, `:`. */
  predicate IsDateChar(b: byte) {
    IsDigit(b) || b == DASH || b == UPPER_T || b == COLON
  }

  predicate IsOpener(b: byte) {
    b == LPAREN || b == LBRACKET || b == LBRACE
  }

  predicate IsCloser(b: byte) {
    b == RPAREN || b == RBRACKET || b == RBRACE
  }

  lemma Reassociated(x: seq<byte>, y: seq<byte>, z: seq<byte>)
    ensures x + (y + z) == x + y + z
  {
  }

  /** The parts one after another. */
  function Joined(parts: seq<seq<byte>>): seq<byte> {
    if parts == [] then [] else parts[0] + Joined(parts[1..])
  }

  lemma {:induction false} JoinedSnoc(parts: seq<seq<byte>>, part: seq<byte>)
    ensures Joined(parts + [part]) == Joined(parts) + part
    decreases |parts|
  {
    if parts == [] {
      assert parts + [part] == [part] && [part][1..] == [];
      assert Joined([part]) == part + Joined([]);
    } else {
      assert (parts + [part])[0] == parts[0] && (parts + [part])[1..] == parts[1..] + [part];
      JoinedSnoc(parts[1..], part);
    }
  }

  lemma {:induction false} JoinedAround(parts: seq<seq<byte>>, i: nat)
    requires i < |parts|
    ensures Joined(parts) == Joined(parts[..i]) + parts[i] + Joined(parts[i + 1..])
    decreases |parts|
  {
    if i > 0 {
      assert parts[..i][0] == parts[0] && parts[..i][1..] == parts[1..][..i - 1];
      assert parts[i + 1..] == parts[1..][i..];
      JoinedAround(parts[1..], i - 1);
    }
  }

  /** The bytes of an ASCII literal, so that keywords can be written as text. */
  function Ascii(s: string): (bytes: seq<byte>)
    ensures |bytes| == |s|
  {
    seq(|s|, i requires 0 <= i < |s| => if s[i] < 128 as char then s[i] as byte else 0)
  }
}
