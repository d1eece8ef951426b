/** The language the decoder admits, as sentences: which parts there are, what may follow what, and how they nest. */
module Syntax {
  import opened Bytes
  import opened Automaton
  import Runs
  import opened Model
  import Lexemes

  // ----- the parts of a sentence -----

  datatype Exponent = Exponent(mark: byte, sign: Option<byte>, digits: seq<byte>)

  datatype Fraction = Fraction(digits: seq<byte>, exponent: Option<Exponent>)

  datatype Numeral = Numeral(minus: bool, whole: seq<byte>, fraction: Option<Fraction>)

  /** What stands between two values; the bar heads a lambda's body. */
  datatype Operator =
    | Plus | Minus | Times | Over
    | Less | Greater | LessEq | GreaterEq | Equal | NotEqual
    | And | Or | Bar

  datatype Part =
    | QueryBar
    | BlockBrace
    | BlockBar
    | Source(inBlock: bool, name: Name)
    | Under(name: Name)
    | LetWord
    | LetName(name: Name)
    | Assign
    | Word(name: Name)
    | Variable(name: Name)
    | Number(numeral: Numeral)
    | Text(content: seq<byte>)
    | Day(chars: seq<byte>)
    | Milestone(letters: seq<byte>)
    | Column(name: Name)
    | QuotedColumn(content: seq<byte>)
    | Not
    | BodyBar
    | Open(frame: Frame)
    | OpenColumns
    | OpenLambda
    | Star
    | Infix(op: Operator)
    | Comma
    | Semi
    | Dot
    | Arrow
    | Colon
    | Scoped(name: Name)
    | Member(name: Name)
    | QuotedMember(content: seq<byte>)
    | Close(frame: Frame)

  // ----- spelling -----

  function SignText(sign: Option<byte>): seq<byte> {
    match sign case Some(b) => [b] case None => []
  }

  function ExponentText(e: Exponent): seq<byte> {
    [e.mark] + SignText(e.sign) + e.digits
  }

  function FractionText(f: Fraction): seq<byte> {
    [DOT] + f.digits + match f.exponent case Some(e) => ExponentText(e) case None => []
  }

  function NumeralText(n: Numeral): seq<byte> {
    (if n.minus then [DASH] else []) + n.whole + match n.fraction case Some(f) => FractionText(f) case None => []
  }

  function OperatorText(op: Operator): seq<byte> {
    match op
    case Plus => [PLUS]
    case Minus => [DASH]
    case Times => [STAR]
    case Over => [SLASH]
    case Less => [LT]
    case Greater => [GT]
    case LessEq => [LT, EQUALS]
    case GreaterEq => [GT, EQUALS]
    case Equal => [EQUALS, EQUALS]
    case NotEqual => [BANG, EQUALS]
    case And => [AMP, AMP]
    case Or => [PIPE, PIPE]
    case Bar => [PIPE]
  }

  function OpenerText(frame: Frame): seq<byte> {
    match frame
    case Paren => [LPAREN]
    case Bracket => [LBRACKET]
    case Brace | BraceLambda => [LBRACE]
  }

  function CloserText(frame: Frame): seq<byte> {
    match frame
    case Paren => [RPAREN]
    case Bracket => [RBRACKET]
    case Brace | BraceLambda => [RBRACE]
  }

  function PartText(part: Part): seq<byte> {
    match part
    case QueryBar | BlockBar | BodyBar => [PIPE]
    case BlockBrace | OpenLambda => [LBRACE]
    case Source(_, name) => name
    case Under(name) => [COLON, COLON] + name
    case LetWord => [LOWER_L, LOWER_E, LOWER_T]
    case LetName(name) => name
    case Assign => [EQUALS]
    case Word(name) => name
    case Variable(name) => [DOLLAR] + name
    case Number(numeral) => NumeralText(numeral)
    case Text(content) => Lexemes.Quote(content)
    case Day(chars) => [PERCENT] + chars
    case Milestone(letters) => [PERCENT] + letters
    case Column(name) => [TILDE] + name
    case QuotedColumn(content) => [TILDE] + Lexemes.Quote(content)
    case Not => [BANG]
    case Open(frame) => OpenerText(frame)
    case OpenColumns => [TILDE, LBRACKET]
    case Star => [STAR]
    case Infix(op) => OperatorText(op)
    case Comma => [COMMA]
    case Semi => [SEMI]
    case Dot => [DOT]
    case Arrow => [DASH, GT]
    case Colon => [COLON]
    case Scoped(name) => [COLON, COLON] + name
    case Member(name) => name
    case QuotedMember(content) => Lexemes.Quote(content)
    case Close(frame) => CloserText(frame)
  }

  predicate AllDigits(bytes: seq<byte>) {
    forall i :: 0 <= i < |bytes| ==> IsDigit(bytes[i])
  }

  predicate Digits(bytes: seq<byte>) {
    bytes != [] && AllDigits(bytes)
  }

  predicate IsExponent(e: Exponent) {
    && (e.mark == LOWER_E || e.mark == UPPER_E)
    && (e.sign.Some? ==> e.sign.value == PLUS || e.sign.value == DASH)
    && Digits(e.digits)
  }

  predicate IsFraction(f: Fraction) {
    Digits(f.digits) && (f.exponent.Some? ==> IsExponent(f.exponent.value))
  }

  /** A number has digits before or behind its point, and an exponent only behind a fraction. */
  predicate IsNumeral(n: Numeral) {
    match n.fraction
    case Some(f) => AllDigits(n.whole) && IsFraction(f)
    case None => Digits(n.whole)
  }

  predicate AllDateChars(bytes: seq<byte>) {
    forall i :: 0 <= i < |bytes| ==> IsDateChar(bytes[i]) || bytes[i] == DOT
  }

  predicate AllLower(bytes: seq<byte>) {
    forall i :: 0 <= i < |bytes| ==> IsLower(bytes[i])
  }

  predicate WellSpelled(part: Part) {
    match part
    case Source(_, name) => IsIdent(name)
    case Under(name) => IsIdent(name)
    case LetName(name) => IsIdent(name)
    case Word(name) => IsIdent(name)
    case Variable(name) => IsIdent(name)
    case Column(name) => IsIdent(name)
    case Scoped(name) => IsIdent(name)
    case Member(name) => IsIdent(name)
    case Number(numeral) => IsNumeral(numeral)
    case Day(chars) => chars != [] && IsDateChar(chars[0]) && AllDateChars(chars)
    case Milestone(letters) => letters != [] && AllLower(letters)
    case Open(frame) => frame == Paren || frame == Bracket
    case _ => true
  }

  // ----- what may follow what -----

  /** What a part asks to be followed by. */
  datatype Want =
    | WholeQuery
    | BlockHead
    | SourceName
    | Statement(mayEnd: bool)
    | SourceStep
    | Binder
    | Assignment
    | Term(inside: Option<Frame>)
    | More
    | MemberName
    | Method
    | ColonTarget
    | LambdaBinder
    | StarEnd

  function Wanted(before: Option<Part>): Want {
    match before
    case None => WholeQuery
    case Some(QueryBar) | Some(Assign) => SourceName
    case Some(BlockBrace) => BlockHead
    case Some(BlockBar) => Statement(false)
    case Some(Semi) => Statement(true)
    case Some(Source(_, _)) | Some(Under(_)) => SourceStep
    case Some(LetWord) => Binder
    case Some(LetName(_)) => Assignment
    case Some(Not) | Some(BodyBar) | Some(Infix(_)) | Some(Comma) => Term(None)
    case Some(Open(frame)) => Term(Some(frame))
    case Some(OpenColumns) => Term(Some(Bracket))
    case Some(OpenLambda) => LambdaBinder
    case Some(Star) => StarEnd
    case Some(Dot) => MemberName
    case Some(Arrow) => Method
    case Some(Colon) => ColonTarget
    case _ => More
  }

  /** The parts a value can begin with. */
  predicate BeginsValue(part: Part) {
    || part.Word? || part.Variable? || part.Number? || part.Text? || part.Day? || part.Milestone?
    || part.Column? || part.QuotedColumn? || part.Not? || part.BodyBar?
    || part.Open? || part.OpenColumns? || part.OpenLambda?
  }

  /** The parts that go on from a finished value. */
  predicate GoesOn(part: Part) {
    || part.Infix? || part.Comma? || part.Semi? || part.Dot? || part.Arrow? || part.Colon? || part.Scoped?
    || part.Open? || part.Close?
  }

  predicate Serves(want: Want, part: Part) {
    match want
    case WholeQuery => part.QueryBar? || part.BlockBrace?
    case BlockHead => part.BlockBar?
    case SourceName => part.Source? && !part.inBlock
    case Statement(mayEnd) =>
      (part.Source? && part.inBlock) || part.LetWord? || part.Variable? || (mayEnd && part == Close(Brace))
    case SourceStep => part.Under? || part.Dot? || part.Arrow?
    case Binder => part.LetName?
    case Assignment => part.Assign?
    case Term(inside) =>
      BeginsValue(part) || (inside.Some? && part.Close?) || (inside == Some(Bracket) && part.Star?)
    case More => GoesOn(part)
    case MemberName => part.Member? || part.QuotedMember?
    case Method => part.Member?
    case ColonTarget => part.Member? || part.OpenLambda?
    case LambdaBinder => part.Word?
    case StarEnd => part == Close(Bracket)
  }

  // ----- spacing -----

  predicate IsGap(bytes: seq<byte>) {
    forall i :: 0 <= i < |bytes| ==> IsWs(bytes[i])
  }

  /** Written without a gap, the second part would be read as more of the first. */
  predicate Merges(before: Part, part: Part) {
    match before
    case Number(n) => n.fraction.None? && part.Dot?
    case Day(_) => part.Dot? || part.Arrow? || part == Infix(Minus) || part.Colon? || part.Scoped?
    case _ => false
  }

  /** A source and a `*` stand close to what follows, `let` apart from it; elsewhere any gap will do that keeps
      the parts from merging. */
  predicate GapFits(before: Option<Part>, gap: seq<byte>, part: Part) {
    && IsGap(gap)
    && (Wanted(before).SourceStep? || Wanted(before).StarEnd? ==> gap == [])
    && (before == Some(LetWord) ==> gap != [])
    && (gap == [] && before.Some? ==> !Merges(before.value, part))
  }

  // ----- nesting -----

  function Nested(stack: seq<Frame>, part: Part): Option<seq<Frame>> {
    match part
    case BlockBrace => Some(stack + [Brace])
    case Open(frame) => Some(stack + [frame])
    case OpenColumns => Some(stack + [Bracket])
    case OpenLambda => Some(stack + [BraceLambda])
    case Close(frame) => if Runs.Top(stack) == Some(frame) then Some(Runs.DropLast(stack)) else None
    case Comma => if stack != [] then Some(stack) else None
    case Semi => if Runs.Top(stack) == Some(Brace) then Some(stack) else None
    case Star => if Runs.Top(stack) == Some(Bracket) then Some(stack) else None
    case _ => Some(stack)
  }

  // ----- sentences -----

  /** A part with the whitespace before it. */
  datatype Item = Item(gap: seq<byte>, part: Part)

  /** How far a sentence has come: its last part and the delimiters open behind it. */
  datatype Spot = Spot(before: Option<Part>, stack: seq<Frame>)

  const OUTSET: Spot := Spot(None, [])

  predicate Fits(spot: Spot, item: Item) {
    && WellSpelled(item.part)
    && Serves(Wanted(spot.before), item.part)
    && GapFits(spot.before, item.gap, item.part)
    && Nested(spot.stack, item.part).Some?
  }

  function Placed(spot: Spot, item: Item): Spot
    requires Fits(spot, item)
  {
    Spot(Some(item.part), Nested(spot.stack, item.part).value)
  }

  function Follow(spot: Spot, items: seq<Item>): Option<Spot>
    decreases |items|
  {
    if items == [] then Some(spot)
    else if Fits(spot, items[0]) then Follow(Placed(spot, items[0]), items[1..])
    else None
  }

  function ItemText(item: Item): seq<byte> {
    item.gap + PartText(item.part)
  }

  function Spelled(items: seq<Item>): seq<byte>
    decreases |items|
  {
    if items == [] then [] else ItemText(items[0]) + Spelled(items[1..])
  }

  /** A sentence ends on a finished value, with everything closed. */
  predicate IsSentence(items: seq<Item>) {
    match Follow(OUTSET, items)
    case Some(spot) => spot.stack == [] && Wanted(spot.before).More?
    case None => false
  }

  // ----- sentences part by part -----

  lemma {:induction false} FollowConcat(spot: Spot, front: seq<Item>, back: seq<Item>)
    ensures Follow(spot, front + back)
         == match Follow(spot, front) case None => None case Some(mid) => Follow(mid, back)
    decreases |front|
  {
    if front == [] {
      assert front + back == back;
    } else {
      assert (front + back)[0] == front[0] && (front + back)[1..] == front[1..] + back;
      if Fits(spot, front[0]) { FollowConcat(Placed(spot, front[0]), front[1..], back); }
    }
  }

  lemma {:induction false} SpelledConcat(front: seq<Item>, back: seq<Item>)
    ensures Spelled(front + back) == Spelled(front) + Spelled(back)
    decreases |front|
  {
    if front == [] {
      assert front + back == back;
    } else {
      assert (front + back)[0] == front[0] && (front + back)[1..] == front[1..] + back;
      SpelledConcat(front[1..], back);
    }
  }

  lemma FollowSnoc(spot: Spot, front: seq<Item>, item: Item)
    ensures Follow(spot, front + [item])
         == match Follow(spot, front)
            case None => None
            case Some(mid) => if Fits(mid, item) then Some(Placed(mid, item)) else None
    ensures Spelled(front + [item]) == Spelled(front) + ItemText(item)
  {
    FollowConcat(spot, front, [item]);
    SpelledConcat(front, [item]);
    assert [item][1..] == [];
    assert Spelled([item]) == ItemText(item) + Spelled([]);
  }
}
