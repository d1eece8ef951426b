/** Every sentence is read: where the automaton stands behind each part, and that each part leads there. */
module Spelling {
  import opened Bytes
  import opened Automaton
  import Transitions
  import opened Runs
  import Lexemes
  import opened Syntax

  // ----- where the automaton stands -----

  /** Behind the first name of a block statement, which may have begun like `let`. */
  function StatementState(name: seq<byte>): State {
    if name == [LOWER_L] then LetL
    else if name == [LOWER_L, LOWER_E] then LetLe
    else if name == [LOWER_L, LOWER_E, LOWER_T] then LetLet
    else InSourceIdent
  }

  function NumeralState(n: Numeral): State {
    match n.fraction
    case None => InNumberInt
    case Some(f) => if f.exponent.Some? then InExp else InNumberFrac
  }

  function OperatorState(op: Operator): State {
    match op
    case Minus => SawDash
    case Less => SawLt
    case Greater => SawGt
    case Bar => SawPipe
    case _ => ExpectValueReq
  }

  /** Directly behind a part. */
  function At(part: Part): State {
    match part
    case QueryBar | Assign => ExpectSource
    case BlockBrace => AfterBraceOpen
    case BlockBar => BlockStmt
    case Semi => BlockStmtClose
    case Source(inBlock, name) => if inBlock then StatementState(name) else InSourceIdent
    case Under(_) => InSourceIdent
    case LetWord => LetLet
    case LetName(_) => InBinder
    case Word(_) | Variable(_) | Column(_) | Scoped(_) | Member(_) => InIdent
    case Number(n) => NumeralState(n)
    case Text(_) | QuotedColumn(_) | QuotedMember(_) => InStrLit(true)
    case Day(_) => InDateLit
    case Milestone(_) => InMilestoneLit
    case Not | BodyBar | Comma => ExpectValueReq
    case Open(_) | OpenColumns => ExpectValue
    case OpenLambda => ExpectBraceBinder
    case Star => InMultiplicity
    case Infix(op) => OperatorState(op)
    case Dot => AfterDot
    case Arrow => AfterArrow
    case Colon => AfterColon
    case Close(_) => AfterValue
  }

  /** At a spot, right behind its last part. */
  function Here(spot: Spot): State {
    match spot.before case None => Start case Some(part) => At(part)
  }

  /** Behind whitespace. */
  function Rested(want: Want): State {
    match want
    case WholeQuery => Start
    case BlockHead => AfterBraceOpen
    case SourceName => ExpectSource
    case Statement(mayEnd) => if mayEnd then BlockStmtClose else BlockStmt
    case SourceStep => InSourceIdent
    case Binder => ExpectBinder
    case Assignment => AfterBinder
    case Term(inside) => if inside.Some? then ExpectValue else ExpectValueReq
    case More => AfterValue
    case MemberName => AfterDot
    case Method => AfterArrow
    case ColonTarget => AfterColonWs
    case LambdaBinder => ExpectBraceBinder
    case StarEnd => InMultiplicity
  }

  function Behind(before: Option<Part>, gap: seq<byte>): State {
    if gap != [] then Rested(Wanted(before))
    else match before case None => Start case Some(part) => At(part)
  }

  // ----- runs -----

  lemma RunFirst(c: Config, b: byte, rest: seq<byte>)
    ensures Run(c, [b] + rest) == match Advanced(c, b) case None => None case Some(d) => Run(d, rest)
  {
    assert ([b] + rest)[0] == b && ([b] + rest)[1..] == rest;
  }

  lemma RunByte(c: Config, b: byte)
    ensures Run(c, [b]) == Advanced(c, b)
  {
    RunFirst(c, b, []);
    assert [b] + [] == [b];
    if Advanced(c, b).Some? { assert Run(Advanced(c, b).value, []) == Some(Advanced(c, b).value); }
  }

  lemma RunTwo(c: Config, a: byte, b: byte)
    ensures Run(c, [a, b]) == match Advanced(c, a) case None => None case Some(d) => Advanced(d, b)
  {
    assert [a, b] == [a] + [b];
    RunFirst(c, a, [b]);
    if Advanced(c, a).Some? { RunByte(Advanced(c, a).value, b); }
  }

  /** The bytes that leave a state as it is. */
  predicate Keeps(s: State, b: byte) {
    match s
    case InIdent | InSourceIdent | InBinder => IsIdentTail(b)
    case InNumberInt | InNumberFrac | InExp => IsDigit(b)
    case InDateLit => IsDateChar(b) || b == DOT
    case InMilestoneLit => IsLower(b)
    case Start | AfterBraceOpen | ExpectSource | BlockStmt | BlockStmtClose | ExpectBinder | AfterBinder
      | ExpectValue | ExpectValueReq | AfterValue | AfterDot | AfterArrow | AfterColonWs | ExpectBraceBinder => IsWs(b)
    case _ => false
  }

  lemma KeptByte(s: State, stack: seq<Frame>, b: byte)
    requires Keeps(s, b)
    ensures Advanced(Config(s, stack), b) == Some(Config(s, stack))
  {
  }

  predicate KeepsAll(s: State, bytes: seq<byte>) {
    forall i :: 0 <= i < |bytes| ==> Keeps(s, bytes[i])
  }

  lemma {:induction false} Loops(s: State, stack: seq<Frame>, bytes: seq<byte>)
    requires KeepsAll(s, bytes)
    ensures Run(Config(s, stack), bytes) == Some(Config(s, stack))
    decreases |bytes|
  {
    if bytes != [] {
      KeptByte(s, stack, bytes[0]);
      Loops(s, stack, bytes[1..]);
    }
  }

  /** A first byte that enters a state its other bytes stay in. */
  lemma Enters(c: Config, s: State, bytes: seq<byte>)
    requires bytes != [] && Advanced(c, bytes[0]) == Some(Config(s, c.stack)) && KeepsAll(s, bytes[1..])
    ensures Run(c, bytes) == Some(Config(s, c.stack))
  {
    Loops(s, c.stack, bytes[1..]);
  }

  // ----- gaps -----

  predicate RestsAt(want: Want) {
    !want.SourceStep? && !want.StarEnd?
  }

  lemma GapStarts(part: Part, stack: seq<Frame>, b: byte)
    requires WellSpelled(part) && RestsAt(Wanted(Some(part))) && IsWs(b)
    ensures Advanced(Config(At(part), stack), b) == Some(Config(Rested(Wanted(Some(part))), stack))
  {
  }

  lemma GapRead(spot: Spot, gap: seq<byte>)
    requires IsGap(gap) && (gap != [] ==> RestsAt(Wanted(spot.before)))
    requires spot.before.Some? ==> WellSpelled(spot.before.value)
    ensures Run(Config(Here(spot), spot.stack), gap) == Some(Config(Behind(spot.before, gap), spot.stack))
  {
    if gap != [] {
      var want := Wanted(spot.before);
      match spot.before {
        case Some(part) => GapStarts(part, spot.stack, gap[0]);
        case None => KeptByte(Start, spot.stack, gap[0]);
      }
      Enters(Config(Here(spot), spot.stack), Rested(want), gap);
    }
  }

  // ----- lexemes -----

  /** The states an identifier is read in. */
  predicate ReadsNames(s: State) {
    s == InIdent || s == InSourceIdent || s == InBinder
  }

  lemma NameRead(c: Config, s: State, name: seq<byte>)
    requires IsIdent(name) && ReadsNames(s) && Advanced(c, name[0]) == Some(Config(s, c.stack))
    ensures Run(c, name) == Some(Config(s, c.stack))
  {
    Enters(c, s, name);
  }

  lemma SigilNameRead(c: Config, b: byte, mid: State, s: State, name: seq<byte>)
    requires IsIdent(name) && ReadsNames(s)
    requires Advanced(c, b) == Some(Config(mid, c.stack))
    requires Advanced(Config(mid, c.stack), name[0]) == Some(Config(s, c.stack))
    ensures Run(c, [b] + name) == Some(Config(s, c.stack))
  {
    RunFirst(c, b, name);
    NameRead(Config(mid, c.stack), s, name);
  }

  lemma ScopedRead(c: Config, first: State, second: State, s: State, name: seq<byte>)
    requires IsIdent(name) && ReadsNames(s) && Advanced(c, COLON) == Some(Config(first, c.stack))
    requires Advanced(Config(first, c.stack), COLON) == Some(Config(second, c.stack))
    requires Advanced(Config(second, c.stack), name[0]) == Some(Config(s, c.stack))
    ensures Run(c, [COLON, COLON] + name) == Some(Config(s, c.stack))
  {
    assert [COLON, COLON] + name == [COLON] + ([COLON] + name);
    RunFirst(c, COLON, [COLON] + name);
    SigilNameRead(Config(first, c.stack), COLON, second, s, name);
  }

  lemma {:induction false} DoubledRead(stack: seq<Frame>, content: seq<byte>)
    ensures Run(Config(InStrLit(false), stack), Lexemes.Doubled(content)) == Some(Config(InStrLit(false), stack))
    decreases |content|
  {
    if content != [] {
      var c, rest := Config(InStrLit(false), stack), Lexemes.Doubled(content[1..]);
      DoubledRead(stack, content[1..]);
      if content[0] == QUOTE {
        RunTwo(c, QUOTE, QUOTE);
        RunConcat(c, [QUOTE, QUOTE], rest);
      } else {
        RunByte(c, content[0]);
        RunConcat(c, [content[0]], rest);
      }
    }
  }

  /** A quoted content behind its first quote. */
  lemma QuotedRead(stack: seq<Frame>, content: seq<byte>)
    ensures Run(Config(InStrLit(false), stack), Lexemes.Doubled(content) + [QUOTE])
         == Some(Config(InStrLit(true), stack))
  {
    DoubledRead(stack, content);
    RunSnoc(Config(InStrLit(false), stack), Lexemes.Doubled(content), QUOTE);
  }

  lemma QuoteSplits(content: seq<byte>)
    ensures Lexemes.Quote(content) == [QUOTE] + (Lexemes.Doubled(content) + [QUOTE])
  {
  }

  lemma DigitsRead(c: Config, s: State, digits: seq<byte>)
    requires AllDigits(digits) && (s == InNumberInt || s == InNumberFrac || s == InExp)
    requires digits != [] && Advanced(c, digits[0]) == Some(Config(s, c.stack))
    ensures Run(c, digits) == Some(Config(s, c.stack))
  {
    Enters(c, s, digits);
  }

  lemma ExponentDigitsRead(stack: seq<Frame>, e: Exponent)
    requires IsExponent(e)
    ensures Run(Config(SawExp, stack), SignText(e.sign) + e.digits) == Some(Config(InExp, stack))
  {
    var marked := Config(SawExp, stack);
    match e.sign {
      case Some(b) =>
        RunFirst(marked, b, e.digits);
        DigitsRead(Config(NeedExpDigit, stack), InExp, e.digits);
      case None =>
        assert SignText(e.sign) + e.digits == e.digits;
        DigitsRead(marked, InExp, e.digits);
    }
  }

  lemma ExponentRead(stack: seq<Frame>, e: Exponent)
    requires IsExponent(e)
    ensures Run(Config(InNumberFrac, stack), ExponentText(e)) == Some(Config(InExp, stack))
  {
    assert ExponentText(e) == [e.mark] + (SignText(e.sign) + e.digits);
    RunFirst(Config(InNumberFrac, stack), e.mark, SignText(e.sign) + e.digits);
    ExponentDigitsRead(stack, e);
  }

  function FractionState(f: Fraction): State {
    if f.exponent.Some? then InExp else InNumberFrac
  }

  /** A fraction behind its point. */
  function FractionTail(f: Fraction): seq<byte> {
    f.digits + match f.exponent case Some(e) => ExponentText(e) case None => []
  }

  lemma FractionRead(stack: seq<Frame>, f: Fraction)
    requires IsFraction(f)
    ensures Run(Config(NeedFracDigit, stack), FractionTail(f)) == Some(Config(FractionState(f), stack))
  {
    var c := Config(NeedFracDigit, stack);
    DigitsRead(c, InNumberFrac, f.digits);
    match f.exponent {
      case Some(e) =>
        RunConcat(c, f.digits, ExponentText(e));
        ExponentRead(stack, e);
      case None =>
        assert FractionTail(f) == f.digits;
    }
  }

  /** The part of a number behind its sign. */
  function Unsigned(n: Numeral): seq<byte> {
    n.whole + match n.fraction case Some(f) => FractionText(f) case None => []
  }

  lemma PointRead(c: Config, f: Fraction)
    requires IsFraction(f) && BeginsNumber(c.state)
    ensures Run(c, FractionText(f)) == Some(Config(FractionState(f), c.stack))
  {
    assert FractionText(f) == [DOT] + FractionTail(f);
    RunFirst(c, DOT, FractionTail(f));
    NumberBegins(c, DOT);
    FractionRead(c.stack, f);
  }

  lemma UnsignedRead(c: Config, n: Numeral)
    requires IsNumeral(n) && BeginsNumber(c.state)
    ensures Run(c, Unsigned(n)) == Some(Config(NumeralState(n), c.stack))
  {
    if n.whole != [] {
      NumberBegins(c, n.whole[0]);
      DigitsRead(c, InNumberInt, n.whole);
    }
    match n.fraction {
      case Some(f) =>
        RunConcat(c, n.whole, FractionText(f));
        PointRead(if n.whole == [] then c else Config(InNumberInt, c.stack), f);
      case None =>
        assert Unsigned(n) == n.whole;
    }
  }

  predicate BeginsNumber(s: State) {
    s == ExpectValue || s == ExpectValueReq || s == SawNumSign || s == InNumberInt
  }

  lemma NumberBegins(c: Config, b: byte)
    requires BeginsNumber(c.state)
    ensures IsDigit(b) ==> Advanced(c, b) == Some(Config(InNumberInt, c.stack))
    ensures Advanced(c, DOT) == Some(Config(NeedFracDigit, c.stack))
  {
  }

  /** The value hub, where a closer may stand or not. */
  function ValueHub(stack: seq<Frame>, mayClose: bool): Config {
    Config(if mayClose then ExpectValue else ExpectValueReq, stack)
  }

  lemma NumeralRead(stack: seq<Frame>, mayClose: bool, n: Numeral)
    requires IsNumeral(n)
    ensures Run(ValueHub(stack, mayClose), NumeralText(n)) == Some(Config(NumeralState(n), stack))
  {
    if n.minus {
      NegativeRead(stack, mayClose, n);
    } else {
      UnsignedText(n);
      UnsignedRead(ValueHub(stack, mayClose), n);
    }
  }

  lemma UnsignedText(n: Numeral)
    requires !n.minus
    ensures NumeralText(n) == Unsigned(n)
  {
    assert [] + n.whole == n.whole;
  }

  lemma MinusBegins(stack: seq<Frame>, mayClose: bool, rest: seq<byte>)
    ensures Run(ValueHub(stack, mayClose), [DASH] + rest) == Run(Config(SawNumSign, stack), rest)
  {
    RunFirst(ValueHub(stack, mayClose), DASH, rest);
  }

  lemma NegativeRead(stack: seq<Frame>, mayClose: bool, n: Numeral)
    requires IsNumeral(n) && n.minus
    ensures Run(ValueHub(stack, mayClose), NumeralText(n)) == Some(Config(NumeralState(n), stack))
  {
    UnsignedRead(Config(SawNumSign, stack), n);
    MinusBegins(stack, mayClose, Unsigned(n));
    assert NumeralText(n) == [DASH] + Unsigned(n);
  }

  lemma DayRead(stack: seq<Frame>, chars: seq<byte>)
    requires chars != [] && IsDateChar(chars[0]) && AllDateChars(chars)
    ensures Run(Config(SawPercent, stack), chars) == Some(Config(InDateLit, stack))
  {
    Enters(Config(SawPercent, stack), InDateLit, chars);
  }

  lemma MilestoneRead(stack: seq<Frame>, letters: seq<byte>)
    requires letters != [] && AllLower(letters)
    ensures Run(Config(SawPercent, stack), letters) == Some(Config(InMilestoneLit, stack))
  {
    Enters(Config(SawPercent, stack), InMilestoneLit, letters);
  }

  // ----- parts, where they are wanted -----

  /** A part is read from `c` to where the automaton stands behind it. */
  predicate Leads(c: Config, part: Part, stack: seq<Frame>) {
    Run(c, PartText(part)) == Some(Config(At(part), stack))
  }

  lemma NameValueRead(stack: seq<Frame>, mayClose: bool, part: Part)
    requires WellSpelled(part) && (part.Word? || part.Variable? || part.Column?)
    ensures Leads(ValueHub(stack, mayClose), part, stack)
  {
    var c := ValueHub(stack, mayClose);
    match part
    case Word(name) => NameRead(c, InIdent, name);
    case Variable(name) => SigilNameRead(c, DOLLAR, AfterDollar, InIdent, name);
    case Column(name) => SigilNameRead(c, TILDE, SawTilde, InIdent, name);
  }

  /** Where a quote begins a string. */
  predicate BeginsString(s: State) {
    s == ExpectValue || s == ExpectValueReq || s == SawTilde || s == AfterDot
  }

  lemma StringBegins(c: Config)
    requires BeginsString(c.state)
    ensures Advanced(c, QUOTE) == Some(Config(InStrLit(false), c.stack))
  {
  }

  lemma WholeQuoteRead(c: Config, content: seq<byte>)
    requires BeginsString(c.state)
    ensures Run(c, Lexemes.Quote(content)) == Some(Config(InStrLit(true), c.stack))
  {
    StringBegins(c);
    QuoteSplits(content);
    QuotedRead(c.stack, content);
    RunFirst(c, QUOTE, Lexemes.Doubled(content) + [QUOTE]);
  }

  lemma QuotedValueRead(stack: seq<Frame>, mayClose: bool, part: Part)
    requires part.Text? || part.QuotedColumn?
    ensures Leads(ValueHub(stack, mayClose), part, stack)
  {
    if part.Text? {
      WholeQuoteRead(ValueHub(stack, mayClose), part.content);
    } else {
      RunFirst(ValueHub(stack, mayClose), TILDE, Lexemes.Quote(part.content));
      WholeQuoteRead(Config(SawTilde, stack), part.content);
    }
  }

  lemma DateValueRead(stack: seq<Frame>, mayClose: bool, part: Part)
    requires WellSpelled(part) && (part.Day? || part.Milestone?)
    ensures Leads(ValueHub(stack, mayClose), part, stack)
  {
    match part
    case Day(chars) =>
      RunFirst(ValueHub(stack, mayClose), PERCENT, chars);
      DayRead(stack, chars);
    case Milestone(letters) =>
      RunFirst(ValueHub(stack, mayClose), PERCENT, letters);
      MilestoneRead(stack, letters);
  }

  lemma ValueSignRead(stack: seq<Frame>, mayClose: bool, part: Part)
    requires WellSpelled(part) && Nested(stack, part).Some?
    requires part.Not? || part.BodyBar? || part.Open? || part.OpenLambda?
    ensures Leads(ValueHub(stack, mayClose), part, Nested(stack, part).value)
  {
    RunByte(ValueHub(stack, mayClose), PartText(part)[0]);
  }

  lemma EmptyValueRead(stack: seq<Frame>, part: Part)
    requires WellSpelled(part) && Nested(stack, part).Some? && (part.Close? || part.Star?)
    ensures Leads(ValueHub(stack, true), part, Nested(stack, part).value)
  {
    RunByte(ValueHub(stack, true), PartText(part)[0]);
  }

  lemma OpenColumnsRead(stack: seq<Frame>, mayClose: bool)
    ensures Leads(ValueHub(stack, mayClose), OpenColumns, stack + [Bracket])
  {
    RunTwo(ValueHub(stack, mayClose), TILDE, LBRACKET);
  }

  lemma ValueRead(stack: seq<Frame>, inside: Option<Frame>, part: Part)
    requires WellSpelled(part) && Serves(Term(inside), part) && Nested(stack, part).Some?
    ensures Leads(ValueHub(stack, inside.Some?), part, Nested(stack, part).value)
  {
    match part
    case Word(_) | Variable(_) | Column(_) => NameValueRead(stack, inside.Some?, part);
    case Text(_) | QuotedColumn(_) => QuotedValueRead(stack, inside.Some?, part);
    case Day(_) | Milestone(_) => DateValueRead(stack, inside.Some?, part);
    case Number(n) => NumeralRead(stack, inside.Some?, n);
    case OpenColumns => OpenColumnsRead(stack, inside.Some?);
    case Close(_) | Star => EmptyValueRead(stack, part);
    case _ => ValueSignRead(stack, inside.Some?, part);
  }

  lemma ShortOperatorRead(stack: seq<Frame>, op: Operator)
    requires |OperatorText(op)| == 1
    ensures Leads(Config(AfterValue, stack), Infix(op), stack)
  {
    RunByte(Config(AfterValue, stack), OperatorText(op)[0]);
  }

  lemma LongOperatorRead(stack: seq<Frame>, op: Operator)
    requires |OperatorText(op)| == 2
    ensures Leads(Config(AfterValue, stack), Infix(op), stack)
  {
    var c, text := Config(AfterValue, stack), OperatorText(op);
    assert text == [text[0], text[1]];
    RunTwo(c, text[0], text[1]);
    OperatorBytes(stack, op);
  }

  lemma OperatorBytes(stack: seq<Frame>, op: Operator)
    requires |OperatorText(op)| == 2
    ensures Advanced(Config(AfterValue, stack), OperatorText(op)[0]).Some?
    ensures var mid := Advanced(Config(AfterValue, stack), OperatorText(op)[0]).value;
            Advanced(mid, OperatorText(op)[1]) == Some(Config(ExpectValueReq, stack))
  {
  }

  lemma SignRead(stack: seq<Frame>, part: Part)
    requires WellSpelled(part) && Nested(stack, part).Some?
    requires part.Comma? || part.Semi? || part.Dot? || part.Colon? || part.Open? || part.Close?
    ensures Leads(Config(AfterValue, stack), part, Nested(stack, part).value)
  {
    RunByte(Config(AfterValue, stack), PartText(part)[0]);
  }

  lemma ArrowRead(stack: seq<Frame>)
    ensures Leads(Config(AfterValue, stack), Arrow, stack)
  {
    RunTwo(Config(AfterValue, stack), DASH, GT);
  }

  lemma ScopedPartRead(stack: seq<Frame>, name: seq<byte>)
    requires IsIdent(name)
    ensures Leads(Config(AfterValue, stack), Scoped(name), stack)
  {
    ScopedRead(Config(AfterValue, stack), AfterColon, AfterColon2, InIdent, name);
  }

  lemma MoreRead(stack: seq<Frame>, part: Part)
    requires WellSpelled(part) && GoesOn(part) && Nested(stack, part).Some?
    ensures Leads(Config(AfterValue, stack), part, Nested(stack, part).value)
  {
    match part
    case Infix(op) => if |OperatorText(op)| == 1 { ShortOperatorRead(stack, op); } else { LongOperatorRead(stack, op); }
    case Arrow => ArrowRead(stack);
    case Scoped(name) => ScopedPartRead(stack, name);
    case _ => SignRead(stack, part);
  }

  lemma MemberRead(stack: seq<Frame>, s: State, part: Part)
    requires WellSpelled(part)
    requires (s == AfterDot && (part.Member? || part.QuotedMember?))
             || ((s == AfterArrow || s == AfterColon || s == AfterColonWs) && part.Member?)
             || (s == ExpectBraceBinder && part.Word?)
             || ((s == AfterColon || s == AfterColonWs) && part.OpenLambda?)
    ensures Leads(Config(s, stack), part, Nested(stack, part).value)
  {
    var c := Config(s, stack);
    match part
    case Member(name) => NameRead(c, InIdent, name);
    case Word(name) => NameRead(c, InIdent, name);
    case QuotedMember(content) =>
      WholeQuoteRead(c, content);
    case OpenLambda => RunByte(c, LBRACE);
  }

  // ----- sources and statements -----

  lemma StatementByte(name: seq<byte>, stack: seq<Frame>, b: byte)
    requires IsIdent(name) && IsIdentTail(b)
    ensures Advanced(Config(StatementState(name), stack), b) == Some(Config(StatementState(name + [b]), stack))
  {
    var longer := name + [b];
    assert longer[|longer| - 1] == b && longer[..|longer| - 1] == name;
    assert longer == [LOWER_L, LOWER_E] <==> name == [LOWER_L] && b == LOWER_E;
    assert longer == [LOWER_L, LOWER_E, LOWER_T] <==> name == [LOWER_L, LOWER_E] && b == LOWER_T;
  }

  predicate AtStatement(s: State) {
    s == BlockStmt || s == BlockStmtClose
  }

  lemma {:induction false} StatementNameRead(s: State, stack: seq<Frame>, name: seq<byte>)
    requires AtStatement(s) && IsIdent(name)
    ensures Run(Config(s, stack), name) == Some(Config(StatementState(name), stack))
    decreases |name|
  {
    var n := |name| - 1;
    var b := name[n];
    assert name == name[..n] + [b];
    RunSnoc(Config(s, stack), name[..n], b);
    if n > 0 {
      StatementNameRead(s, stack, name[..n]);
      StatementByte(name[..n], stack, b);
    } else {
      assert name == [b];
    }
  }

  lemma StatementRead(stack: seq<Frame>, s: State, part: Part)
    requires AtStatement(s) && WellSpelled(part) && Nested(stack, part).Some?
    requires (part.Source? && part.inBlock) || part.LetWord? || part.Variable? ||
             (s == BlockStmtClose && part == Close(Brace))
    ensures Leads(Config(s, stack), part, Nested(stack, part).value)
  {
    match part
    case Source(_, name) => StatementNameRead(s, stack, name);
    case LetWord => StatementNameRead(s, stack, [LOWER_L, LOWER_E, LOWER_T]);
    case Variable(name) => SigilNameRead(Config(s, stack), DOLLAR, AfterDollar, InIdent, name);
    case _ => RunByte(Config(s, stack), RBRACE);
  }

  /** Behind a name of a source. */
  predicate InSource(s: State) {
    s == InSourceIdent || s == LetL || s == LetLe || s == LetLet
  }

  lemma SourceStepRead(stack: seq<Frame>, s: State, part: Part)
    requires InSource(s) && WellSpelled(part) && (part.Under? || part.Dot? || part.Arrow?)
    ensures Leads(Config(s, stack), part, stack)
  {
    var c := Config(s, stack);
    match part
    case Under(name) => ScopedRead(c, SourceColon, SourceColon2, InSourceIdent, name);
    case Dot => RunByte(c, DOT);
    case Arrow => RunTwo(c, DASH, GT);
  }

  lemma HeadRead(stack: seq<Frame>, s: State, part: Part)
    requires (s == Start && (part.QueryBar? || part.BlockBrace?)) || (s == AfterBraceOpen && part.BlockBar?)
             || ((s == InBinder || s == AfterBinder) && part.Assign?) || (s == InMultiplicity && part == Close(Bracket))
    requires Nested(stack, part).Some?
    ensures Leads(Config(s, stack), part, Nested(stack, part).value)
  {
    RunByte(Config(s, stack), PartText(part)[0]);
  }

  // ----- items -----

  /** What a value part cannot begin with. */
  lemma ValueBegins(inside: Option<Frame>, part: Part)
    requires WellSpelled(part) && Serves(Term(inside), part)
    ensures PartText(part) != [] && PartText(part)[0] != GT && PartText(part)[0] != EQUALS
  {
    if part.Number? { NumeralBegins(part.numeral); }
  }

  lemma NumeralBegins(n: Numeral)
    requires IsNumeral(n)
    ensures var text := NumeralText(n); text != [] && (text[0] == DASH || text[0] == DOT || IsDigit(text[0]))
  {
  }

  /** The states of an operator or an opener still read a value as the hub does. */
  lemma ValueHubReads(before: Part, stack: seq<Frame>, b: byte)
    requires Wanted(Some(before)).Term? && b != GT && b != EQUALS
    ensures Advanced(Config(At(before), stack), b)
         == Advanced(ValueHub(stack, Wanted(Some(before)).inside.Some?), b)
  {
  }

  /** The states behind a finished value. */
  predicate Finished(s: State) {
    || s == AfterValue || s == InIdent || s == InNumberInt || s == InNumberFrac || s == InExp || s == InStrLit(true)
    || s == InDateLit || s == InMilestoneLit
  }

  /** The bytes such a state takes for more of its own lexeme. */
  predicate Absorbs(s: State, b: byte) {
    match s
    case InIdent => IsIdentTail(b)
    case InNumberInt => IsDigit(b) || b == DOT
    case InNumberFrac => IsDigit(b) || b == LOWER_E || b == UPPER_E
    case InExp => IsDigit(b)
    case InStrLit(_) => b == QUOTE
    case InDateLit => IsDateChar(b) || b == DOT
    case InMilestoneLit => IsLower(b)
    case _ => false
  }

  lemma FinishedReads(s: State, stack: seq<Frame>, b: byte)
    requires Finished(s) && !Absorbs(s, b)
    ensures Advanced(Config(s, stack), b) == Advanced(Config(AfterValue, stack), b)
  {
  }

  lemma NothingAbsorbed(before: Part, part: Part)
    requires WellSpelled(before) && Wanted(Some(before)).More? && GoesOn(part) && !Merges(before, part)
    ensures PartText(part) != [] && Finished(At(before)) && !Absorbs(At(before), PartText(part)[0])
  {
    var b := PartText(part)[0];
    assert !IsIdentTail(b) && b != QUOTE;
  }

  /** The states of a finished value read what does not merge with it as the hub does. */
  lemma MoreHubReads(before: Part, part: Part, stack: seq<Frame>)
    requires WellSpelled(before) && Wanted(Some(before)).More? && GoesOn(part) && !Merges(before, part)
    ensures PartText(part) != []
    ensures Advanced(Config(At(before), stack), PartText(part)[0])
         == Advanced(Config(AfterValue, stack), PartText(part)[0])
  {
    NothingAbsorbed(before, part);
    FinishedReads(At(before), stack, PartText(part)[0]);
  }

  lemma SameFirst(c: Config, d: Config, text: seq<byte>)
    requires text != [] && Advanced(c, text[0]) == Advanced(d, text[0])
    ensures Run(c, text) == Run(d, text)
  {
  }

  lemma ValueItemRead(spot: Spot, item: Item)
    requires Fits(spot, item) && Wanted(spot.before).Term?
    ensures Leads(Config(Behind(spot.before, item.gap), spot.stack), item.part, Placed(spot, item).stack)
  {
    var inside := Wanted(spot.before).inside;
    ValueRead(spot.stack, inside, item.part);
    if item.gap == [] {
      ValueBegins(inside, item.part);
      ValueHubReads(spot.before.value, spot.stack, PartText(item.part)[0]);
      SameFirst(Config(At(spot.before.value), spot.stack), ValueHub(spot.stack, inside.Some?), PartText(item.part));
    }
  }

  lemma MoreItemRead(spot: Spot, item: Item)
    requires Fits(spot, item) && Wanted(spot.before).More? && WellSpelled(spot.before.value)
    ensures Leads(Config(Behind(spot.before, item.gap), spot.stack), item.part, Placed(spot, item).stack)
  {
    MoreRead(spot.stack, item.part);
    if item.gap == [] {
      MoreHubReads(spot.before.value, item.part, spot.stack);
      SameFirst(Config(At(spot.before.value), spot.stack), Config(AfterValue, spot.stack), PartText(item.part));
    }
  }

  lemma SourceItemRead(spot: Spot, item: Item)
    requires Fits(spot, item) && (Wanted(spot.before).SourceName? || Wanted(spot.before).Binder?)
    ensures Leads(Config(Behind(spot.before, item.gap), spot.stack), item.part, Placed(spot, item).stack)
  {
    var c := Config(Behind(spot.before, item.gap), spot.stack);
    match item.part
    case Source(_, name) => NameRead(c, InSourceIdent, name);
    case LetName(name) => NameRead(c, InBinder, name);
  }

  lemma HeadItemRead(spot: Spot, item: Item)
    requires Fits(spot, item)
    requires match Wanted(spot.before) case WholeQuery | BlockHead | Assignment | StarEnd => true case _ => false
    ensures Leads(Config(Behind(spot.before, item.gap), spot.stack), item.part, Placed(spot, item).stack)
  {
    match Wanted(spot.before)
    case WholeQuery => HeadRead(spot.stack, Start, item.part);
    case BlockHead => HeadRead(spot.stack, AfterBraceOpen, item.part);
    case Assignment => HeadRead(spot.stack, Behind(spot.before, item.gap), item.part);
    case StarEnd => HeadRead(spot.stack, InMultiplicity, item.part);
  }

  lemma NavigationItemRead(spot: Spot, item: Item)
    requires Fits(spot, item)
    requires match Wanted(spot.before) case MemberName | Method | ColonTarget | LambdaBinder => true case _ => false
    ensures Leads(Config(Behind(spot.before, item.gap), spot.stack), item.part, Placed(spot, item).stack)
  {
    MemberRead(spot.stack, Behind(spot.before, item.gap), item.part);
  }

  /** A part that fits is read from where the automaton stands behind its gap. */
  lemma PartRead(spot: Spot, item: Item)
    requires Fits(spot, item) && (spot.before.Some? ==> WellSpelled(spot.before.value))
    ensures Leads(Config(Behind(spot.before, item.gap), spot.stack), item.part, Placed(spot, item).stack)
  {
    match Wanted(spot.before)
    case Term(_) => ValueItemRead(spot, item);
    case More => MoreItemRead(spot, item);
    case SourceName | Binder => SourceItemRead(spot, item);
    case Statement(_) => StatementRead(spot.stack, Behind(spot.before, item.gap), item.part);
    case SourceStep => SourceStepRead(spot.stack, Behind(spot.before, item.gap), item.part);
    case MemberName | Method | ColonTarget | LambdaBinder => NavigationItemRead(spot, item);
    case _ => HeadItemRead(spot, item);
  }

  lemma ItemRead(spot: Spot, item: Item)
    requires Fits(spot, item) && (spot.before.Some? ==> WellSpelled(spot.before.value))
    ensures Run(Config(Here(spot), spot.stack), ItemText(item))
         == Some(Config(At(item.part), Placed(spot, item).stack))
  {
    GapRead(spot, item.gap);
    PartRead(spot, item);
    RunConcat(Config(Here(spot), spot.stack), item.gap, PartText(item.part));
  }

  // ----- sentences -----

  predicate Sound(spot: Spot) {
    spot.before.Some? ==> WellSpelled(spot.before.value)
  }

  /** The automaton reads any beginning of a sentence, and stands behind its last part. */
  lemma {:induction false} BeginningRead(spot: Spot, items: seq<Item>)
    requires Sound(spot) && Follow(spot, items).Some?
    ensures var end := Follow(spot, items).value;
            Sound(end) && Run(Config(Here(spot), spot.stack), Spelled(items)) == Some(Config(Here(end), end.stack))
    decreases |items|
  {
    if items != [] {
      ItemRead(spot, items[0]);
      BeginningRead(Placed(spot, items[0]), items[1..]);
      RunConcat(Config(Here(spot), spot.stack), ItemText(items[0]), Spelled(items[1..]));
    }
  }

  lemma FinishedValue(part: Part, gap: seq<byte>)
    requires WellSpelled(part) && Wanted(Some(part)).More?
    ensures Transitions.ValueTerminal(Behind(Some(part), gap))
  {
  }

  /** Every sentence is accepted, with any whitespace behind it. */
  lemma SentencesAreAccepted(items: seq<Item>, tail: seq<byte>)
    requires IsSentence(items) && IsGap(tail)
    ensures Accepted(Spelled(items) + tail)
  {
    var end := Follow(OUTSET, items).value;
    BeginningRead(OUTSET, items);
    GapRead(end, tail);
    RunConcat(INITIAL, Spelled(items), tail);
    FinishedValue(end.before.value, tail);
  }
}
