/** Only sentences are read: every run of the automaton spells the beginning of a sentence, part by part. */
module Reading {
  import opened Bytes
  import opened Automaton
  import Transitions
  import opened Runs
  import Lexemes
  import opened Syntax
  import opened Spelling

  // ----- how far a run has come -----

  /** A part of which only the beginning has been read. */
  datatype Stub =
    | Sign(bytes: seq<byte>)
    | Point(minus: bool, whole: seq<byte>)
    | Mark(numeral: Numeral, mark: byte)
    | MarkSign(numeral: Numeral, mark: byte, sign: byte)
    | OpenQuote(sigil: bool, content: seq<byte>)

  function StubText(stub: Stub): seq<byte> {
    match stub
    case Sign(bytes) => bytes
    case Point(minus, whole) => NumeralText(Numeral(minus, whole, None)) + [DOT]
    case Mark(n, mark) => NumeralText(n) + [mark]
    case MarkSign(n, mark, sign) => NumeralText(n) + [mark, sign]
    case OpenQuote(sigil, content) => (if sigil then [TILDE] else []) + [QUOTE] + Lexemes.Doubled(content)
  }

  predicate IsPlainFraction(n: Numeral) {
    IsNumeral(n) && n.fraction.Some? && n.fraction.value.exponent.None?
  }

  predicate IsMark(b: byte) {
    b == LOWER_E || b == UPPER_E
  }

  /** The state inside a part, and where such a part is wanted. */
  predicate Begun(before: Option<Part>, gap: seq<byte>, stub: Stub, s: State) {
    var want := Wanted(before);
    && IsGap(gap)
    && (want.SourceStep? || want.StarEnd? ==> gap == [])
    && match s
       case SourceColon => want.SourceStep? && stub == Sign([COLON])
       case SourceColon2 => want.SourceStep? && stub == Sign([COLON, COLON])
       case SourceDash => want.SourceStep? && stub == Sign([DASH])
       case AfterDollar => (want.Term? || want.Statement?) && stub == Sign([DOLLAR])
       case SawTilde => want.Term? && stub == Sign([TILDE])
       case SawPercent => want.Term? && stub == Sign([PERCENT])
       case SawNumSign => want.Term? && stub == Sign([DASH])
       case NeedFracDigit => want.Term? && stub.Point? && AllDigits(stub.whole)
       case SawExp => want.Term? && stub.Mark? && IsPlainFraction(stub.numeral) && IsMark(stub.mark)
       case NeedExpDigit =>
         want.Term? && stub.MarkSign? && IsPlainFraction(stub.numeral) && IsMark(stub.mark)
         && (stub.sign == PLUS || stub.sign == DASH)
       case InStrLit(escaped) =>
         !escaped && stub.OpenQuote? && (want.Term? || (want.MemberName? && !stub.sigil))
       case SawEq => want.More? && stub == Sign([EQUALS])
       case SawBang => want.More? && stub == Sign([BANG])
       case SawAmp => want.More? && stub == Sign([AMP])
       case AfterColon2 => want.More? && stub == Sign([COLON, COLON]) && (gap == [] ==> !before.value.Day?)
       case _ => false
  }

  /** The parts read so far, and what has been read behind them. */
  datatype Progress =
    | Resting(items: seq<Item>, tail: seq<byte>)
    | Midway(items: seq<Item>, gap: seq<byte>, stub: Stub)

  function ProgressText(r: Progress): seq<byte> {
    match r
    case Resting(items, tail) => Spelled(items) + tail
    case Midway(items, gap, stub) => Spelled(items) + gap + StubText(stub)
  }

  predicate Reads(c: Config, r: Progress) {
    match Follow(OUTSET, r.items)
    case None => false
    case Some(spot) =>
      && Sound(spot)
      && c.stack == spot.stack
      && match r
         case Resting(_, tail) =>
           && IsGap(tail) && c.state == Behind(spot.before, tail)
           && (if tail == [] then spot.before != Some(LetWord) else RestsAt(Wanted(spot.before)))
         case Midway(_, gap, stub) => Begun(spot.before, gap, stub, c.state)
  }

  // ----- one more byte -----

  /** A part finished at the end of what has been read. */
  lemma Finishes(items: seq<Item>, gap: seq<byte>, part: Part, d: Config) returns (q: Progress)
    requires Follow(OUTSET, items).Some? && Fits(Follow(OUTSET, items).value, Item(gap, part)) && part != LetWord
    requires d == Config(At(part), Placed(Follow(OUTSET, items).value, Item(gap, part)).stack)
    ensures Reads(d, q) && ProgressText(q) == Spelled(items) + gap + PartText(part)
  {
    FollowSnoc(OUTSET, items, Item(gap, part));
    q := Resting(items + [Item(gap, part)], []);
    Reassociated(Spelled(items), gap, PartText(part));
    assert ProgressText(q) == Spelled(items + [Item(gap, part)]);
  }

  lemma NewPart(c: Config, r: Progress, part: Part, b: byte, d: Config) returns (q: Progress)
    requires Reads(c, r) && r.Resting? && PartText(part) == [b]
    requires Fits(Follow(OUTSET, r.items).value, Item(r.tail, part))
    requires d == Config(At(part), Placed(Follow(OUTSET, r.items).value, Item(r.tail, part)).stack)
    ensures Reads(d, q) && ProgressText(q) == ProgressText(r) + [b]
  {
    q := Finishes(r.items, r.tail, part, d);
  }

  lemma NewStub(c: Config, r: Progress, stub: Stub, b: byte, d: Config) returns (q: Progress)
    requires Reads(c, r) && r.Resting? && StubText(stub) == [b]
    requires d.stack == c.stack && Begun(Follow(OUTSET, r.items).value.before, r.tail, stub, d.state)
    ensures Reads(d, q) && ProgressText(q) == ProgressText(r) + [b]
  {
    q := Midway(r.items, r.tail, stub);
  }

  lemma LongerStub(c: Config, r: Progress, stub: Stub, b: byte, d: Config) returns (q: Progress)
    requires Reads(c, r) && r.Midway? && StubText(stub) == StubText(r.stub) + [b]
    requires d.stack == c.stack && Begun(Follow(OUTSET, r.items).value.before, r.gap, stub, d.state)
    ensures Reads(d, q) && ProgressText(q) == ProgressText(r) + [b]
  {
    q := Midway(r.items, r.gap, stub);
    Reassociated(Spelled(r.items) + r.gap, StubText(r.stub), [b]);
  }

  lemma FinishedStub(c: Config, r: Progress, part: Part, b: byte, d: Config) returns (q: Progress)
    requires Reads(c, r) && r.Midway? && PartText(part) == StubText(r.stub) + [b] && part != LetWord
    requires Fits(Follow(OUTSET, r.items).value, Item(r.gap, part))
    requires d == Config(At(part), Placed(Follow(OUTSET, r.items).value, Item(r.gap, part)).stack)
    ensures Reads(d, q) && ProgressText(q) == ProgressText(r) + [b]
  {
    q := Finishes(r.items, r.gap, part, d);
    Reassociated(Spelled(r.items) + r.gap, StubText(r.stub), [b]);
  }

  /** The last part taken back: what was read before it, and the part. */
  lemma LastPart(c: Config, r: Progress) returns (front: seq<Item>, last: Item)
    requires Reads(c, r) && r.Resting? && r.tail == [] && r.items != []
    ensures Ends(c, r, front, last)
  {
    var n := |r.items| - 1;
    front, last := r.items[..n], r.items[n];
    assert r.items == front + [last];
    FollowSnoc(OUTSET, front, last);
    BeginningRead(OUTSET, front);
    Reassociated(Spelled(front), last.gap, PartText(last.part));
    assert ProgressText(r) == Spelled(r.items);
  }

  /** `c` stands right behind the part `last`. */
  predicate Ends(c: Config, r: Progress, front: seq<Item>, last: Item) {
    match Follow(OUTSET, front)
    case None => false
    case Some(mid) =>
      && Sound(mid) && Fits(mid, last)
      && Follow(OUTSET, r.items) == Some(Placed(mid, last))
      && c == Config(At(last.part), Placed(mid, last).stack)
      && ProgressText(r) == Spelled(front) + last.gap + PartText(last.part)
  }

  /** The last part goes on as a longer one. */
  lemma LongerPart(c: Config, r: Progress, front: seq<Item>, last: Item, part: Part, b: byte, d: Config)
    returns (q: Progress)
    requires Ends(c, r, front, last) && PartText(part) == PartText(last.part) + [b] && part != LetWord
    requires Fits(Follow(OUTSET, front).value, Item(last.gap, part))
    requires d == Config(At(part), Placed(Follow(OUTSET, front).value, Item(last.gap, part)).stack)
    ensures Reads(d, q) && ProgressText(q) == ProgressText(r) + [b]
  {
    q := Finishes(front, last.gap, part, d);
    Reassociated(Spelled(front) + last.gap, PartText(last.part), [b]);
  }

  /** The last part turns out to be the beginning of another. */
  lemma Reopened(c: Config, r: Progress, front: seq<Item>, last: Item, stub: Stub, b: byte, d: Config)
    returns (q: Progress)
    requires Ends(c, r, front, last) && StubText(stub) == PartText(last.part) + [b]
    requires d.stack == Follow(OUTSET, front).value.stack
    requires Begun(Follow(OUTSET, front).value.before, last.gap, stub, d.state)
    ensures Reads(d, q) && ProgressText(q) == ProgressText(r) + [b]
  {
    q := Midway(front, last.gap, stub);
    Reassociated(Spelled(front) + last.gap, PartText(last.part), [b]);
  }

  // ----- gaps -----

  lemma GapByteRead(c: Config, r: Progress, b: byte, d: Config) returns (q: Progress)
    requires Reads(c, r) && r.Resting? && IsWs(b) && RestsAt(Wanted(Follow(OUTSET, r.items).value.before))
    requires d == Config(Rested(Wanted(Follow(OUTSET, r.items).value.before)), c.stack)
    ensures Reads(d, q) && ProgressText(q) == ProgressText(r) + [b]
  {
    q := Resting(r.items, r.tail + [b]);
    Reassociated(Spelled(r.items), r.tail, [b]);
  }

  // ----- a byte where a value may begin -----

  /** What the first byte of a value begins. */
  datatype Beginning = Whole(part: Part) | Started(stub: Stub) | Nothing

  function ValueBeginning(b: byte, top: Option<Frame>): Beginning {
    if IsIdentStart(b) then Whole(Word([b]))
    else if IsDigit(b) then Whole(Part.Number(Numeral(false, [b], None)))
    else if b == DOT then Started(Point(false, []))
    else if b == QUOTE then Started(OpenQuote(false, []))
    else if b == DASH || b == PERCENT || b == DOLLAR || b == TILDE then Started(Sign([b]))
    else if b == LPAREN then Whole(Open(Paren))
    else if b == LBRACKET then Whole(Open(Bracket))
    else if b == LBRACE then Whole(OpenLambda)
    else if b == PIPE then Whole(BodyBar)
    else if b == BANG then Whole(Not)
    else if b == STAR then Whole(Star)
    else if IsCloser(b) && top.Some? then Whole(Close(top.value))
    else Nothing
  }

  /** A beginning leads the automaton to its own state. */
  predicate BeginsAt(spot: Spot, gap: seq<byte>, b: byte, d: Config, what: Beginning) {
    match what
    case Whole(part) =>
      && PartText(part) == [b] && Fits(spot, Item(gap, part))
      && d == Config(At(part), Placed(spot, Item(gap, part)).stack)
    case Started(stub) => StubText(stub) == [b] && d.stack == spot.stack && Begun(spot.before, gap, stub, d.state)
    case Nothing => false
  }

  lemma Beginnings(c: Config, r: Progress, what: Beginning, b: byte, d: Config) returns (q: Progress)
    requires Reads(c, r) && r.Resting? && BeginsAt(Follow(OUTSET, r.items).value, r.tail, b, d, what)
    ensures Reads(d, q) && ProgressText(q) == ProgressText(r) + [b]
  {
    match what
    case Whole(part) => q := NewPart(c, r, part, b, d);
    case Started(stub) => q := NewStub(c, r, stub, b, d);
  }

  /** A value is wanted at the spot, and the hub leads on with `b`. */
  predicate ValueByte(spot: Spot, gap: seq<byte>, b: byte, d: Config) {
    && Wanted(spot.before).Term? && IsGap(gap) && !IsWs(b)
    && Advanced(ValueHub(spot.stack, Wanted(spot.before).inside.Some?), b) == Some(d)
  }

  lemma AtomBegun(spot: Spot, gap: seq<byte>, b: byte, d: Config)
    requires ValueByte(spot, gap, b, d) && (IsIdentStart(b) || IsDigit(b))
    ensures BeginsAt(spot, gap, b, d, ValueBeginning(b, Top(spot.stack)))
  {
  }

  lemma StubBegun(spot: Spot, gap: seq<byte>, b: byte, d: Config)
    requires ValueByte(spot, gap, b, d)
    requires b == DOT || b == QUOTE || b == DASH || b == PERCENT || b == DOLLAR || b == TILDE
    ensures BeginsAt(spot, gap, b, d, ValueBeginning(b, Top(spot.stack)))
  {
  }

  lemma SignBegun(spot: Spot, gap: seq<byte>, b: byte, d: Config)
    requires ValueByte(spot, gap, b, d) && (IsOpener(b) || b == PIPE || b == BANG)
    ensures BeginsAt(spot, gap, b, d, ValueBeginning(b, Top(spot.stack)))
  {
  }

  lemma EndBegun(spot: Spot, gap: seq<byte>, b: byte, d: Config)
    requires ValueByte(spot, gap, b, d) && Inside(spot) && (IsCloser(b) || b == STAR)
    ensures BeginsAt(spot, gap, b, d, ValueBeginning(b, Top(spot.stack)))
  {
  }

  lemma ValueBegun(spot: Spot, gap: seq<byte>, b: byte, d: Config)
    requires ValueByte(spot, gap, b, d) && Inside(spot)
    ensures BeginsAt(spot, gap, b, d, ValueBeginning(b, Top(spot.stack)))
  {
    if IsIdentStart(b) || IsDigit(b) { AtomBegun(spot, gap, b, d); }
    else if IsOpener(b) || b == PIPE || b == BANG { SignBegun(spot, gap, b, d); }
    else if IsCloser(b) || b == STAR { EndBegun(spot, gap, b, d); }
    else { StubBegun(spot, gap, b, d); }
  }

  /** A part that opens a delimiter leaves it on top, and a statement ends inside its block. */
  predicate Inside(spot: Spot) {
    match Wanted(spot.before)
    case Term(inside) => inside.Some? ==> Top(spot.stack) == inside
    case Statement(mayEnd) => mayEnd ==> Top(spot.stack) == Some(Brace)
    case _ => true
  }

  lemma PlacedInside(spot: Spot, item: Item)
    requires Fits(spot, item)
    ensures Inside(Placed(spot, item))
  {
  }

  // ----- a byte behind a value -----

  function MoreBeginning(b: byte, top: Option<Frame>): Beginning {
    if b == DASH then Whole(Infix(Minus))
    else if b == GT then Whole(Infix(Greater))
    else if b == LT then Whole(Infix(Less))
    else if b == PIPE then Whole(Infix(Bar))
    else if b == PLUS then Whole(Infix(Plus))
    else if b == STAR then Whole(Infix(Times))
    else if b == SLASH then Whole(Infix(Over))
    else if b == DOT then Whole(Dot)
    else if b == COLON then Whole(Colon)
    else if b == COMMA then Whole(Comma)
    else if b == SEMI then Whole(Semi)
    else if b == EQUALS || b == BANG || b == AMP then Started(Sign([b]))
    else if b == LPAREN then Whole(Open(Paren))
    else if b == LBRACKET then Whole(Open(Bracket))
    else if IsCloser(b) && top.Some? then Whole(Close(top.value))
    else Nothing
  }

  /** A value is finished at the spot, `b` is no more of it, and the hub leads on with `b`. */
  predicate MoreByte(spot: Spot, gap: seq<byte>, b: byte, d: Config) {
    && spot.before.Some? && WellSpelled(spot.before.value) && Wanted(spot.before).More? && IsGap(gap) && !IsWs(b)
    && (gap == [] ==> !Absorbs(At(spot.before.value), b))
    && Advanced(Config(AfterValue, spot.stack), b) == Some(d)
  }

  lemma ArithmeticBegun(spot: Spot, gap: seq<byte>, b: byte, d: Config)
    requires MoreByte(spot, gap, b, d) && (b == DASH || b == PLUS || b == STAR || b == SLASH)
    ensures BeginsAt(spot, gap, b, d, MoreBeginning(b, Top(spot.stack)))
  {
  }

  lemma EqualityBegun(spot: Spot, gap: seq<byte>, b: byte, d: Config)
    requires MoreByte(spot, gap, b, d) && (b == EQUALS || b == BANG || b == AMP)
    ensures BeginsAt(spot, gap, b, d, MoreBeginning(b, Top(spot.stack)))
  {
  }

  lemma RelationBegun(spot: Spot, gap: seq<byte>, b: byte, d: Config)
    requires MoreByte(spot, gap, b, d) && (b == GT || b == LT || b == PIPE)
    ensures BeginsAt(spot, gap, b, d, MoreBeginning(b, Top(spot.stack)))
  {
  }

  lemma NavigationBegun(spot: Spot, gap: seq<byte>, b: byte, d: Config)
    requires MoreByte(spot, gap, b, d) && (b == DOT || b == COLON)
    ensures BeginsAt(spot, gap, b, d, MoreBeginning(b, Top(spot.stack)))
  {
  }

  lemma SeparatorBegun(spot: Spot, gap: seq<byte>, b: byte, d: Config)
    requires MoreByte(spot, gap, b, d) && (b == COMMA || b == SEMI)
    ensures BeginsAt(spot, gap, b, d, MoreBeginning(b, Top(spot.stack)))
  {
  }

  lemma DelimiterBegun(spot: Spot, gap: seq<byte>, b: byte, d: Config)
    requires MoreByte(spot, gap, b, d) && (IsOpener(b) || IsCloser(b))
    ensures BeginsAt(spot, gap, b, d, MoreBeginning(b, Top(spot.stack)))
  {
  }

  lemma MoreBegun(spot: Spot, gap: seq<byte>, b: byte, d: Config)
    requires MoreByte(spot, gap, b, d)
    ensures BeginsAt(spot, gap, b, d, MoreBeginning(b, Top(spot.stack)))
  {
    if IsOpener(b) || IsCloser(b) { DelimiterBegun(spot, gap, b, d); }
    else if b == DOT || b == COLON { NavigationBegun(spot, gap, b, d); }
    else if b == COMMA || b == SEMI { SeparatorBegun(spot, gap, b, d); }
    else if b == DASH || b == PLUS || b == STAR || b == SLASH { ArithmeticBegun(spot, gap, b, d); }
    else if b == GT || b == LT || b == PIPE { RelationBegun(spot, gap, b, d); }
    else { EqualityBegun(spot, gap, b, d); }
  }

  // ----- a byte where something else is wanted -----

  function HeadBeginning(want: Want, b: byte): Beginning {
    match want
    case WholeQuery =>
      if b == PIPE then Whole(QueryBar) else if b == LBRACE then Whole(BlockBrace) else Nothing
    case BlockHead => if b == PIPE then Whole(BlockBar) else Nothing
    case SourceName => if IsIdentStart(b) then Whole(Source(false, [b])) else Nothing
    case Statement(mayEnd) =>
      if IsIdentStart(b) then Whole(Source(true, [b]))
      else if b == DOLLAR then Started(Sign([b]))
      else if b == RBRACE && mayEnd then Whole(Close(Brace))
      else Nothing
    case SourceStep =>
      if b == DOT then Whole(Dot) else if b == DASH || b == COLON then Started(Sign([b])) else Nothing
    case Binder => if IsIdentStart(b) then Whole(LetName([b])) else Nothing
    case Assignment => if b == EQUALS then Whole(Assign) else Nothing
    case MemberName =>
      if IsIdentStart(b) then Whole(Part.Member([b]))
      else if b == QUOTE then Started(OpenQuote(false, []))
      else Nothing
    case Method => if IsIdentStart(b) then Whole(Part.Member([b])) else Nothing
    case LambdaBinder => if IsIdentStart(b) then Whole(Word([b])) else Nothing
    case ColonTarget =>
      if IsIdentStart(b) then Whole(Part.Member([b])) else if b == LBRACE then Whole(OpenLambda) else Nothing
    case StarEnd => if b == RBRACKET then Whole(Close(Bracket)) else Nothing
    case _ => Nothing
  }

  /** The bytes that make the last part a longer one, or another. */
  predicate Prolongs(part: Part, b: byte) {
    match At(part)
    case InSourceIdent | LetL | LetLe | InBinder => IsIdentTail(b)
    case LetLet => IsIdentTail(b) || IsWs(b)
    case SawDash => b == GT
    case SawGt | SawLt => b == EQUALS
    case AfterColon => b == COLON
    case s => Absorbs(s, b)
  }

  /** Something else than a value or more of one is wanted at the spot, and the automaton leads on with `b`. */
  predicate HeadByte(spot: Spot, gap: seq<byte>, b: byte, d: Config) {
    && Sound(spot) && !Wanted(spot.before).Term? && !Wanted(spot.before).More? && IsGap(gap) && !IsWs(b)
    && (if gap != [] then RestsAt(Wanted(spot.before))
        else spot.before != Some(LetWord) && (spot.before.Some? ==> !Prolongs(spot.before.value, b)))
    && Advanced(Config(Behind(spot.before, gap), spot.stack), b) == Some(d)
  }

  lemma StatementBegun(spot: Spot, gap: seq<byte>, b: byte, d: Config)
    requires HeadByte(spot, gap, b, d) && Inside(spot) && Wanted(spot.before).Statement?
    ensures BeginsAt(spot, gap, b, d, HeadBeginning(Wanted(spot.before), b))
  {
    assert [b] == [LOWER_L] <==> b == LOWER_L;
  }

  lemma SourceStepBegun(spot: Spot, gap: seq<byte>, b: byte, d: Config)
    requires HeadByte(spot, gap, b, d) && Wanted(spot.before).SourceStep?
    ensures BeginsAt(spot, gap, b, d, HeadBeginning(Wanted(spot.before), b))
  {
  }

  lemma MethodBegun(spot: Spot, gap: seq<byte>, b: byte, d: Config)
    requires HeadByte(spot, gap, b, d) && Wanted(spot.before).Method?
    ensures BeginsAt(spot, gap, b, d, HeadBeginning(Wanted(spot.before), b))
  {
  }

  lemma MemberBegun(spot: Spot, gap: seq<byte>, b: byte, d: Config)
    requires HeadByte(spot, gap, b, d) && Wanted(spot.before).MemberName?
    ensures BeginsAt(spot, gap, b, d, HeadBeginning(Wanted(spot.before), b))
  {
  }

  lemma BinderBegun(spot: Spot, gap: seq<byte>, b: byte, d: Config)
    requires HeadByte(spot, gap, b, d) && (Wanted(spot.before).ColonTarget? || Wanted(spot.before).LambdaBinder?)
    ensures BeginsAt(spot, gap, b, d, HeadBeginning(Wanted(spot.before), b))
  {
  }

  lemma OpeningBegun(spot: Spot, gap: seq<byte>, b: byte, d: Config)
    requires HeadByte(spot, gap, b, d)
    requires match Wanted(spot.before)
             case WholeQuery | BlockHead | SourceName | Binder | Assignment | StarEnd => true
             case _ => false
    ensures BeginsAt(spot, gap, b, d, HeadBeginning(Wanted(spot.before), b))
  {
  }

  lemma HeadBegun(spot: Spot, gap: seq<byte>, b: byte, d: Config)
    requires HeadByte(spot, gap, b, d) && Inside(spot)
    ensures BeginsAt(spot, gap, b, d, HeadBeginning(Wanted(spot.before), b))
  {
    match Wanted(spot.before)
    case Statement(_) => StatementBegun(spot, gap, b, d);
    case SourceStep => SourceStepBegun(spot, gap, b, d);
    case MemberName => MemberBegun(spot, gap, b, d);
    case Method => MethodBegun(spot, gap, b, d);
    case ColonTarget | LambdaBinder => BinderBegun(spot, gap, b, d);
    case _ => OpeningBegun(spot, gap, b, d);
  }

  // ----- a byte that prolongs the last part -----

  /** The part that one more byte makes of it; `None` when it is finished no longer. */
  function Prolonged(part: Part, b: byte): Option<Part> {
    match part
    case Source(inBlock, name) => if IsIdentTail(b) then Some(Source(inBlock, name + [b])) else None
    case Under(name) => Some(Under(name + [b]))
    case LetName(name) => Some(LetName(name + [b]))
    case Word(name) => Some(Word(name + [b]))
    case Variable(name) => Some(Variable(name + [b]))
    case Column(name) => Some(Part.Column(name + [b]))
    case Scoped(name) => Some(Scoped(name + [b]))
    case Member(name) => Some(Part.Member(name + [b]))
    case Number(n) => if IsDigit(b) then Some(Part.Number(NumeralProlonged(n, b))) else None
    case Day(chars) => Some(Day(chars + [b]))
    case Milestone(letters) => Some(Milestone(letters + [b]))
    case Infix(op) =>
      if op == Minus then Some(Arrow)
      else if op == Less then Some(Infix(LessEq))
      else Some(Infix(GreaterEq))
    case _ => None
  }

  function NumeralProlonged(n: Numeral, b: byte): Numeral {
    match n.fraction
    case None => n.(whole := n.whole + [b])
    case Some(f) => n.(fraction := Some(FractionProlonged(f, b)))
  }

  lemma NumeralLonger(n: Numeral, b: byte)
    requires IsNumeral(n) && IsDigit(b)
    ensures IsNumeral(NumeralProlonged(n, b)) && NumeralState(NumeralProlonged(n, b)) == NumeralState(n)
    ensures NumeralText(NumeralProlonged(n, b)) == NumeralText(n) + [b]
  {
    var sign := if n.minus then [DASH] else [];
    match n.fraction
    case None =>
      Reassociated(sign, n.whole, [b]);
      assert NumeralText(n) == sign + n.whole;
    case Some(f) =>
      FractionLonger(f, b);
      assert NumeralText(NumeralProlonged(n, b)) == sign + n.whole + (FractionText(f) + [b]);
      Reassociated(sign + n.whole, FractionText(f), [b]);
  }

  function FractionProlonged(f: Fraction, b: byte): Fraction {
    match f.exponent
    case None => f.(digits := f.digits + [b])
    case Some(e) => f.(exponent := Some(e.(digits := e.digits + [b])))
  }

  lemma FractionLonger(f: Fraction, b: byte)
    requires IsFraction(f) && IsDigit(b)
    ensures IsFraction(FractionProlonged(f, b)) && FractionText(FractionProlonged(f, b)) == FractionText(f) + [b]
  {
    match f.exponent
    case None =>
      assert FractionText(f) == [DOT] + f.digits;
      Reassociated([DOT], f.digits, [b]);
    case Some(e) =>
      Reassociated([e.mark] + SignText(e.sign), e.digits, [b]);
      Reassociated([DOT] + f.digits, ExponentText(e), [b]);
  }

  /** A longer part of the same kind, which serves wherever the shorter one does. */
  ghost predicate Lengthens(part: Part, longer: Part, b: byte) {
    && WellSpelled(longer) && PartText(longer) == PartText(part) + [b] && longer != LetWord
    && (forall want :: Serves(want, part) ==> Serves(want, longer))
    && (forall before :: Merges(before, longer) ==> Merges(before, part))
    && (forall stack :: Nested(stack, longer) == Nested(stack, part))
  }

  lemma NamesLengthen(part: Part, b: byte)
    requires WellSpelled(part) && IsIdentTail(b)
    requires part.Source? || part.LetName? || part.Word? || part.Member?
    ensures Lengthens(part, Prolonged(part, b).value, b)
  {
  }

  lemma SigilNamesLengthen(part: Part, b: byte)
    requires WellSpelled(part) && IsIdentTail(b)
    requires part.Under? || part.Variable? || part.Column? || part.Scoped?
    ensures Lengthens(part, Prolonged(part, b).value, b)
  {
    Reassociated(if part.Variable? then [DOLLAR] else if part.Column? then [TILDE] else [COLON, COLON], part.name, [b]);
  }

  lemma LiteralsLengthen(part: Part, b: byte)
    requires WellSpelled(part)
    requires (part.Number? && IsDigit(b)) || (part.Day? && (IsDateChar(b) || b == DOT))
             || (part.Milestone? && IsLower(b))
    ensures Lengthens(part, Prolonged(part, b).value, b)
  {
    match part
    case Number(n) => NumeralLonger(n, b);
    case Day(chars) => Reassociated([PERCENT], chars, [b]);
    case Milestone(letters) => Reassociated([PERCENT], letters, [b]);
  }

  lemma OperatorsLengthen(part: Part, b: byte)
    requires part.Infix? && Prolongs(part, b)
    ensures Lengthens(part, Prolonged(part, b).value, b)
  {
  }

  lemma PartsLengthen(part: Part, b: byte)
    requires WellSpelled(part) && Prolongs(part, b) && part != LetWord && Prolonged(part, b).Some?
    ensures Lengthens(part, Prolonged(part, b).value, b)
  {
    match part
    case Number(_) | Day(_) | Milestone(_) => LiteralsLengthen(part, b);
    case Infix(_) => OperatorsLengthen(part, b);
    case Under(_) | Variable(_) | Column(_) | Scoped(_) => SigilNamesLengthen(part, b);
    case _ => NamesLengthen(part, b);
  }

  lemma PartsGoOn(part: Part, stack: seq<Frame>, b: byte)
    requires WellSpelled(part) && Prolongs(part, b) && part != LetWord && Prolonged(part, b).Some?
    ensures Advanced(Config(At(part), stack), b) == Some(Config(At(Prolonged(part, b).value), stack))
  {
    match part
    case Source(inBlock, name) => if inBlock { StatementByte(name, stack, b); }
    case Number(n) => NumeralLonger(n, b);
    case _ =>
  }

  lemma {:induction false} DoubledSnoc(content: seq<byte>, b: byte)
    ensures Lexemes.Doubled(content + [b])
         == Lexemes.Doubled(content) + if b == QUOTE then [QUOTE, QUOTE] else [b]
    decreases |content|
  {
    if content == [] {
      assert content + [b] == [b] && [b][1..] == [];
      assert Lexemes.Doubled([b]) == (if b == QUOTE then [QUOTE, QUOTE] else [b]) + Lexemes.Doubled([]);
    } else {
      assert (content + [b])[0] == content[0] && (content + [b])[1..] == content[1..] + [b];
      DoubledSnoc(content[1..], b);
      Reassociated(if content[0] == QUOTE then [QUOTE, QUOTE] else [content[0]], Lexemes.Doubled(content[1..]),
                   if b == QUOTE then [QUOTE, QUOTE] else [b]);
    }
  }

  lemma QuoteReopens(sigil: bool, content: seq<byte>)
    ensures StubText(OpenQuote(sigil, content + [QUOTE]))
         == (if sigil then [TILDE] else []) + Lexemes.Quote(content) + [QUOTE]
  {
    DoubledSnoc(content, QUOTE);
    QuoteTwice(if sigil then [TILDE] else [], Lexemes.Doubled(content));
  }

  lemma QuoteTwice(sigil: seq<byte>, doubled: seq<byte>)
    ensures sigil + [QUOTE] + (doubled + [QUOTE, QUOTE]) == sigil + ([QUOTE] + doubled + [QUOTE]) + [QUOTE]
  {
  }

  /** What a part becomes the beginning of. */
  function ReopenedAs(part: Part, b: byte): Stub {
    match part
    case Number(n) => if n.fraction.None? then Point(n.minus, n.whole) else Mark(n, b)
    case Text(content) => OpenQuote(false, content + [QUOTE])
    case QuotedMember(content) => OpenQuote(false, content + [QUOTE])
    case QuotedColumn(content) => OpenQuote(true, content + [QUOTE])
    case _ => Sign([COLON, COLON])
  }

  lemma ReopenedText(part: Part, b: byte)
    requires Prolongs(part, b) && Prolonged(part, b).None? && !part.Source? && part != LetWord
    ensures StubText(ReopenedAs(part, b)) == PartText(part) + [b]
  {
    if part.Text? || part.QuotedMember? || part.QuotedColumn? {
      QuoteReopens(part.QuotedColumn?, part.content);
      assert [] + Lexemes.Quote(part.content) == Lexemes.Quote(part.content);
    }
  }

  lemma PartsReopen(spot: Spot, item: Item, b: byte, d: Config)
    requires Fits(spot, item) && Prolongs(item.part, b) && Prolonged(item.part, b).None?
    requires !item.part.Source? && item.part != LetWord
    requires Advanced(Config(At(item.part), Placed(spot, item).stack), b) == Some(d)
    ensures d.stack == spot.stack && Begun(spot.before, item.gap, ReopenedAs(item.part, b), d.state)
  {
    match item.part
    case Number(n) => NumbersReopen(spot, item, n, b, d);
    case Colon => ColonsReopen(spot, item, b, d);
    case _ => QuotesReopen(spot, item, b, d);
  }

  lemma NumbersReopen(spot: Spot, item: Item, n: Numeral, b: byte, d: Config)
    requires Fits(spot, item) && item.part == Part.Number(n) && Prolongs(item.part, b) && !IsDigit(b)
    requires Advanced(Config(NumeralState(n), spot.stack), b) == Some(d)
    ensures d.stack == spot.stack && Begun(spot.before, item.gap, ReopenedAs(item.part, b), d.state)
  {
  }

  lemma ColonsReopen(spot: Spot, item: Item, b: byte, d: Config)
    requires Fits(spot, item) && item.part == Colon && b == COLON
    requires Advanced(Config(AfterColon, spot.stack), b) == Some(d)
    ensures d.stack == spot.stack && Begun(spot.before, item.gap, ReopenedAs(item.part, b), d.state)
  {
  }

  lemma QuotesReopen(spot: Spot, item: Item, b: byte, d: Config)
    requires Fits(spot, item) && (item.part.Text? || item.part.QuotedMember? || item.part.QuotedColumn?) && b == QUOTE
    requires Advanced(Config(InStrLit(true), spot.stack), b) == Some(d)
    ensures d.stack == spot.stack && Begun(spot.before, item.gap, ReopenedAs(item.part, b), d.state)
  {
  }

  lemma OnlyLetIsSpaced(part: Part, stack: seq<Frame>, b: byte, d: Config)
    requires part.Source? && IsWs(b) && Advanced(Config(At(part), stack), b) == Some(d)
    ensures part == Source(true, [LOWER_L, LOWER_E, LOWER_T]) && d == Config(ExpectBinder, stack)
  {
  }

  /** `let` is the keyword once whitespace follows. */
  lemma KeywordRead(c: Config, r: Progress, front: seq<Item>, last: Item, b: byte, d: Config) returns (q: Progress)
    requires Ends(c, r, front, last) && last.part.Source? && IsWs(b) && Advanced(c, b) == Some(d)
    ensures Reads(d, q) && ProgressText(q) == ProgressText(r) + [b]
  {
    var item := Item(last.gap, LetWord);
    OnlyLetIsSpaced(last.part, c.stack, b, d);
    q := KeywordRests(front, item, b, d);
    Reassociated(Spelled(front), last.gap, PartText(last.part));
  }

  lemma KeywordSpot(front: seq<Item>, item: Item)
    requires Follow(OUTSET, front).Some? && Fits(Follow(OUTSET, front).value, item) && item.part == LetWord
    ensures Follow(OUTSET, front + [item]) == Some(Spot(Some(LetWord), Follow(OUTSET, front).value.stack))
    ensures Sound(Spot(Some(LetWord), Follow(OUTSET, front).value.stack))
    ensures Spelled(front + [item]) == Spelled(front) + ItemText(item)
  {
    FollowSnoc(OUTSET, front, item);
  }

  lemma KeywordRests(front: seq<Item>, item: Item, b: byte, d: Config) returns (q: Progress)
    requires Follow(OUTSET, front).Some? && Fits(Follow(OUTSET, front).value, item) && item.part == LetWord
    requires IsWs(b) && d == Config(ExpectBinder, Follow(OUTSET, front).value.stack)
    ensures Reads(d, q) && ProgressText(q) == Spelled(front) + ItemText(item) + [b]
  {
    KeywordSpot(front, item);
    q := Resting(front + [item], [b]);
  }

  lemma ProlongedRead(c: Config, r: Progress, b: byte, d: Config) returns (q: Progress)
    requires Reads(c, r) && r.Resting? && r.tail == [] && r.items != []
    requires var before := Follow(OUTSET, r.items).value.before; before.Some? && Prolongs(before.value, b)
    requires Advanced(c, b) == Some(d)
    ensures Reads(d, q) && ProgressText(q) == ProgressText(r) + [b]
  {
    var front, last := LastPart(c, r);
    var mid := Follow(OUTSET, front).value;
    if Prolonged(last.part, b).Some? {
      var longer := Prolonged(last.part, b).value;
      PartsLengthen(last.part, b);
      PartsGoOn(last.part, c.stack, b);
      assert Serves(Wanted(mid.before), longer) && Nested(mid.stack, longer) == Nested(mid.stack, last.part);
      q := LongerPart(c, r, front, last, longer, b, d);
    } else if last.part.Source? {
      q := KeywordRead(c, r, front, last, b, d);
    } else {
      ReopenedText(last.part, b);
      PartsReopen(mid, last, b, d);
      q := Reopened(c, r, front, last, ReopenedAs(last.part, b), b, d);
    }
  }

  // ----- a byte inside a part -----

  /** What a byte makes of a part begun: the whole part, a longer beginning, or nothing. */
  function StubGrown(s: State, stub: Stub, want: Want, b: byte): Beginning {
    match stub
    case Sign(bytes) => SignGrown(s, bytes, b)
    case Point(minus, whole) => Whole(Part.Number(Numeral(minus, whole, Some(Fraction([b], None)))))
    case Mark(n, mark) =>
      if IsDigit(b) then Whole(Part.Number(Powered(n, Exponent(mark, None, [b])))) else Started(MarkSign(n, mark, b))
    case MarkSign(n, mark, sign) => Whole(Part.Number(Powered(n, Exponent(mark, Some(sign), [b]))))
    case OpenQuote(sigil, content) =>
      if b != QUOTE then Started(OpenQuote(sigil, content + [b]))
      else if sigil then Whole(QuotedColumn(content))
      else if want.MemberName? then Whole(QuotedMember(content))
      else Whole(Text(content))
  }

  function SignGrown(s: State, bytes: seq<byte>, b: byte): Beginning {
    match s
    case SourceColon => Started(Sign([COLON, COLON]))
    case SourceColon2 => Whole(Under([b]))
    case SourceDash => Whole(Arrow)
    case AfterDollar => Whole(Variable([b]))
    case SawTilde =>
      if b == LBRACKET then Whole(OpenColumns)
      else if b == QUOTE then Started(OpenQuote(true, []))
      else Whole(Part.Column([b]))
    case SawPercent => if IsLower(b) then Whole(Milestone([b])) else Whole(Day([b]))
    case SawNumSign => if b == DOT then Started(Point(true, [])) else Whole(Part.Number(Numeral(true, [b], None)))
    case SawEq => Whole(Infix(Equal))
    case SawBang => Whole(Infix(NotEqual))
    case SawAmp => Whole(Infix(And))
    case _ => Whole(Scoped([b]))
  }

  function Powered(n: Numeral, e: Exponent): Numeral {
    match n.fraction
    case Some(f) => n.(fraction := Some(f.(exponent := Some(e))))
    case None => n
  }

  /** What grows out of a beginning spells one byte more, and leads the automaton to its own state. */
  predicate GrowsTo(spot: Spot, gap: seq<byte>, stub: Stub, b: byte, d: Config, what: Beginning) {
    match what
    case Whole(part) =>
      && PartText(part) == StubText(stub) + [b] && Fits(spot, Item(gap, part)) && part != LetWord
      && d == Config(At(part), Placed(spot, Item(gap, part)).stack)
    case Started(longer) =>
      StubText(longer) == StubText(stub) + [b] && d.stack == spot.stack && Begun(spot.before, gap, longer, d.state)
    case Nothing => false
  }

  /** The automaton inside a part leads on with `b`. */
  predicate InsideByte(spot: Spot, gap: seq<byte>, stub: Stub, s: State, b: byte, d: Config) {
    Begun(spot.before, gap, stub, s) && Advanced(Config(s, spot.stack), b) == Some(d)
  }

  lemma SourceSignGrows(spot: Spot, gap: seq<byte>, stub: Stub, s: State, b: byte, d: Config)
    requires InsideByte(spot, gap, stub, s, b, d) && (s == SourceColon || s == SourceColon2 || s == SourceDash)
    ensures GrowsTo(spot, gap, stub, b, d, StubGrown(s, stub, Wanted(spot.before), b))
  {
  }

  lemma NameSignGrows(spot: Spot, gap: seq<byte>, stub: Stub, s: State, b: byte, d: Config)
    requires InsideByte(spot, gap, stub, s, b, d) && (s == AfterDollar || s == SawTilde)
    ensures GrowsTo(spot, gap, stub, b, d, StubGrown(s, stub, Wanted(spot.before), b))
  {
  }

  lemma LiteralSignGrows(spot: Spot, gap: seq<byte>, stub: Stub, s: State, b: byte, d: Config)
    requires InsideByte(spot, gap, stub, s, b, d) && (s == SawPercent || s == SawNumSign)
    ensures GrowsTo(spot, gap, stub, b, d, StubGrown(s, stub, Wanted(spot.before), b))
  {
  }

  lemma OperatorSignGrows(spot: Spot, gap: seq<byte>, stub: Stub, s: State, b: byte, d: Config)
    requires InsideByte(spot, gap, stub, s, b, d) && (s == SawEq || s == SawBang || s == SawAmp || s == AfterColon2)
    ensures GrowsTo(spot, gap, stub, b, d, StubGrown(s, stub, Wanted(spot.before), b))
  {
  }

  lemma PointGrows(spot: Spot, gap: seq<byte>, stub: Stub, b: byte, d: Config)
    requires InsideByte(spot, gap, stub, NeedFracDigit, b, d)
    ensures GrowsTo(spot, gap, stub, b, d, StubGrown(NeedFracDigit, stub, Wanted(spot.before), b))
  {
    var sign := if stub.minus then [DASH] else [];
    assert StubText(stub) == sign + stub.whole + [DOT];
    Reassociated(sign + stub.whole, [DOT], [b]);
  }

  lemma PoweredText(n: Numeral, e: Exponent)
    requires IsPlainFraction(n)
    ensures NumeralText(Powered(n, e)) == NumeralText(n) + ExponentText(e)
  {
    var sign, f := if n.minus then [DASH] else [], n.fraction.value;
    assert FractionText(f) == [DOT] + f.digits;
    Reassociated(sign + n.whole, [DOT] + f.digits, ExponentText(e));
  }

  lemma MarkGrows(spot: Spot, gap: seq<byte>, stub: Stub, s: State, b: byte, d: Config)
    requires InsideByte(spot, gap, stub, s, b, d) && (s == SawExp || s == NeedExpDigit)
    ensures GrowsTo(spot, gap, stub, b, d, StubGrown(s, stub, Wanted(spot.before), b))
  {
    var sign := if stub.MarkSign? then Some(stub.sign) else None;
    PoweredText(stub.numeral, Exponent(stub.mark, sign, [b]));
    assert StubText(stub) == NumeralText(stub.numeral) + ([stub.mark] + SignText(sign));
    Reassociated(NumeralText(stub.numeral), [stub.mark] + SignText(sign), [b]);
  }

  lemma QuoteGrows(spot: Spot, gap: seq<byte>, stub: Stub, b: byte, d: Config)
    requires InsideByte(spot, gap, stub, InStrLit(false), b, d)
    ensures GrowsTo(spot, gap, stub, b, d, StubGrown(InStrLit(false), stub, Wanted(spot.before), b))
  {
    var sigil := if stub.sigil then [TILDE] else [];
    DoubledSnoc(stub.content, b);
    Reassociated(sigil + [QUOTE], Lexemes.Doubled(stub.content), [b]);
    Reassociated(sigil, [QUOTE], Lexemes.Doubled(stub.content) + [b]);
    assert Lexemes.Quote(stub.content) == [QUOTE] + (Lexemes.Doubled(stub.content) + [QUOTE]);
  }

  lemma StubGrows(spot: Spot, gap: seq<byte>, stub: Stub, s: State, b: byte, d: Config)
    requires InsideByte(spot, gap, stub, s, b, d)
    ensures GrowsTo(spot, gap, stub, b, d, StubGrown(s, stub, Wanted(spot.before), b))
  {
    match s
    case SourceColon | SourceColon2 | SourceDash => SourceSignGrows(spot, gap, stub, s, b, d);
    case AfterDollar | SawTilde => NameSignGrows(spot, gap, stub, s, b, d);
    case SawPercent | SawNumSign => LiteralSignGrows(spot, gap, stub, s, b, d);
    case NeedFracDigit => PointGrows(spot, gap, stub, b, d);
    case SawExp | NeedExpDigit => MarkGrows(spot, gap, stub, s, b, d);
    case InStrLit(_) => QuoteGrows(spot, gap, stub, b, d);
    case _ => OperatorSignGrows(spot, gap, stub, s, b, d);
  }

  lemma MidwayRead(c: Config, r: Progress, b: byte, d: Config) returns (q: Progress)
    requires Reads(c, r) && r.Midway? && Advanced(c, b) == Some(d)
    ensures Reads(d, q) && ProgressText(q) == ProgressText(r) + [b]
  {
    var spot := Follow(OUTSET, r.items).value;
    var what := StubGrown(c.state, r.stub, Wanted(spot.before), b);
    StubGrows(spot, r.gap, r.stub, c.state, b, d);
    match what
    case Whole(part) => q := FinishedStub(c, r, part, b, d);
    case Started(longer) => q := LongerStub(c, r, longer, b, d);
  }

  // ----- a byte anywhere -----

  lemma FollowInside(items: seq<Item>)
    requires Follow(OUTSET, items).Some?
    ensures Inside(Follow(OUTSET, items).value)
  {
    if items != [] {
      var n := |items| - 1;
      assert items == items[..n] + [items[n]];
      FollowSnoc(OUTSET, items[..n], items[n]);
      PlacedInside(Follow(OUTSET, items[..n]).value, items[n]);
    }
  }

  /** Whitespace that prolongs nothing is a gap. */
  lemma SpaceRests(before: Option<Part>, tail: seq<byte>, stack: seq<Frame>, b: byte, d: Config)
    requires IsWs(b) && (before.Some? ==> WellSpelled(before.value))
    requires tail != [] ==> RestsAt(Wanted(before))
    requires tail == [] && before.Some? ==> !Prolongs(before.value, b)
    requires Advanced(Config(Behind(before, tail), stack), b) == Some(d)
    ensures RestsAt(Wanted(before)) && d == Config(Rested(Wanted(before)), stack)
  {
    if tail != [] {
      KeptByte(Rested(Wanted(before)), stack, b);
    } else if before.Some? && RestsAt(Wanted(before)) {
      GapStarts(before.value, stack, b);
    }
  }

  /** An operator or an opener reads what does not prolong it as the value hub does. */
  lemma UnprolongedReads(before: Part, stack: seq<Frame>, b: byte)
    requires Wanted(Some(before)).Term? && !Prolongs(before, b)
    ensures Advanced(Config(At(before), stack), b)
         == Advanced(ValueHub(stack, Wanted(Some(before)).inside.Some?), b)
  {
  }

  lemma FinishedStates(before: Part)
    requires WellSpelled(before) && Wanted(Some(before)).More?
    ensures Spelling.Finished(At(before))
  {
  }

  lemma FreshByteRead(c: Config, r: Progress, b: byte, d: Config) returns (q: Progress)
    requires Reads(c, r) && r.Resting? && !IsWs(b) && Advanced(c, b) == Some(d)
    requires var before := Follow(OUTSET, r.items).value.before;
             r.tail == [] && before.Some? ==> !Prolongs(before.value, b)
    ensures Reads(d, q) && ProgressText(q) == ProgressText(r) + [b]
  {
    var spot := Follow(OUTSET, r.items).value;
    FollowInside(r.items);
    if Wanted(spot.before).Term? {
      if r.tail == [] { UnprolongedReads(spot.before.value, spot.stack, b); }
      ValueBegun(spot, r.tail, b, d);
      q := Beginnings(c, r, ValueBeginning(b, Top(spot.stack)), b, d);
    } else if Wanted(spot.before).More? {
      FinishedStates(spot.before.value);
      if r.tail == [] { FinishedReads(At(spot.before.value), spot.stack, b); }
      MoreBegun(spot, r.tail, b, d);
      q := Beginnings(c, r, MoreBeginning(b, Top(spot.stack)), b, d);
    } else {
      HeadBegun(spot, r.tail, b, d);
      q := Beginnings(c, r, HeadBeginning(Wanted(spot.before), b), b, d);
    }
  }

  lemma ByteRead(c: Config, r: Progress, b: byte, d: Config) returns (q: Progress)
    requires Reads(c, r) && Advanced(c, b) == Some(d)
    ensures Reads(d, q) && ProgressText(q) == ProgressText(r) + [b]
  {
    if r.Midway? {
      q := MidwayRead(c, r, b, d);
    } else {
      var spot := Follow(OUTSET, r.items).value;
      if r.tail == [] && spot.before.Some? && Prolongs(spot.before.value, b) {
        q := ProlongedRead(c, r, b, d);
      } else if IsWs(b) {
        SpaceRests(spot.before, r.tail, spot.stack, b, d);
        q := GapByteRead(c, r, b, d);
      } else {
        q := FreshByteRead(c, r, b, d);
      }
    }
  }

  // ----- sentences -----

  /** Every live stream is the beginning of a sentence, part by part. */
  lemma {:induction false} EveryRunReads(bytes: seq<byte>) returns (r: Progress)
    requires Run(INITIAL, bytes).Some?
    ensures Reads(Run(INITIAL, bytes).value, r) && ProgressText(r) == bytes
    decreases |bytes|
  {
    if bytes == [] {
      r := Resting([], []);
    } else {
      var n := |bytes| - 1;
      assert bytes == bytes[..n] + [bytes[n]];
      RunSnoc(INITIAL, bytes[..n], bytes[n]);
      var front := EveryRunReads(bytes[..n]);
      r := ByteRead(Run(INITIAL, bytes[..n]).value, front, bytes[n], Run(INITIAL, bytes).value);
    }
  }

  lemma UnfinishedParts(before: Option<Part>, gap: seq<byte>, stub: Stub, s: State)
    requires Begun(before, gap, stub, s)
    ensures !Transitions.ValueTerminal(s)
  {
  }

  lemma UnfinishedSentences(before: Option<Part>, tail: seq<byte>)
    requires before.Some? ==> WellSpelled(before.value)
    requires !Wanted(before).More?
    ensures !Transitions.ValueTerminal(Behind(before, tail))
  {
  }

  /** The decoder's language, both ways: a byte string is accepted if and only if it spells a sentence, with any
      whitespace behind it. */
  lemma AcceptedIffSentence(bytes: seq<byte>)
    ensures Accepted(bytes)
       <==> exists items, tail :: IsSentence(items) && IsGap(tail) && bytes == Spelled(items) + tail
  {
    if Accepted(bytes) {
      var r := EveryRunReads(bytes);
      var spot := Follow(OUTSET, r.items).value;
      if r.Midway? {
        UnfinishedParts(spot.before, r.gap, r.stub, Run(INITIAL, bytes).value.state);
      } else {
        if !Wanted(spot.before).More? { UnfinishedSentences(spot.before, r.tail); }
        assert IsSentence(r.items) && IsGap(r.tail) && bytes == Spelled(r.items) + r.tail;
      }
    }
    forall items, tail | IsSentence(items) && IsGap(tail) && bytes == Spelled(items) + tail ensures Accepted(bytes) {
      SentencesAreAccepted(items, tail);
    }
  }
}
