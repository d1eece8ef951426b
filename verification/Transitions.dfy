/** What one transition can do: the facts about `StepOf` the run theorems are built from. */
module Transitions {
  import opened Bytes
  import opened Automaton

  /** The states that hand some of their bytes to one of the two shared value steps. */
  predicate OnHub(s: State) {
    match s
    case ExpectValue | ExpectValueReq | SawDash | SawPipe | SawGt | SawLt
      | AfterValue | InIdent | InNumberInt | InNumberFrac | InExp | InStrLit(_) | InDateLit | InMilestoneLit => true
    case _ => false
  }

  // ----- reading the stack top -----

  lemma ValuePositionFrameRule(f: Frame, b: byte, allowClose: bool)
    ensures var alone := ValuePosition(None, b, allowClose);
            alone != Dead ==> ValuePosition(Some(f), b, allowClose) == alone && !alone.Pop?
  {
  }

  lemma AfterValueFrameRule(f: Frame, b: byte)
    ensures var alone := AfterValueStep(None, b);
            alone != Dead ==> AfterValueStep(Some(f), b) == alone && !alone.Pop?
  {
  }

  /** What lives over an empty stack lives the same over a frame, and pops nothing. */
  predicate FrameKept(alone: Step, under: Step) {
    alone != Dead ==> under == alone && !alone.Pop?
  }

  lemma HubFrameRule(s: State, f: Frame, b: byte)
    requires OnHub(s)
    ensures FrameKept(StepOf(s, None, b), StepOf(s, Some(f), b))
  {
    match s
    case ExpectValue =>
      ValuePositionFrameRule(f, b, true);
    case ExpectValueReq | SawDash | SawPipe | SawGt | SawLt =>
      ValuePositionFrameRule(f, b, false);
    case _ =>
      AfterValueFrameRule(f, b);
  }

  lemma OwnFrameRule(s: State, f: Frame, b: byte)
    requires !OnHub(s)
    ensures FrameKept(StepOf(s, None, b), StepOf(s, Some(f), b))
  {
  }

  /** A transition that lives over an empty stack is the same under every stack top, and pops nothing. */
  lemma FrameRule(s: State, f: Frame, b: byte)
    requires StepOf(s, None, b) != Dead
    ensures StepOf(s, Some(f), b) == StepOf(s, None, b)
    ensures !StepOf(s, None, b).Pop?
  {
    if OnHub(s) { HubFrameRule(s, f, b); } else { OwnFrameRule(s, f, b); }
  }

  /** The frame a closing byte pops. */
  predicate Matches(f: Frame, b: byte) {
    match f
    case Paren => b == RPAREN
    case Bracket => b == RBRACKET
    case Brace | BraceLambda => b == RBRACE
  }

  function FrameOf(b: byte, first: bool): Frame
    requires IsOpener(b)
  {
    if b == LPAREN then Paren else if b == LBRACKET then Bracket else if first then Brace else BraceLambda
  }

  /** Outside strings a byte moves a frame exactly when it is a delimiter, an opener pushing its own frame and
      a closer popping its match; quotes alone open and leave strings; only blanks stay at the start. */
  predicate Moves(s: State, top: Option<Frame>, b: byte, next: Step) {
    match next
    case Push(f, t) =>
      IsOpener(b) && s != InStrLit(false) && f == FrameOf(b, s == Start) && t != InStrLit(false) && t != Start
    case Pop(t) =>
      IsCloser(b) && s != InStrLit(false) && top.Some? && Matches(top.value, b) && t == AfterValue
    case Next(t) =>
      && (s != InStrLit(false) ==> !IsOpener(b) && !IsCloser(b))
      && (t == InStrLit(false)) == ((b == QUOTE) != (s == InStrLit(false)))
      && (t == Start <==> s == Start && IsWs(b))
    case Dead => true
  }

  lemma ValuePositionMoves(s: State, top: Option<Frame>, b: byte, allowClose: bool)
    requires s != Start && s != InStrLit(false)
    ensures Moves(s, top, b, ValuePosition(top, b, allowClose))
  {
  }

  lemma AfterValueMoves(s: State, top: Option<Frame>, b: byte)
    requires s != Start && s != InStrLit(false) && (s == InStrLit(true) ==> b != QUOTE)
    ensures Moves(s, top, b, AfterValueStep(top, b))
  {
  }

  lemma HubMoves(s: State, top: Option<Frame>, b: byte)
    requires OnHub(s)
    ensures Moves(s, top, b, StepOf(s, top, b))
  {
    match s
    case ExpectValue =>
      ValuePositionMoves(s, top, b, true);
    case ExpectValueReq | SawDash | SawPipe | SawGt | SawLt =>
      ValuePositionMoves(s, top, b, false);
    case InStrLit(escaped) =>
      if escaped && b != QUOTE { AfterValueMoves(s, top, b); }
    case _ =>
      AfterValueMoves(s, top, b);
  }

  lemma LexemeMoves(s: State, top: Option<Frame>, b: byte)
    requires !OnHub(s) && LexemeKind(s).Some?
    ensures Moves(s, top, b, StepOf(s, top, b))
  {
  }

  /** The states that lead up to a source or a binder. */
  predicate Heading(s: State) {
    match s
    case Start | ExpectSource | AfterBraceOpen | BlockStmt | BlockStmtClose | SourceDash
      | LetL | LetLe | LetLet | ExpectBinder | AfterBinder | ExpectBraceBinder => true
    case _ => false
  }

  lemma HeadMoves(s: State, top: Option<Frame>, b: byte)
    requires Heading(s)
    ensures Moves(s, top, b, StepOf(s, top, b))
  {
  }

  lemma GapMoves(s: State, top: Option<Frame>, b: byte)
    requires !OnHub(s) && !Heading(s) && LexemeKind(s).None?
    ensures Moves(s, top, b, StepOf(s, top, b))
  {
  }

  lemma StepMoves(s: State, top: Option<Frame>, b: byte)
    ensures Moves(s, top, b, StepOf(s, top, b))
  {
    if OnHub(s) { HubMoves(s, top, b); }
    else if Heading(s) { HeadMoves(s, top, b); }
    else if LexemeKind(s).Some? { LexemeMoves(s, top, b); }
    else { GapMoves(s, top, b); }
  }

  // ----- closing what is open -----

  /** What the state owes before it is a finished value, in bytes; the open frames come on top. */
  function Need(s: State): nat {
    match s
    case ExpectBinder => 5
    case Start | SourceColon | InBinder | AfterBinder => 4
    case ExpectSource | AfterBraceOpen | SourceColon2 => 3
    case BlockStmt | InSourceIdent | SourceDash | LetL | LetLe | LetLet | SawEq | SawBang | SawAmp => 2
    case ExpectBraceBinder | AfterColonWs | ExpectValueReq | SawNumSign | NeedFracDigit
      | SawExp | NeedExpDigit | SawPercent | AfterDollar | AfterDot | AfterArrow | AfterColon
      | AfterColon2 | SawDash | SawPipe | SawGt | SawLt | SawTilde => 1
    case InStrLit(escaped) => if escaped then 0 else 1
    case _ => 0
  }

  /** What a reachable stack top says about the states that lean on it. */
  predicate TopFits(s: State, top: Option<Frame>) {
    && (s == InMultiplicity ==> top == Some(Bracket))
    && (s == BlockStmtClose ==> top == Some(Brace))
    && (s == ExpectValue ==> top.Some?)
  }

  /** The transition's target fits the stack top the transition leaves, when it is not a pop. */
  predicate TargetFits(next: Step, top: Option<Frame>) {
    next != Dead ==> TopFits(next.state, if next.Push? then Some(next.frame) else top)
  }

  lemma ValuePositionFits(top: Option<Frame>, b: byte, allowClose: bool)
    requires allowClose ==> top.Some?
    ensures TargetFits(ValuePosition(top, b, allowClose), top)
  {
  }

  lemma AfterValueFits(top: Option<Frame>, b: byte)
    ensures TargetFits(AfterValueStep(top, b), top)
  {
  }

  lemma HubFits(s: State, top: Option<Frame>, b: byte)
    requires TopFits(s, top) && OnHub(s)
    ensures TargetFits(StepOf(s, top, b), top)
  {
    match s
    case ExpectValue =>
      ValuePositionFits(top, b, true);
    case ExpectValueReq | SawDash | SawPipe | SawGt | SawLt =>
      ValuePositionFits(top, b, false);
    case _ =>
      AfterValueFits(top, b);
  }

  lemma BlockFits(top: Option<Frame>, b: byte, allowClose: bool)
    requires allowClose ==> top == Some(Brace)
    ensures TargetFits(BlockStatement(top, b, allowClose), top)
  {
  }

  lemma HeadFits(s: State, top: Option<Frame>, b: byte)
    requires TopFits(s, top) && Heading(s)
    ensures TargetFits(StepOf(s, top, b), top)
  {
    match s
    case BlockStmt => BlockFits(top, b, false);
    case BlockStmtClose => BlockFits(top, b, true);
    case _ =>
  }

  lemma OwnFits(s: State, top: Option<Frame>, b: byte)
    requires TopFits(s, top) && !OnHub(s) && !Heading(s)
    ensures TargetFits(StepOf(s, top, b), top)
  {
  }

  lemma StepKeepsTopFits(s: State, top: Option<Frame>, b: byte)
    requires TopFits(s, top)
    ensures TargetFits(StepOf(s, top, b), top)
  {
    if OnHub(s) { HubFits(s, top, b); }
    else if Heading(s) { HeadFits(s, top, b); }
    else { OwnFits(s, top, b); }
  }

  lemma NeedFallsByOne(s: State, top: Option<Frame>, b: byte)
    requires StepOf(s, top, b) != Dead
    ensures StepOf(s, top, b).Next? ==> Need(s) <= 1 + Need(StepOf(s, top, b).state)
    ensures StepOf(s, top, b).Push? ==> Need(s) <= 2 + Need(StepOf(s, top, b).state)
    ensures StepOf(s, top, b).Pop? ==> Need(s) == 0
  {
  }

  /** A byte that pays one unit of `Need`. */
  function Paying(s: State): byte {
    match s
    case Start | AfterBraceOpen => PIPE
    case BlockStmt => DOLLAR
    case InSourceIdent | LetL | LetLe | LetLet => DOT
    case SourceColon => COLON
    case SourceDash => GT
    case InBinder | AfterBinder | SawEq | SawBang => EQUALS
    case SawAmp => AMP
    case SawNumSign | NeedFracDigit | SawExp | NeedExpDigit | SawPercent => ZERO
    case InStrLit(_) => QUOTE
    case _ => LOWER_A
  }

  predicate Pays(s: State, next: Step) {
    next.Next? && Need(next.state) == Need(s) - 1
  }

  lemma HubPays(s: State, top: Option<Frame>)
    requires Need(s) > 0 && OnHub(s)
    ensures Pays(s, StepOf(s, top, Paying(s)))
  {
  }

  lemma HeadPays(s: State, top: Option<Frame>)
    requires Need(s) > 0 && Heading(s)
    ensures Pays(s, StepOf(s, top, Paying(s)))
  {
  }

  lemma OwnPays(s: State, top: Option<Frame>)
    requires Need(s) > 0 && !OnHub(s) && !Heading(s)
    ensures Pays(s, StepOf(s, top, Paying(s)))
  {
  }

  lemma PayingPays(s: State, top: Option<Frame>)
    requires Need(s) > 0
    ensures Pays(s, StepOf(s, top, Paying(s)))
  {
    if OnHub(s) { HubPays(s, top); }
    else if Heading(s) { HeadPays(s, top); }
    else { OwnPays(s, top); }
  }

  /** The byte that closes a frame. */
  function CloserOf(f: Frame): byte {
    match f
    case Paren => RPAREN
    case Bracket => RBRACKET
    case Brace | BraceLambda => RBRACE
  }

  lemma PaidStateCloses(s: State, f: Frame)
    requires Need(s) == 0 && TopFits(s, Some(f))
    ensures StepOf(s, Some(f), CloserOf(f)) == Pop(AfterValue)
  {
  }

  /** Whether a state has finished a value: a space from it lands in the value hub. */
  predicate ValueTerminal(s: State) {
    StepOf(s, None, SPACE) == Next(AfterValue)
  }

  lemma ValueTerminalIsPaid(s: State)
    requires ValueTerminal(s)
    ensures Need(s) == 0
  {
  }

  lemma PaidIsValueTerminal(s: State)
    requires TopFits(s, None) && Need(s) == 0
    ensures ValueTerminal(s)
  {
  }

  lemma ValueTerminalIffPaid(s: State)
    requires TopFits(s, None)
    ensures ValueTerminal(s) <==> Need(s) == 0
  {
    if Need(s) == 0 {
      PaidIsValueTerminal(s);
    } else if ValueTerminal(s) {
      ValueTerminalIsPaid(s);
    }
  }

  // ----- lexemes -----

  /** A lexeme is entered from a structural position, by a byte that is no delimiter and no pipe, and left for
      one: no byte goes from one kind of lexeme into another. Only a quote enters a string. */
  predicate Turns(s: State, b: byte, next: Step) {
    match next
    case Next(t) =>
      && (LexemeKind(s).Some? && LexemeKind(t).Some? ==> LexemeKind(t) == LexemeKind(s))
      && (LexemeKind(s).None? && LexemeKind(t).Some? ==> !IsOpener(b) && !IsCloser(b) && b != PIPE)
      && (LexemeKind(s) != Some(Str) ==> (b == QUOTE <==> LexemeKind(t) == Some(Str)))
      && (LexemeKind(s) != Some(Str) && b == QUOTE ==> t == InStrLit(false))
    case Push(_, t) => LexemeKind(t).None? && b != QUOTE
    case Pop(t) => LexemeKind(t).None? && b != QUOTE
    case Dead => true
  }

  lemma ValuePositionTurns(s: State, top: Option<Frame>, b: byte, allowClose: bool)
    requires LexemeKind(s).None?
    ensures Turns(s, b, ValuePosition(top, b, allowClose))
  {
  }

  lemma AfterValueTurns(s: State, top: Option<Frame>, b: byte)
    ensures Turns(s, b, AfterValueStep(top, b))
  {
  }

  lemma HubTurns(s: State, top: Option<Frame>, b: byte)
    requires OnHub(s)
    ensures Turns(s, b, StepOf(s, top, b))
  {
    match s
    case ExpectValue =>
      ValuePositionTurns(s, top, b, true);
    case ExpectValueReq | SawDash | SawPipe | SawGt | SawLt =>
      ValuePositionTurns(s, top, b, false);
    case _ =>
      AfterValueTurns(s, top, b);
  }

  lemma LexemeTurns(s: State, top: Option<Frame>, b: byte)
    requires !OnHub(s) && LexemeKind(s).Some?
    ensures Turns(s, b, StepOf(s, top, b))
  {
  }

  lemma HeadTurns(s: State, top: Option<Frame>, b: byte)
    requires Heading(s)
    ensures Turns(s, b, StepOf(s, top, b))
  {
  }

  lemma GapTurns(s: State, top: Option<Frame>, b: byte)
    requires !OnHub(s) && !Heading(s) && LexemeKind(s).None?
    ensures Turns(s, b, StepOf(s, top, b))
  {
  }

  lemma StepTurns(s: State, top: Option<Frame>, b: byte)
    ensures Turns(s, b, StepOf(s, top, b))
  {
    if OnHub(s) { HubTurns(s, top, b); }
    else if Heading(s) { HeadTurns(s, top, b); }
    else if LexemeKind(s).Some? { LexemeTurns(s, top, b); }
    else { GapTurns(s, top, b); }
  }

  /** Outside lexemes a byte moves a frame exactly when it is a delimiter. */
  lemma GapByte(s: State, top: Option<Frame>, b: byte)
    requires StepOf(s, top, b) != Dead && LexemeKind(StepOf(s, top, b).state).None?
    ensures IsOpener(b) <==> StepOf(s, top, b).Push?
    ensures IsCloser(b) <==> StepOf(s, top, b).Pop?
  {
    StepMoves(s, top, b);
    StepTurns(s, top, b);
  }

  /** Navigation identifiers are read in one state. */
  lemma NavigationIdent(s: State, top: Option<Frame>, b: byte)
    requires StepOf(s, top, b) != Dead && LexemeKind(StepOf(s, top, b).state) == Some(Ident)
    requires s == AfterDollar || s == AfterDot || s == InIdent
    ensures StepOf(s, top, b).state == InIdent
  {
  }

  /** Where a dot followed by an identifier can lead outside lexemes. */
  lemma DotThenIdent(s: State, top: Option<Frame>, b: byte)
    requires LexemeKind(s).None? && StepOf(s, top, DOT) != Dead && IsIdentStart(b)
    ensures StepOf(s, top, DOT) == Next(AfterDot) || StepOf(StepOf(s, top, DOT).state, top, b) == Dead
  {
  }
}
