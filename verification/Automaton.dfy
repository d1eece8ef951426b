/** The byte-level pushdown automaton of the emitted-Pure grammar. */
module Automaton {
  import opened Bytes

  datatype State =
    | Start
    | ExpectSource
    | AfterBraceOpen
    | BlockStmt
    | BlockStmtClose
    | InSourceIdent
    | SourceColon
    | SourceColon2
    | SourceDash
    | LetL
    | LetLe
    | LetLet
    | ExpectBinder
    | InBinder
    | AfterBinder
    | InMultiplicity
    | ExpectBraceBinder
    | AfterColonWs
    | ExpectValue
    | ExpectValueReq
    | AfterValue
    | InIdent
    | SawNumSign
    | InNumberInt
    | NeedFracDigit
    | InNumberFrac
    | SawExp
    | NeedExpDigit
    | InExp
    | InStrLit(escaped: bool)
    | SawPercent
    | InDateLit
    | InMilestoneLit
    | AfterDollar
    | AfterDot
    | AfterArrow
    | AfterColon
    | AfterColon2
    | SawDash
    | SawPipe
    | SawEq
    | SawBang
    | SawGt
    | SawLt
    | SawAmp
    | SawTilde

  /** An open delimiter awaiting its match: the whole stack alphabet. */
  datatype Frame = Paren | Bracket | Brace | BraceLambda

  datatype Step = Next(state: State) | Push(frame: Frame, state: State) | Pop(state: State) | Dead

  /** The classes of lexeme a state can be inside. */
  datatype LexKind = Ident | Number | Str | Date

  /** The dense cache index of a state. */
  function Index(s: State): nat {
    match s
    case Start => 0
    case ExpectSource => 1
    case AfterBraceOpen => 2
    case BlockStmt => 3
    case BlockStmtClose => 4
    case InSourceIdent => 5
    case SourceColon => 6
    case SourceColon2 => 7
    case SourceDash => 8
    case LetL => 9
    case LetLe => 10
    case LetLet => 11
    case ExpectBinder => 12
    case InBinder => 13
    case AfterBinder => 14
    case InMultiplicity => 15
    case ExpectBraceBinder => 16
    case AfterColonWs => 17
    case ExpectValue => 18
    case ExpectValueReq => 19
    case AfterValue => 20
    case InIdent => 21
    case SawNumSign => 22
    case InNumberInt => 23
    case NeedFracDigit => 24
    case InNumberFrac => 25
    case InStrLit(escaped) => if escaped then 27 else 26
    case SawPercent => 28
    case InDateLit => 29
    case AfterDollar => 30
    case AfterDot => 31
    case AfterArrow => 32
    case AfterColon => 33
    case AfterColon2 => 34
    case SawDash => 35
    case SawPipe => 36
    case SawEq => 37
    case SawBang => 38
    case SawGt => 39
    case SawLt => 40
    case SawAmp => 41
    case InMilestoneLit => 42
    case SawTilde => 43
    case SawExp => 44
    case NeedExpDigit => 45
    case InExp => 46
  }

  const STATE_COUNT: nat := 47

  /** The lexeme class a state is inside; `None` in a structural position. */
  function LexemeKind(s: State): Option<LexKind> {
    match s
    case InIdent | InSourceIdent | InBinder | SourceColon | SourceColon2 => Some(Ident)
    case SawNumSign | InNumberInt | NeedFracDigit | InNumberFrac | SawExp | NeedExpDigit | InExp => Some(Number)
    case SawPercent | InDateLit | InMilestoneLit => Some(Date)
    case InStrLit(_) => Some(Str)
    case _ => None
  }

  /** Close `top` when `b` is its matching closer. */
  function Close(top: Option<Frame>, b: byte): Step {
    if top == Some(Paren) && b == RPAREN then Pop(AfterValue)
    else if top == Some(Bracket) && b == RBRACKET then Pop(AfterValue)
    else if (top == Some(Brace) || top == Some(BraceLambda)) && b == RBRACE then Pop(AfterValue)
    else Dead
  }

  /** The shared body of the two value hubs; a closer is legal only when a term is optional. */
  function ValuePosition(top: Option<Frame>, b: byte, allowClose: bool): Step {
    if IsWs(b) then Next(if allowClose then ExpectValue else ExpectValueReq)
    else if IsIdentStart(b) then Next(InIdent)
    else if IsDigit(b) then Next(InNumberInt)
    else if b == DASH then Next(SawNumSign)
    else if b == DOT then Next(NeedFracDigit)
    else if b == QUOTE then Next(InStrLit(false))
    else if b == PERCENT then Next(SawPercent)
    else if b == DOLLAR then Next(AfterDollar)
    else if b == TILDE then Next(SawTilde)
    else if b == LPAREN then Push(Paren, ExpectValue)
    else if b == LBRACKET then Push(Bracket, ExpectValue)
    else if b == LBRACE then Push(BraceLambda, ExpectBraceBinder)
    else if b == PIPE then Next(ExpectValueReq)
    else if b == BANG then Next(ExpectValueReq)
    else if b == STAR && allowClose && top == Some(Bracket) then Next(InMultiplicity)
    else if IsCloser(b) && allowClose then Close(top, b)
    else Dead
  }

  /** The shared body of the two block-statement states; only the one after a `;` may close. */
  function BlockStatement(top: Option<Frame>, b: byte, allowClose: bool): Step {
    if IsWs(b) then Next(if allowClose then BlockStmtClose else BlockStmt)
    else if b == LOWER_L then Next(LetL)
    else if IsIdentStart(b) then Next(InSourceIdent)
    else if b == DOLLAR then Next(AfterDollar)
    else if b == RBRACE && allowClose then Close(top, b)
    else Dead
  }

  function AfterValueStep(top: Option<Frame>, b: byte): Step {
    if IsWs(b) then Next(AfterValue)
    else if b == DASH then Next(SawDash)
    else if b == GT then Next(SawGt)
    else if b == LT then Next(SawLt)
    else if b == EQUALS then Next(SawEq)
    else if b == BANG then Next(SawBang)
    else if b == AMP then Next(SawAmp)
    else if b == PIPE then Next(SawPipe)
    else if b == PLUS || b == STAR || b == SLASH then Next(ExpectValueReq)
    else if b == DOT then Next(AfterDot)
    else if b == COLON then Next(AfterColon)
    else if b == LPAREN then Push(Paren, ExpectValue)
    else if b == LBRACKET then Push(Bracket, ExpectValue)
    else if b == COMMA && top.Some? then Next(ExpectValueReq)
    else if b == SEMI && top == Some(Brace) then Next(BlockStmtClose)
    else if IsCloser(b) then Close(top, b)
    else Dead
  }

  function SourceIdentStep(b: byte): Step {
    if IsIdentTail(b) then Next(InSourceIdent)
    else if b == DOT then Next(AfterDot)
    else if b == DASH then Next(SourceDash)
    else if b == COLON then Next(SourceColon)
    else Dead
  }

  /** A hub that skips whitespace in place and then demands an identifier. */
  function ExpectIdent(here: State, ident: State, b: byte): Step {
    if IsWs(b) then Next(here)
    else if IsIdentStart(b) then Next(ident)
    else Dead
  }

  function IfThen(cond: bool, s: State): Step {
    if cond then Next(s) else Dead
  }

  /** The pure transition function of the automaton. */
  function StepOf(s: State, top: Option<Frame>, b: byte): Step {
    match s
    case Start =>
      if IsWs(b) then Next(Start)
      else if b == PIPE then Next(ExpectSource)
      else if b == LBRACE then Push(Brace, AfterBraceOpen)
      else Dead
    case ExpectSource => ExpectIdent(ExpectSource, InSourceIdent, b)
    case AfterBraceOpen =>
      if IsWs(b) then Next(AfterBraceOpen)
      else if b == PIPE then Next(BlockStmt)
      else Dead
    case BlockStmt => BlockStatement(top, b, false)
    case BlockStmtClose => BlockStatement(top, b, true)
    case ExpectValue => ValuePosition(top, b, true)
    case ExpectValueReq => ValuePosition(top, b, false)
    case AfterValue => AfterValueStep(top, b)
    case InIdent => if IsIdentTail(b) then Next(InIdent) else AfterValueStep(top, b)
    case InSourceIdent => SourceIdentStep(b)
    case SourceColon => IfThen(b == COLON, SourceColon2)
    case SourceColon2 => IfThen(IsIdentStart(b), InSourceIdent)
    case SourceDash => IfThen(b == GT, AfterArrow)
    case LetL => if b == LOWER_E then Next(LetLe) else SourceIdentStep(b)
    case LetLe => if b == LOWER_T then Next(LetLet) else SourceIdentStep(b)
    case LetLet => if IsWs(b) then Next(ExpectBinder) else SourceIdentStep(b)
    case ExpectBinder => ExpectIdent(ExpectBinder, InBinder, b)
    case InBinder =>
      if IsIdentTail(b) then Next(InBinder)
      else if IsWs(b) then Next(AfterBinder)
      else if b == EQUALS then Next(ExpectSource)
      else Dead
    case AfterBinder =>
      if IsWs(b) then Next(AfterBinder)
      else if b == EQUALS then Next(ExpectSource)
      else Dead
    case InMultiplicity => if b == RBRACKET then Close(top, b) else Dead
    case ExpectBraceBinder => ExpectIdent(ExpectBraceBinder, InIdent, b)
    case SawNumSign =>
      if IsDigit(b) then Next(InNumberInt)
      else if b == DOT then Next(NeedFracDigit)
      else Dead
    case InNumberInt =>
      if IsDigit(b) then Next(InNumberInt)
      else if b == DOT then Next(NeedFracDigit)
      else AfterValueStep(top, b)
    case NeedFracDigit => IfThen(IsDigit(b), InNumberFrac)
    case InNumberFrac =>
      if IsDigit(b) then Next(InNumberFrac)
      else if b == LOWER_E || b == UPPER_E then Next(SawExp)
      else AfterValueStep(top, b)
    case SawExp =>
      if b == PLUS || b == DASH then Next(NeedExpDigit)
      else if IsDigit(b) then Next(InExp)
      else Dead
    case NeedExpDigit => IfThen(IsDigit(b), InExp)
    case InExp => if IsDigit(b) then Next(InExp) else AfterValueStep(top, b)
    case InStrLit(escaped) =>
      if escaped then
        if b == QUOTE then Next(InStrLit(false)) else AfterValueStep(top, b)
      else Next(InStrLit(b == QUOTE))
    case SawPercent =>
      if IsDateChar(b) then Next(InDateLit)
      else if IsLower(b) then Next(InMilestoneLit)
      else Dead
    case InDateLit => if IsDateChar(b) || b == DOT then Next(InDateLit) else AfterValueStep(top, b)
    case InMilestoneLit => if IsLower(b) then Next(InMilestoneLit) else AfterValueStep(top, b)
    case AfterDollar => IfThen(IsIdentStart(b), InIdent)
    case AfterDot => if b == QUOTE then Next(InStrLit(false)) else ExpectIdent(AfterDot, InIdent, b)
    case AfterArrow => ExpectIdent(AfterArrow, InIdent, b)
    case AfterColon =>
      if IsWs(b) then Next(AfterColonWs)
      else if b == COLON then Next(AfterColon2)
      else if IsIdentStart(b) then Next(InIdent)
      else if b == LBRACE then Push(BraceLambda, ExpectBraceBinder)
      else Dead
    case AfterColonWs =>
      if b == LBRACE then Push(BraceLambda, ExpectBraceBinder)
      else ExpectIdent(AfterColonWs, InIdent, b)
    case AfterColon2 => IfThen(IsIdentStart(b), InIdent)
    case SawDash => if b == GT then Next(AfterArrow) else ValuePosition(top, b, false)
    case SawPipe => if b == PIPE then Next(ExpectValueReq) else ValuePosition(top, b, false)
    case SawEq => IfThen(b == EQUALS, ExpectValueReq)
    case SawBang => IfThen(b == EQUALS, ExpectValueReq)
    case SawGt => if b == EQUALS then Next(ExpectValueReq) else ValuePosition(top, b, false)
    case SawLt => if b == EQUALS then Next(ExpectValueReq) else ValuePosition(top, b, false)
    case SawAmp => IfThen(b == AMP, ExpectValueReq)
    case SawTilde =>
      if b == LBRACKET then Push(Bracket, ExpectValue)
      else if b == QUOTE then Next(InStrLit(false))
      else IfThen(IsIdentStart(b), InIdent)
  }
}
