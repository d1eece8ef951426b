/** A fused `.name` token is narrowed against exactly what `.` and `name` in separate tokens would be. */
module Navigation {
  import opened Bytes
  import opened Automaton
  import opened Transitions
  import opened Runs
  import opened Model
  import opened Lexemes
  import opened Scopes
  import opened Tokenization
  import opened Lockstep
  import opened Segments
  import opened Compiled
  import opened Narrowing

  // ----- a dot or a blank at the end of a gap -----

  /** A byte no operator and no identifier of a gap absorbs. */
  predicate StandsAlone(b: byte) {
    b == DOT || IsWs(b)
  }

  lemma {:induction false} IdentRunStops(bytes: seq<byte>, b: byte)
    requires StandsAlone(b)
    ensures IdentRun(bytes + [b]) == IdentRun(bytes)
    decreases |bytes|
  {
    if bytes != [] {
      assert (bytes + [b])[1..] == bytes[1..] + [b];
      IdentRunStops(bytes[1..], b);
    }
  }

  lemma GapTokenStops(gap: seq<byte>, b: byte)
    requires gap != [] && StandsAlone(b)
    ensures GapToken(gap + [b]) == GapToken(gap)
  {
    IdentRunStops(gap, b);
  }

  function Alone(b: byte, anchor: State): seq<Event> {
    if b == DOT then [Event([DOT], anchor)] else []
  }

  lemma {:induction false} GapSnoc(gap: seq<byte>, b: byte, anchor: State)
    requires StandsAlone(b)
    ensures GapEvents(gap + [b], anchor) == GapEvents(gap, anchor) + Alone(b, anchor)
    decreases |gap|
  {
    if gap == [] {
      assert gap + [b] == [b] && [b][1..] == [] && [b][..1] == [b];
    } else {
      var n := GapToken(gap);
      GapTokenStops(gap, b);
      assert (gap + [b])[..n] == gap[..n] && (gap + [b])[n..] == gap[n..] + [b];
      GapSnoc(gap[n..], b, anchor);
    }
  }

  // ----- what a dot, and the identifier after a `$` or a dot, stand for -----

  /** The state after a dot is reached by a dot, and left in place by blanks only. */
  lemma IntoAfterDot(s: State, top: Option<Frame>, b: byte)
    requires StepOf(s, top, b) == Next(AfterDot)
    ensures b == DOT || (s == AfterDot && IsWs(b))
  {
    if OnHub(s) { HubIntoAfterDot(s, top, b); } else { OwnIntoAfterDot(s, top, b); }
  }

  lemma HubIntoAfterDot(s: State, top: Option<Frame>, b: byte)
    requires OnHub(s) && StepOf(s, top, b) == Next(AfterDot)
    ensures b == DOT
  {
  }

  lemma OwnIntoAfterDot(s: State, top: Option<Frame>, b: byte)
    requires !OnHub(s) && StepOf(s, top, b) == Next(AfterDot)
    ensures b == DOT || (s == AfterDot && IsWs(b))
  {
  }

  predicate Navigates(anchor: State) {
    anchor == AfterDollar || anchor == AfterDot
  }

  lemma NavigationStarts(s: State, top: Option<Frame>, b: byte)
    requires Navigates(s) && StepOf(s, top, b) != Dead && LexemeKind(StepOf(s, top, b).state).Some?
    ensures if LexemeKind(StepOf(s, top, b).state) == Some(Ident) then StepOf(s, top, b) == Next(InIdent) &&
            IsIdentStart(b)
            else b == QUOTE
  {
  }

  lemma NavigationGoesOn(top: Option<Frame>, b: byte)
    requires StepOf(InIdent, top, b) != Dead && LexemeKind(StepOf(InIdent, top, b).state).Some?
    ensures StepOf(InIdent, top, b) == Next(InIdent) && IsIdentTail(b)
  {
    StepTurns(InIdent, top, b);
  }

  /** A lexeme that starts like an operator has only just started. */
  lemma OperatorStarts(s: State, top: Option<Frame>, b: byte)
    requires StepOf(s, top, b) != Dead && LexemeKind(s).None? && LexemeKind(StepOf(s, top, b).state).Some?
    ensures b == DOT ==> StepOf(s, top, b).state == NeedFracDigit
    ensures b == DASH ==> StepOf(s, top, b).state == SawNumSign
  {
  }

  lemma DotClassifies(dot: seq<byte>)
    requires dot == [DOT]
    ensures Classify(dot) == DotOp
  {
    assert !IsAsciiWs(dot[0]);
  }

  lemma IdentClassifies(ident: seq<byte>)
    requires ident != [] && IsIdentStart(ident[0]) && IsUtf8(ident)
    ensures Classify(ident) == Identifier(ident)
  {
    assert !IsAsciiWs(ident[0]);
  }

  // ----- the invariant -----

  /** A column access has no class to navigate from. */
  predicate OneTarget(s: Scope) {
    s.dotIsColumn ==> s.dotBase.None?
  }

  lemma MemberKeepsOneTarget(s: Scope, text: Name, pre: State, schema: Schema)
    requires OneTarget(s)
    ensures OneTarget(OnIdent(s, text, pre, schema).0)
  {
    AnchoredKeepsOneTarget(Sourced(s, text, schema), text, pre, schema);
  }

  lemma AnchoredKeepsOneTarget(s: Scope, text: Name, pre: State, schema: Schema)
    requires OneTarget(s)
    ensures OneTarget(Anchored(s, text, pre, schema).0)
  {
  }

  lemma RestoringKeepsTargets(s: Scope)
    ensures var t := BindersRestored(s); t.dotIsColumn == s.dotIsColumn && t.dotBase == s.dotBase
    ensures var t := BodiesRestored(s); t.dotIsColumn == s.dotIsColumn && t.dotBase == s.dotBase
    decreases |s.binderSaves| + |s.scopeSaves|
  {
  }

  lemma DispatchKeepsOneTarget(s: Scope, e: Event, schema: Schema)
    requires OneTarget(s)
    ensures OneTarget(Dispatch(s, e.bytes, e.anchor, schema))
  {
    match Classify(e.bytes)
    case Identifier(text) => MemberKeepsOneTarget(s, text, e.anchor, schema);
    case CloseDelim =>
      RestoringKeepsTargets(s);
      RestoringKeepsTargets(BindersRestored(s));
    case _ =>
  }

  lemma {:induction false} RunKeepsOneTarget(s: Scope, events: seq<Event>, schema: Schema)
    requires OneTarget(s)
    ensures OneTarget(DispatchAll(s, events, schema))
    decreases |events|
  {
    if events != [] {
      DispatchKeepsOneTarget(s, events[0], schema);
      RunKeepsOneTarget(Dispatch(s, events[0].bytes, events[0].anchor, schema), events[1..], schema);
    }
  }

  /** An open lexeme is no operator, and after a `$` or a dot it is an identifier or a string. */
  predicate LexemeFits(anchor: State, state: State, seg: seq<byte>) {
    LexemeKind(state).Some? ==>
      && seg != [] && seg != [DASH, GT]
      && (seg == [DOT] ==> state == NeedFracDigit)
      && (seg == [DASH] ==> state == SawNumSign)
      && (Navigates(anchor) ==>
            if LexemeKind(state) == Some(Ident) then state == InIdent && IsIdent(seg) else seg[0] == QUOTE)
  }

  predicate Dotted(anchor: State, state: State) {
    state == AfterDot || (LexemeKind(state).Some? && anchor == AfterDot)
  }

  /** Past a dot no variable use is left waiting for one. */
  ghost predicate Steers(s: Scope, c: Config) {
    && OneTarget(s)
    && (Dotted(if s.pending.Some? then s.pending.value.anchor else c.state, c.state) ==> s.pendingRefvar.None?)
    && (s.pending.Some? ==> LexemeFits(s.pending.value.anchor, c.state, s.pending.value.buf))
  }

  ghost predicate LexingSteers(s: Scope, l: Lexing, schema: Schema) {
    && (Dotted(l.anchor, l.config.state) ==> DispatchAll(s, Flushed(l), schema).pendingRefvar.None?)
    && LexemeFits(l.anchor, l.config.state, l.seg)
  }

  lemma LengthenedFits(anchor: State, s: State, top: Option<Frame>, b: byte, seg: seq<byte>)
    requires LexemeFits(anchor, s, seg) && LexemeKind(s).Some?
    requires StepOf(s, top, b) != Dead && LexemeKind(StepOf(s, top, b).state) == LexemeKind(s)
    ensures LexemeFits(anchor, StepOf(s, top, b).state, seg + [b])
  {
    var longer := seg + [b];
    assert longer[..|seg|] == seg && longer[|seg|] == b;
    if Navigates(anchor) && LexemeKind(s) == Some(Ident) { NavigationGoesOn(top, b); }
  }

  lemma FedFitsLexeme(l: Lexing, b: byte)
    requires LexemeFits(l.anchor, l.config.state, l.seg) && Advanced(l.config, b).Some?
    ensures LexemeFits(Fed(l, b).anchor, Fed(l, b).config.state, Fed(l, b).seg)
  {
    var s, top := l.config.state, Top(l.config.stack);
    var t := StepOf(s, top, b).state;
    if LexemeKind(t).Some? {
      StepTurns(s, top, b);
      if LexemeKind(s).Some? {
        LengthenedFits(l.anchor, s, top, b, l.seg);
      } else {
        OperatorStarts(s, top, b);
        if Navigates(s) { NavigationStarts(s, top, b); }
      }
    }
  }

  lemma DotSettles(s: Scope, events: seq<Event>, anchor: State, schema: Schema)
    ensures DispatchAll(s, events + [Event([DOT], anchor)], schema).pendingRefvar.None?
  {
    DispatchAllConcat(s, events, [Event([DOT], anchor)], schema);
    DotClassifies([DOT]);
    DispatchOne(DispatchAll(s, events, schema), Event([DOT], anchor), schema);
  }

  lemma LoneDot(anchor: State)
    ensures GapEvents([DOT], anchor) == [Event([DOT], anchor)]
  {
    GapSnoc([], DOT, anchor);
    assert [] + [DOT] == [DOT];
  }

  /** A dot that closes a lexeme. */
  lemma DotClosesLexeme(l: Lexing)
    requires Advanced(l.config, DOT).Some? && LexemeKind(l.config.state).Some?
    requires LexemeKind(Advanced(l.config, DOT).value.state).None?
    ensures Flushed(Fed(l, DOT)) == l.events + [Event(l.seg, l.anchor)] + [Event([DOT], l.config.state)]
  {
    LoneDot(l.config.state);
  }

  /** A dot or a blank that extends a gap. */
  lemma StandsAfterGap(l: Lexing, b: byte)
    requires Advanced(l.config, b).Some? && StandsAlone(b)
    requires LexemeKind(l.config.state).None? && LexemeKind(Advanced(l.config, b).value.state).None?
    ensures Flushed(Fed(l, b)) == Flushed(l) + Alone(b, l.anchor)
  {
    GapSnoc(l.seg, b, l.anchor);
    assert l.events + (GapEvents(l.seg, l.anchor) + Alone(b, l.anchor))
        == l.events + GapEvents(l.seg, l.anchor) + Alone(b, l.anchor);
  }

  lemma FedIntoAfterDot(s: Scope, l: Lexing, b: byte, schema: Schema)
    requires l.config.state == AfterDot ==> DispatchAll(s, Flushed(l), schema).pendingRefvar.None?
    requires Advanced(l.config, b).Some? && Advanced(l.config, b).value.state == AfterDot
    ensures DispatchAll(s, Flushed(Fed(l, b)), schema).pendingRefvar.None?
  {
    StepMoves(l.config.state, Top(l.config.stack), b);
    IntoAfterDot(l.config.state, Top(l.config.stack), b);
    if LexemeKind(l.config.state).Some? {
      DotClosesLexeme(l);
      DotSettles(s, l.events + [Event(l.seg, l.anchor)], l.config.state, schema);
    } else {
      StandsAfterGap(l, b);
      if b == DOT {
        DotSettles(s, Flushed(l), l.anchor, schema);
      } else {
        assert Flushed(l) + [] == Flushed(l);
      }
    }
  }

  lemma FedSteers(s: Scope, l: Lexing, b: byte, schema: Schema)
    requires LexingSteers(s, l, schema) && Advanced(l.config, b).Some?
    ensures LexingSteers(s, Fed(l, b), schema)
  {
    FedFitsLexeme(l, b);
    if Advanced(l.config, b).value.state == AfterDot {
      FedIntoAfterDot(s, l, b, schema);
    }
  }

  lemma {:induction false} FedAllSteers(s: Scope, l: Lexing, bytes: seq<byte>, schema: Schema)
    requires LexingSteers(s, l, schema) && Run(l.config, bytes).Some?
    ensures LexingSteers(s, FedAll(l, bytes), schema)
    decreases |bytes|
  {
    if bytes != [] {
      FedSteers(s, l, bytes[0], schema);
      FedAllSteers(s, Fed(l, bytes[0]), bytes[1..], schema);
    }
  }

  /** Every token keeps the invariant. */
  lemma ObservedSteers(s: Scope, c: Config, bytes: seq<byte>, schema: Schema)
    requires InStep(s, c) && Steers(s, c) && Run(c, bytes).Some?
    ensures Steers(Observed(s, c, bytes, schema), Run(c, bytes).value)
  {
    var bare := s.(pending := None);
    FedAllSteers(bare, Resumed(s.pending, c), bytes, schema);
    RunKeepsOneTarget(bare, Flushed(Lexed(s, c, bytes)), schema);
    ObservedFields(s, c, bytes, schema);
    if Continues(s.pending, c) { NoEventsSameLexeme(Resumed(s.pending, c), bytes); }
  }

  lemma {:induction false} RunsSteer(s: Scope, c: Config, tokens: seq<seq<byte>>, schema: Schema)
    requires Locked(s, c) && Steers(s, c) && RunTokens(c, tokens).Some?
    ensures Steers(ObservedAll(s, c, tokens, schema), RunTokens(c, tokens).value)
    decreases |tokens|
  {
    if tokens != [] {
      ObservedSteers(s, c, tokens[0], schema);
      ObservedKeepsLocked(s, c, tokens[0], schema);
      RunsSteer(Observed(s, c, tokens[0], schema), Run(c, tokens[0]).value, tokens[1..], schema);
    }
  }

  lemma EveryRunSteers(tokens: seq<seq<byte>>, schema: Schema)
    requires RunTokens(INITIAL, tokens).Some?
    ensures Steers(ObservedAll(FRESH, INITIAL, tokens, schema), RunTokens(INITIAL, tokens).value)
  {
    RunsSteer(FRESH, INITIAL, tokens, schema);
  }

  // ----- the dot -----

  /** Where a dot that reads this scope leads. */
  function DotTarget(t: Scope): L2Position {
    OpeningPosition(OnDot(t), AfterDot)
  }

  function TargetOr(target: Option<L2Position>): L2Position {
    match target case Some(pos) => pos case None => Unconstrained
  }

  lemma DotReadsVariable(t: Scope, v: Name)
    requires t.pendingRefvar == Some(v)
    ensures DotTarget(t) == TargetOr(NavFromVar(t, v))
  {
  }

  lemma DotReadsCursor(t: Scope)
    requires t.pendingRefvar.None?
    ensures DotTarget(t) == match t.navCursor case Some(c) => Member(c) case None => Unconstrained
  {
  }

  /** What is left for a dot to read when the open lexeme says nothing about it. */
  function LeftOver(s: Scope): Option<L2Position> {
    match s.pendingRefvar
    case Some(v) => NavFromVar(s, v)
    case None => match s.navCursor case Some(c) => Some(Member(c)) case None => None
  }

  lemma DotReadsLeftOver(s: Scope, t: Scope)
    requires SameTargets(s, t)
    ensures DotTarget(t) == TargetOr(LeftOver(s))
  {
    if t.pendingRefvar.Some? { DotReadsVariable(t, t.pendingRefvar.value); } else { DotReadsCursor(t); }
  }

  /** The target the fused pass does not see: an open lexeme that does not navigate, or a member step with no
      class to navigate from, behind which a dot still reads an earlier variable or an earlier navigation. */
  function StaleTarget(s: Scope): Option<L2Position> {
    match s.pending
    case None => None
    case Some(p) =>
      if p.kind == Ident && p.anchor == AfterDollar then None
      else if p.kind == Ident && p.anchor == AfterDot && (s.dotIsColumn || s.dotBase.Some?) then None
      else LeftOver(s)
  }

  lemma IdentIsIdentifier(bytes: seq<byte>)
    requires IsIdent(bytes)
    ensures IsUtf8(bytes) && Classify(bytes) == Identifier(bytes)
  {
    AsciiIsUtf8(bytes);
    IdentClassifies(bytes);
  }

  lemma VariableClosed(s: Scope, v: Name, schema: Schema)
    requires IsIdent(v)
    ensures var t := Dispatch(s, v, AfterDollar, schema);
            && t.pendingRefvar == Some(v) && t.emitted == s.emitted
            && t.relationRowVars == s.relationRowVars && t.varClass == s.varClass
  {
    IdentIsIdentifier(v);
  }

  /** A member step moves the cursor to the class it resolves to, or ends the navigation. */
  lemma MemberClosed(s: Scope, member: Name, schema: Schema)
    requires IsIdent(member) && OneTarget(s)
    ensures var t := Dispatch(s, member, AfterDot, schema);
            && t.pendingRefvar == s.pendingRefvar && t.emitted == s.emitted
            && t.varClass == s.varClass && t.relationRowVars == s.relationRowVars
            && t.navCursor == CursorBehind(s, member, schema)
  {
    IdentIsIdentifier(member);
    var moved, now := MemberRead(s, member, schema);
    assert Dispatch(s, member, AfterDot, schema) == moved.(lastIdent := Some(member), lastResolved := now,
             cmpPending := None);
    MemberFollowed(Sourced(s, member, schema), member, schema);
  }

  lemma MemberRead(s: Scope, member: Name, schema: Schema) returns (moved: Scope, now: Option<TypeClass>)
    ensures (moved, now) == Anchored(Sourced(s, member, schema), member, AfterDot, schema)
    ensures OnIdent(s, member, AfterDot, schema) == (moved.(lastIdent := Some(member)), now)
  {
    moved, now := Anchored(Sourced(s, member, schema), member, AfterDot, schema).0,
      Anchored(Sourced(s, member, schema), member, AfterDot, schema).1;
    assert ColumnNamed(moved, member, AfterDot) == moved;
  }

  /** Where a member step leaves the navigation. */
  ghost function CursorBehind(s: Scope, member: Name, schema: Schema): Option<Name> {
    if s.dotIsColumn || s.dotBase.Some? then MemberCursor(s, member, schema) else s.navCursor
  }

  ghost function MemberCursor(s: Scope, member: Name, schema: Schema): Option<Name> {
    match NavFromMember(s, member, schema) case Some(Member(c)) => Some(c) case _ => None
  }

  lemma MemberFollowed(s: Scope, member: Name, schema: Schema)
    requires OneTarget(s)
    ensures var t := Anchored(s, member, AfterDot, schema).0;
            && t.pendingRefvar == s.pendingRefvar && t.emitted == s.emitted
            && t.varClass == s.varClass && t.relationRowVars == s.relationRowVars
            && t.navCursor == CursorBehind(s, member, schema)
  {
  }

  /** The fields a dot reads. */
  predicate SameTargets(s: Scope, t: Scope) {
    && t.pendingRefvar == s.pendingRefvar && t.navCursor == s.navCursor
    && t.varClass == s.varClass && t.relationRowVars == s.relationRowVars
  }

  lemma IdentKeepsTargets(s: Scope, text: Name, anchor: State, schema: Schema)
    requires !Navigates(anchor)
    ensures SameTargets(s, OnIdent(s, text, anchor, schema).0)
  {
    AnchoredKeepsTargets(Sourced(s, text, schema), text, anchor, schema);
  }

  lemma AnchoredKeepsTargets(s: Scope, text: Name, anchor: State, schema: Schema)
    requires !Navigates(anchor)
    ensures SameTargets(s, Anchored(s, text, anchor, schema).0)
  {
  }

  predicate ReadsNoTarget(lex: Lexeme, anchor: State) {
    && !lex.OpenDelim? && !lex.CloseDelim? && !lex.PipeOp? && !lex.DotOp? && !lex.ArrowOp?
    && (lex.Identifier? ==> !Navigates(anchor))
  }

  lemma OtherActed(s: Scope, lex: Lexeme, anchor: State, schema: Schema)
    requires ReadsNoTarget(lex, anchor)
    ensures SameTargets(s, Acted(s, lex, anchor, schema).0)
  {
    match lex
    case Identifier(text) => IdentKeepsTargets(s, text, anchor, schema);
    case _ =>
  }

  lemma OtherClassified(bytes: seq<byte>, anchor: State)
    requires OpensPlainly(bytes) && bytes != [DOT] && bytes != [DASH, GT]
    requires Navigates(anchor) ==> bytes[0] == QUOTE
    ensures ReadsNoTarget(Classify(bytes), anchor)
  {
    ClassifiedDelimiter(bytes);
    ClassifiedOperator(bytes);
  }

  /** Any other lexeme leaves what a dot reads alone. */
  lemma OtherClosed(s: Scope, bytes: seq<byte>, anchor: State, schema: Schema)
    requires ReadsNoTarget(Classify(bytes), anchor)
    ensures SameTargets(s, Dispatch(s, bytes, anchor, schema))
  {
    OtherActed(s, Classify(bytes), anchor, schema);
  }

  lemma ClassifiedOperator(bytes: seq<byte>)
    ensures Classify(bytes).PipeOp? ==> bytes == [PIPE]
    ensures Classify(bytes).DotOp? ==> bytes == [DOT]
    ensures Classify(bytes).ArrowOp? ==> bytes == [DASH, GT]
    ensures Classify(bytes).Identifier? ==> bytes != [] && IsIdentStart(bytes[0])
  {
  }

  /** Where a dot leads, from what the tracker knows before it. */
  ghost function TargetAhead(s: Scope, schema: Schema): L2Position {
    match FusedNavPosition(s, schema) case Some(pos) => pos case None => TargetOr(StaleTarget(s))
  }

  ghost predicate LeadsAhead(s: Scope, t: Scope, schema: Schema) {
    && DotTarget(t) == TargetAhead(s, schema)
    && (FusedNavPosition(s, schema).Some? ==> StaleTarget(s).None? && t.emitted == s.emitted)
  }

  lemma SettledVariable(s: Scope, p: Pending, schema: Schema)
    requires s.pending == Some(p) && p.kind == Ident && p.anchor == AfterDollar && IsIdent(p.buf)
    ensures LeadsAhead(s, Dispatch(s.(pending := None), p.buf, p.anchor, schema), schema)
  {
    var bare := s.(pending := None);
    VariableClosed(bare, p.buf, schema);
    IdentIsIdentifier(p.buf);
    DotReadsVariable(Dispatch(bare, p.buf, p.anchor, schema), p.buf);
  }

  lemma SettledMember(s: Scope, p: Pending, schema: Schema)
    requires s.pending == Some(p) && p.kind == Ident && p.anchor == AfterDot && IsIdent(p.buf)
    requires OneTarget(s) && s.pendingRefvar.None?
    ensures LeadsAhead(s, Dispatch(s.(pending := None), p.buf, p.anchor, schema), schema)
  {
    var bare := s.(pending := None);
    MemberClosed(bare, p.buf, schema);
    IdentIsIdentifier(p.buf);
    DotReadsCursor(Dispatch(bare, p.buf, p.anchor, schema));
  }

  lemma SettledOther(s: Scope, p: Pending, schema: Schema)
    requires s.pending == Some(p) && (p.kind == Ident ==> !Navigates(p.anchor))
    requires OpensPlainly(p.buf) && p.buf != [DOT] && p.buf != [DASH, GT]
    requires Navigates(p.anchor) ==> p.buf[0] == QUOTE
    ensures LeadsAhead(s, Dispatch(s.(pending := None), p.buf, p.anchor, schema), schema)
  {
    var bare := s.(pending := None);
    OtherClassified(p.buf, p.anchor);
    OtherClosed(bare, p.buf, p.anchor, schema);
    DotReadsLeftOver(s, Dispatch(bare, p.buf, p.anchor, schema));
  }

  /** Closing the open lexeme leaves the dot the fused target, or what is stale, or nothing. */
  lemma SettledTarget(s: Scope, c: Config, schema: Schema)
    requires Locked(s, c) && Steers(s, c) && c.state != NeedFracDigit
    ensures LeadsAhead(s, Settled(s, schema), schema)
  {
    match s.pending
    case Some(p) =>
      if p.kind == Ident && p.anchor == AfterDollar {
        SettledVariable(s, p, schema);
      } else if p.kind == Ident && p.anchor == AfterDot {
        SettledMember(s, p, schema);
      } else {
        SettledOther(s, p, schema);
      }
    case None =>
      DotReadsLeftOver(s, s);
  }

  lemma DotDispatched(u: Scope, dot: seq<byte>, pre: State, schema: Schema)
    requires dot == [DOT]
    ensures var t := Dispatch(u, dot, pre, schema);
            t.emitted == u.emitted && OpeningPosition(t, AfterDot) == DotTarget(u)
  {
    DotClassifies(dot);
  }

  /** Where a dot read as a token of its own leads: to the fused target when there is one, else to the stale
      target, and to no constraint exactly when there is neither. */
  lemma DotLeads(s: Scope, c: Config, schema: Schema)
    requires Locked(s, c) && Steers(s, c) && Advanced(c, DOT) == Some(Config(AfterDot, c.stack))
    ensures Run(c, [DOT]) == Some(Config(AfterDot, c.stack))
    ensures var t := Observed(s, c, [DOT], schema);
            && NarrowPrefix(t) == []
            && Position(t, AfterDot) == TargetAhead(s, schema)
            && (FusedNavPosition(s, schema).Some? ==> StaleTarget(s).None? && t.emitted == s.emitted)
  {
    var mid := Config(AfterDot, c.stack);
    assert [DOT][1..] == [];
    assert StaysInGap(mid, []);
    assert StaysInGap(c, [DOT]);
    assert Run(mid, []) == Some(mid);
    GapObserved(s, c, [DOT], schema);
    LoneDot(c.state);
    DispatchOne(Settled(s, schema), Event([DOT], c.state), schema);
    ObservedInStep(s, c, [DOT], schema);
    SettledTarget(s, c, schema);
    DotDispatched(Settled(s, schema), [DOT], c.state, schema);
  }

  /** Behind its dot a fused identifier is judged as the identifier alone. */
  lemma FusedIsJudgedAlone(names: set<Name>, fused: seq<byte>, split: seq<byte>)
    requires split != [] && IsIdentStart(split[0]) && fused == [DOT] + split
    ensures FusedKeeps(names, fused) <==> Keeps(names, [], IdentRule, split)
  {
    assert fused[1..] == split;
  }

  /** The second pass keeps the token: there is no fused target, or it is in the fused set. */
  ghost predicate FusedKept(s: Scope, schema: Schema, vocab: Vocab, id: nat) {
    match FusedNavPosition(s, schema)
    case None => true
    case Some(pos) =>
      var kept := FusedSet(pos, s.emitted, schema, vocab);
      kept.Some? ==> id in kept.value
  }

  /** The first pass keeps the token at this state. */
  ghost predicate Kept(s: Scope, state: State, schema: Schema, vocab: Vocab, id: nat) {
    var kept := NarrowSet(Position(s, state), NarrowPrefix(s), s.emitted, schema, vocab);
    kept.Some? ==> id in kept.value
  }

  lemma StaleIsNavigation(s: Scope)
    ensures StaleTarget(s).Some? ==> StaleTarget(s).value.Member? || StaleTarget(s).value.RelationColumn?
  {
  }

  lemma FreshlyKept(s: Scope, state: State, schema: Schema, vocab: Vocab, id: nat)
    requires NarrowPrefix(s) == [] && id < vocab.Len()
    requires Position(s, state).Member? || Position(s, state).RelationColumn? || Position(s, state).Unconstrained?
    ensures var pos := Position(s, state);
            Kept(s, state, schema, vocab, id)
            <==> pos.Unconstrained? || Keeps(LegalNames(pos, s.emitted, schema), [], IdentRule, vocab.tokens[id])
  {
  }

  lemma FusedIsNavigation(s: Scope, schema: Schema)
    ensures var pos := FusedNavPosition(s, schema); pos.Some? ==> pos.value.Member? || pos.value.RelationColumn?
  {
  }

  /** An identifier that no name has. */
  ghost predicate Strays(names: set<Name>, ident: seq<byte>) {
    !Keeps(names, [], IdentRule, ident)
  }

  /** Exactly when fusing the dot matters: the fused `.name` is kept and `name` after a dot of its own is
      cleared when, and only when, the dot reads a stale target that has no such name. */
  lemma FusionMattersIffStale(s: Scope, c: Config, schema: Schema, vocab: Vocab, fused: nat, split: nat)
    requires Locked(s, c) && Steers(s, c) && Advanced(c, DOT) == Some(Config(AfterDot, c.stack))
    requires fused < vocab.Len() && split < vocab.Len()
    requires vocab.tokens[split] != [] && IsIdentStart(vocab.tokens[split][0])
    requires vocab.tokens[fused] == [DOT] + vocab.tokens[split]
    ensures Run(c, [DOT]) == Some(Config(AfterDot, c.stack))
    ensures var t := Observed(s, c, [DOT], schema);
            var stale := StaleTarget(s);
            && (Kept(t, AfterDot, schema, vocab, split) ==> FusedKept(s, schema, vocab, fused))
            && (FusedKept(s, schema, vocab, fused) && !Kept(t, AfterDot, schema, vocab, split)
                <==> stale.Some? && Strays(LegalNames(stale.value, t.emitted, schema), vocab.tokens[split]))
  {
    DotLeads(s, c, schema);
    FusedIsNavigation(s, schema);
    StaleIsNavigation(s);
    var t := Observed(s, c, [DOT], schema);
    FreshlyKept(t, AfterDot, schema, vocab, split);
    match FusedNavPosition(s, schema)
    case Some(pos) =>
      FusedIsJudgedAlone(LegalNames(pos, s.emitted, schema), vocab.tokens[fused], vocab.tokens[split]);
    case None =>
  }
}
