/** Runs on which a dot reads what an earlier navigation left behind. */
module StaleDots {
  import opened Bytes
  import opened Automaton
  import opened Runs
  import opened Model
  import opened Compiled
  import opened Lexemes
  import opened Scopes
  import opened Tokenization
  import opened Lockstep
  import opened Segments
  import GapCuts
  import opened Narrowing
  import opened Navigation
  import opened Lambdas
  import opened Sessions
  import opened DotMasks

  const CLASS: Name := [UPPER_C]
  const METHOD: Name := [LOWER_F]
  const BINDER: Name := [LOWER_X]
  const OPERAND: Name := [LOWER_Y]
  const ROLE: Name := [LOWER_A]
  const OTHER: Name := [UPPER_E]
  const LONE_L: Name := [LOWER_L]

  /** A token run, where it leads, and what the tracker holds there. */
  datatype Point = Point(tokens: seq<seq<byte>>, scope: Scope, config: Config)

  ghost predicate Stands(p: Point, schema: Schema) {
    LeadsTo(p.tokens, p.scope, p.config, schema) && InStep(p.scope, p.config)
  }

  /** A gap token that is one lexeme. */
  ghost predicate SignLeads(c: Config, sign: seq<byte>, end: Config) {
    && sign != [] && StaysInGap(c, sign) && Run(c, sign) == Some(end)
    && GapEvents(sign, c.state) == [Event(sign, c.state)]
  }

  /** A gap token of one lexeme, read from `state` behind an open lexeme or none. */
  lemma SignRead(p: Point, sign: seq<byte>, end: Config, schema: Schema) returns (q: Point)
    requires Stands(p, schema) && SignLeads(p.config, sign, end)
    ensures Stands(q, schema) && q.tokens == p.tokens + [sign] && q.config == end && q.scope.pending.None?
    ensures q.scope == Dispatch(Settled(p.scope, schema), sign, p.config.state, schema)
  {
    GapObserved(p.scope, p.config, sign, schema);
    DispatchOne(Settled(p.scope, schema), Event(sign, p.config.state), schema);
    LeadsOn(p.tokens, p.scope, p.config, sign, schema);
    ObservedInStep(p.scope, p.config, sign, schema);
    DispatchKeepsPending(Settled(p.scope, schema), sign, p.config.state, schema);
    q := Point(p.tokens + [sign], Observed(p.scope, p.config, sign, schema), end);
  }

  predicate NameLeads(c: Config, name: Name, end: State) {
    && |name| == 1 && Advanced(c, name[0]) == Some(Config(end, c.stack)) && LexemeKind(end) == Some(Ident)
  }

  /** The stack inside the call. */
  function Inside(base: seq<Frame>): seq<Frame> {
    base + [Paren]
  }

  lemma SourceNamesRead(base: seq<Frame>)
    ensures NameLeads(Config(ExpectSource, base), CLASS, InSourceIdent)
    ensures NameLeads(Config(BlockStmt, base), CLASS, InSourceIdent)
    ensures NameLeads(Config(BlockStmtClose, base), OTHER, InSourceIdent)
    ensures NameLeads(Config(AfterArrow, base), METHOD, InIdent)
  {
  }

  lemma BodyNames(stack: seq<Frame>)
    ensures NameLeads(Config(ExpectValue, stack), BINDER, InIdent)
    ensures NameLeads(Config(AfterDollar, stack), BINDER, InIdent)
    ensures NameLeads(Config(AfterDot, stack), ROLE, InIdent)
    ensures NameLeads(Config(ExpectValueReq, stack), OPERAND, InIdent)
  {
  }

  /** A one-byte identifier. */
  lemma NameRead(p: Point, name: Name, end: State, schema: Schema) returns (q: Point)
    requires Stands(p, schema) && p.scope.pending.None? && NameLeads(p.config, name, end)
    ensures Stands(q, schema) && q.tokens == p.tokens + [name] && q.config == Config(end, p.config.stack)
    ensures q.scope == p.scope.(pending := Some(Pending(Ident, name, p.config.state, Stamp(p.scope, p.config.state))))
    ensures Settled(q.scope, schema) == Dispatch(p.scope, name, p.config.state, schema)
  {
    var next := Config(end, p.config.stack);
    assert name[1..] == [];
    assert StaysInLexeme(Ident, next, []);
    assert StaysInLexeme(Ident, p.config, name);
    assert Run(next, []) == Some(next);
    LexemeOpened(Ident, p.scope, p.config, name, schema);
    LeadsOn(p.tokens, p.scope, p.config, name, schema);
    ObservedInStep(p.scope, p.config, name, schema);
    q := Point(p.tokens + [name], Observed(p.scope, p.config, name, schema), next);
    assert q.scope.(pending := None) == p.scope;
  }

  lemma OneByteSign(c: Config, sign: seq<byte>, end: Config)
    requires |sign| == 1 && !IsAsciiWs(sign[0])
    requires Advanced(c, sign[0]) == Some(end) && LexemeKind(end.state).None?
    ensures SignLeads(c, sign, end)
  {
    assert sign[1..] == [] && sign[..1] == sign;
    if IsIdentStart(sign[0]) { GapCuts.TailBytes(sign[0]); }
    assert StaysInGap(end, []) && Run(end, []) == Some(end);
  }

  lemma ArrowSign(c: Config, sign: seq<byte>)
    requires c.state == InSourceIdent && sign == [DASH, GT]
    ensures SignLeads(c, sign, Config(AfterArrow, c.stack))
  {
    var mid, end := Config(SourceDash, c.stack), Config(AfterArrow, c.stack);
    assert Advanced(c, sign[0]) == Some(mid) && Advanced(mid, sign[1]) == Some(end);
    assert sign[1..] == [GT] && sign[1..][1..] == [] && sign[..2] == sign && sign[2..] == [];
    assert StaysInGap(end, []) && Run(end, []) == Some(end);
    assert StaysInGap(mid, sign[1..]) && Run(mid, sign[1..]) == Some(end);
  }

  lemma OpeningSigns()
    ensures SignLeads(INITIAL, [PIPE], Config(ExpectSource, []))
    ensures SignLeads(INITIAL, [LBRACE], Config(AfterBraceOpen, [Brace]))
    ensures SignLeads(Config(AfterBraceOpen, [Brace]), [PIPE], Config(BlockStmt, [Brace]))
  {
    assert [] + [Brace] == [Brace];
    OneByteSign(INITIAL, [PIPE], Config(ExpectSource, []));
    OneByteSign(INITIAL, [LBRACE], Config(AfterBraceOpen, [Brace]));
    OneByteSign(Config(AfterBraceOpen, [Brace]), [PIPE], Config(BlockStmt, [Brace]));
  }

  lemma ParenSigns(base: seq<Frame>)
    ensures SignLeads(Config(InIdent, base), [LPAREN], Config(ExpectValue, Inside(base)))
    ensures SignLeads(Config(InIdent, Inside(base)), [RPAREN], Config(AfterValue, base))
  {
    assert Top(Inside(base)) == Some(Paren) && DropLast(Inside(base)) == base;
    OneByteSign(Config(InIdent, base), [LPAREN], Config(ExpectValue, Inside(base)));
    OneByteSign(Config(InIdent, Inside(base)), [RPAREN], Config(AfterValue, base));
  }

  lemma ValueSigns(stack: seq<Frame>)
    ensures SignLeads(Config(InIdent, stack), [PIPE], Config(SawPipe, stack))
    ensures SignLeads(Config(SawPipe, stack), [DOLLAR], Config(AfterDollar, stack))
  {
    OneByteSign(Config(InIdent, stack), [PIPE], Config(SawPipe, stack));
    OneByteSign(Config(SawPipe, stack), [DOLLAR], Config(AfterDollar, stack));
  }

  lemma OperatorSigns(stack: seq<Frame>)
    ensures SignLeads(Config(InIdent, stack), [PLUS], Config(ExpectValueReq, stack))
    ensures SignLeads(Config(InIdent, stack), [DOT], Config(AfterDot, stack))
  {
    OneByteSign(Config(InIdent, stack), [PLUS], Config(ExpectValueReq, stack));
    OneByteSign(Config(InIdent, stack), [DOT], Config(AfterDot, stack));
  }

  lemma BlockSigns()
    ensures SignLeads(Config(AfterValue, [Brace]), [SEMI], Config(BlockStmtClose, [Brace]))
    ensures SignLeads(Config(BlockStmtClose, [Brace]), LONE_L, Config(LetL, [Brace]))
  {
    OneByteSign(Config(AfterValue, [Brace]), [SEMI], Config(BlockStmtClose, [Brace]));
    OneByteSign(Config(BlockStmtClose, [Brace]), LONE_L, Config(LetL, [Brace]));
  }

  // ----- the call -----

  lemma PipeKeepsNavClass(s: Scope, pre: State, schema: Schema)
    ensures Dispatch(s, [PIPE], pre, schema).lastNavClass == s.lastNavClass
  {
    SignsClassify([DASH, GT], [LPAREN], [PIPE], [DOLLAR]);
    BindingKeepsNavClass(s, pre);
  }

  lemma BindingKeepsNavClass(s: Scope, pre: State)
    ensures OnPipe(s, pre).lastNavClass == s.lastNavClass
  {
  }

  lemma BraceKeepsNavClass(s: Scope, brace: seq<byte>, pre: State, schema: Schema)
    requires brace == [LBRACE]
    ensures Dispatch(s, brace, pre, schema).lastNavClass == s.lastNavClass
  {
    GapCuts.OpenerClassifies(brace);
  }

  /** `|` */
  lemma QueryOpened(schema: Schema) returns (p: Point)
    ensures Stands(p, schema) && p.tokens == [[PIPE]] && p.config == Config(ExpectSource, [])
    ensures p.scope.pending.None? && p.scope.lastNavClass.None?
  {
    OpeningSigns();
    p := SignRead(Point([], FRESH, INITIAL), [PIPE], Config(ExpectSource, []), schema);
    PipeKeepsNavClass(FRESH, Start, schema);
  }

  /** `{` */
  lemma BraceRead(schema: Schema) returns (p: Point)
    ensures Stands(p, schema) && p.tokens == [[LBRACE]] && p.config == Config(AfterBraceOpen, [Brace])
    ensures p.scope.pending.None? && p.scope.lastNavClass.None?
  {
    OpeningSigns();
    p := SignRead(Point([], FRESH, INITIAL), [LBRACE], Config(AfterBraceOpen, [Brace]), schema);
    BraceKeepsNavClass(FRESH, [LBRACE], Start, schema);
  }

  /** `{|` */
  lemma BlockOpened(schema: Schema) returns (p: Point)
    ensures Stands(p, schema) && p.tokens == [[LBRACE]] + [[PIPE]] && p.config == Config(BlockStmt, [Brace])
    ensures p.scope.pending.None? && p.scope.lastNavClass.None?
  {
    var open := BraceRead(schema);
    OpeningSigns();
    p := SignRead(open, [PIPE], Config(BlockStmt, [Brace]), schema);
    PipeKeepsNavClass(open.scope, AfterBraceOpen, schema);
  }

  lemma ClassHeads(s: Scope, pre: State, schema: Schema)
    requires schema.HasClass(CLASS) && s.lastNavClass.None? && (pre == ExpectSource || pre == BlockStmt)
    ensures ReceiverOf(Dispatch(s, CLASS, pre, schema)) == Some(CLASS)
  {
    IdentIsIdentifier(CLASS);
    HeadAnchorsNothing(Sourced(s, CLASS, schema), pre, schema);
  }

  lemma HeadAnchorsNothing(s: Scope, pre: State, schema: Schema)
    requires pre == ExpectSource || pre == BlockStmt
    ensures Anchored(s, CLASS, pre, schema) == (s, None)
  {
  }

  /** `C` */
  lemma ClassRead(p: Point, pre: State, base: seq<Frame>, schema: Schema) returns (q: Point)
    requires schema.HasClass(CLASS) && Stands(p, schema) && p.scope.pending.None? && p.scope.lastNavClass.None?
    requires p.config == Config(pre, base) && (pre == ExpectSource || pre == BlockStmt)
    ensures Stands(q, schema) && q.tokens == p.tokens + [CLASS] && q.config == Config(InSourceIdent, base)
    ensures ReceiverOf(Settled(q.scope, schema)) == Some(CLASS)
  {
    SourceNamesRead(base);
    q := NameRead(p, CLASS, InSourceIdent, schema);
    ClassHeads(p.scope, pre, schema);
  }

  lemma ArrowRead(p: Point, base: seq<Frame>, schema: Schema) returns (q: Point)
    requires Stands(p, schema) && p.config == Config(InSourceIdent, base)
    ensures Stands(q, schema) && q.tokens == p.tokens + [[DASH, GT]] && q.config == Config(AfterArrow, base)
    ensures q.scope.pending.None? && q.scope.pendingArrowReceiver == Some(ReceiverOf(Settled(p.scope, schema)))
  {
    ArrowSign(p.config, [DASH, GT]);
    q := SignRead(p, [DASH, GT], Config(AfterArrow, base), schema);
    ArrowHands(Settled(p.scope, schema), InSourceIdent, schema);
  }

  lemma MethodRead(p: Point, base: seq<Frame>, schema: Schema) returns (q: Point)
    requires Stands(p, schema) && p.scope.pending.None? && p.config == Config(AfterArrow, base)
    ensures Stands(q, schema) && q.tokens == p.tokens + [METHOD] && q.config == Config(InIdent, base)
    ensures Settled(q.scope, schema).pendingArrowReceiver == p.scope.pendingArrowReceiver
    ensures Settled(q.scope, schema).lastIdent.Some?
  {
    SourceNamesRead(base);
    q := NameRead(p, METHOD, InIdent, schema);
    MethodNoted(p.scope, METHOD, schema);
  }

  lemma ParenRead(p: Point, base: seq<Frame>, schema: Schema) returns (q: Point)
    requires Stands(p, schema) && p.config == Config(InIdent, base)
    requires Settled(p.scope, schema).pendingArrowReceiver == Some(Some(CLASS))
    requires Settled(p.scope, schema).lastIdent.Some?
    ensures Stands(q, schema) && q.tokens == p.tokens + [[LPAREN]] && q.config == Config(ExpectValue, Inside(base))
    ensures q.scope.pending.None? && Top(q.scope.parenReceiver) == Some(Some(CLASS))
  {
    ParenSigns(base);
    q := SignRead(p, [LPAREN], Config(ExpectValue, Inside(base)), schema);
    ParenReceives(Settled(p.scope, schema), schema);
  }

  /** `->f(` */
  lemma CallRead(p: Point, base: seq<Frame>, schema: Schema) returns (q: Point)
    requires Stands(p, schema) && p.config == Config(InSourceIdent, base)
    requires ReceiverOf(Settled(p.scope, schema)) == Some(CLASS)
    ensures Stands(q, schema) && q.scope.pending.None? && q.config == Config(ExpectValue, Inside(base))
    ensures q.tokens == p.tokens + [[DASH, GT]] + [METHOD] + [[LPAREN]]
    ensures Top(q.scope.parenReceiver) == Some(Some(CLASS))
  {
    q := ArrowRead(p, base, schema);
    q := MethodRead(q, base, schema);
    q := ParenRead(q, base, schema);
  }

  // ----- the lambda -----

  lemma BinderRead(p: Point, stack: seq<Frame>, schema: Schema) returns (q: Point)
    requires Stands(p, schema) && p.scope.pending.None? && p.config == Config(ExpectValue, stack)
    requires Top(p.scope.parenReceiver) == Some(Some(CLASS))
    ensures Stands(q, schema) && q.tokens == p.tokens + [BINDER] && q.config == Config(InIdent, stack)
    ensures BinderTarget(Settled(q.scope, schema)) == Some(Member(CLASS))
    ensures Settled(q.scope, schema).lambdaFirstIdent == Some(BINDER)
  {
    BodyNames(stack);
    q := NameRead(p, BINDER, InIdent, schema);
    BinderTaken(p.scope, BINDER, schema);
  }

  lemma BodyOpened(p: Point, stack: seq<Frame>, schema: Schema) returns (q: Point)
    requires Stands(p, schema) && p.config == Config(InIdent, stack)
    requires BinderTarget(Settled(p.scope, schema)) == Some(Member(CLASS))
    requires Settled(p.scope, schema).lambdaFirstIdent == Some(BINDER)
    ensures Stands(q, schema) && q.tokens == p.tokens + [[PIPE]] && q.config == Config(SawPipe, stack)
    ensures q.scope.pending.None? && NavFromVar(q.scope, BINDER) == Some(Member(CLASS))
  {
    ValueSigns(stack);
    q := SignRead(p, [PIPE], Config(SawPipe, stack), schema);
    BinderBound(Settled(p.scope, schema), BINDER, schema);
  }

  lemma DollarRead(p: Point, stack: seq<Frame>, schema: Schema) returns (q: Point)
    requires Stands(p, schema) && p.scope.pending.None? && p.config == Config(SawPipe, stack)
    ensures Stands(q, schema) && q.tokens == p.tokens + [[DOLLAR]] && q.config == Config(AfterDollar, stack)
    ensures q.scope.pending.None? && SameTargets(p.scope, q.scope)
  {
    ValueSigns(stack);
    q := SignRead(p, [DOLLAR], Config(AfterDollar, stack), schema);
    DollarKeepsBindings(p.scope, SawPipe, schema);
  }

  lemma VariableRead(p: Point, stack: seq<Frame>, schema: Schema) returns (q: Point)
    requires Stands(p, schema) && p.scope.pending.None? && p.config == Config(AfterDollar, stack)
    requires NavFromVar(p.scope, BINDER) == Some(Member(CLASS))
    ensures Stands(q, schema) && q.tokens == p.tokens + [BINDER] && q.config == Config(InIdent, stack)
    ensures Settled(q.scope, schema).pendingRefvar == Some(BINDER)
    ensures NavFromVar(Settled(q.scope, schema), BINDER) == Some(Member(CLASS))
  {
    BodyNames(stack);
    q := NameRead(p, BINDER, InIdent, schema);
    VariableClosed(p.scope, BINDER, schema);
  }

  /** `x|$x` */
  lemma LambdaRead(p: Point, stack: seq<Frame>, schema: Schema) returns (q: Point)
    requires Stands(p, schema) && p.scope.pending.None? && p.config == Config(ExpectValue, stack)
    requires Top(p.scope.parenReceiver) == Some(Some(CLASS))
    ensures Stands(q, schema) && q.config == Config(InIdent, stack)
    ensures q.tokens == p.tokens + [BINDER] + [[PIPE]] + [[DOLLAR]] + [BINDER]
    ensures Settled(q.scope, schema).pendingRefvar == Some(BINDER)
    ensures NavFromVar(Settled(q.scope, schema), BINDER) == Some(Member(CLASS))
  {
    q := BinderRead(p, stack, schema);
    q := BodyOpened(q, stack, schema);
    q := DollarRead(q, stack, schema);
    q := VariableRead(q, stack, schema);
  }

  // ----- an operand behind the variable -----

  lemma PlusReadsNoTarget(plus: seq<byte>)
    requires plus == [PLUS]
    ensures ReadsNoTarget(Classify(plus), InIdent)
  {
    assert !IsAsciiWs(plus[0]);
  }

  lemma PlusKeepsLeftOver(s: Scope, schema: Schema)
    ensures LeftOver(Dispatch(s, [PLUS], InIdent, schema)) == LeftOver(s)
  {
    PlusReadsNoTarget([PLUS]);
    OtherClosed(s, [PLUS], InIdent, schema);
  }

  lemma PlusRead(p: Point, stack: seq<Frame>, schema: Schema) returns (q: Point)
    requires Stands(p, schema) && p.config == Config(InIdent, stack)
    ensures Stands(q, schema) && q.tokens == p.tokens + [[PLUS]] && q.config == Config(ExpectValueReq, stack)
    ensures q.scope.pending.None? && LeftOver(q.scope) == LeftOver(Settled(p.scope, schema))
  {
    OperatorSigns(stack);
    q := SignRead(p, [PLUS], Config(ExpectValueReq, stack), schema);
    PlusKeepsLeftOver(Settled(p.scope, schema), schema);
  }

  lemma OperandIsStale(s: Scope, t: Scope, schema: Schema)
    requires t.pending.Some? && t.pending.value.kind == Ident && t.pending.value.anchor == ExpectValueReq
    requires t.pendingRefvar == s.pendingRefvar && t.navCursor == s.navCursor
    requires t.varClass == s.varClass && t.relationRowVars == s.relationRowVars
    ensures StaleTarget(t) == LeftOver(s) && FusedNavPosition(t, schema).None?
  {
  }

  lemma OperandRead(p: Point, stack: seq<Frame>, schema: Schema) returns (q: Point)
    requires Stands(p, schema) && p.scope.pending.None? && p.config == Config(ExpectValueReq, stack)
    ensures Stands(q, schema) && q.tokens == p.tokens + [OPERAND] && q.config == Config(InIdent, stack)
    ensures StaleTarget(q.scope) == LeftOver(p.scope) && FusedNavPosition(q.scope, schema).None?
  {
    BodyNames(stack);
    q := NameRead(p, OPERAND, InIdent, schema);
    OperandIsStale(p.scope, q.scope, schema);
  }

  /** `|C->f(x|$x+y` */
  lemma SumRead(schema: Schema) returns (p: Point)
    requires schema.HasClass(CLASS)
    ensures Stands(p, schema) && p.config == Config(InIdent, Inside([]))
    ensures p.tokens == [[PIPE]] + [CLASS] + [[DASH, GT]] + [METHOD] + [[LPAREN]]
                      + [BINDER] + [[PIPE]] + [[DOLLAR]] + [BINDER] + [[PLUS]] + [OPERAND]
    ensures StaleTarget(p.scope) == Some(Member(CLASS)) && FusedNavPosition(p.scope, schema).None?
  {
    p := QueryOpened(schema);
    p := ClassRead(p, ExpectSource, [], schema);
    p := CallRead(p, [], schema);
    p := LambdaRead(p, Inside([]), schema);
    p := PlusRead(p, Inside([]), schema);
    p := OperandRead(p, Inside([]), schema);
  }

  /** After `|C->f(x|$x+y` no fused target is known, and yet a dot of its own leads to the members of `C`:
      the fused `.name` is kept whatever it names, while `name` after the dot must name a member. */
  lemma StaleDotIsReached(schema: Schema) returns (tokens: seq<seq<byte>>, s: Scope, c: Config)
    requires schema.HasClass(CLASS)
    ensures tokens == [[PIPE]] + [CLASS] + [[DASH, GT]] + [METHOD] + [[LPAREN]]
                    + [BINDER] + [[PIPE]] + [[DOLLAR]] + [BINDER] + [[PLUS]] + [OPERAND]
    ensures LeadsTo(tokens, s, c, schema)
    ensures FusedNavPosition(s, schema).None? && StaleTarget(s) == Some(Member(CLASS))
    ensures Run(c, [DOT]) == Some(Config(AfterDot, c.stack))
    ensures Position(Observed(s, c, [DOT], schema), AfterDot) == Member(CLASS)
  {
    var p := SumRead(schema);
    tokens, s, c := p.tokens, p.scope, p.config;
    EveryRunIsOnTrack(tokens, schema);
    DotLeads(s, c, schema);
  }

  // ----- a member behind the variable -----

  lemma DotReadsBinder(s: Scope, dot: seq<byte>, pre: State, schema: Schema)
    requires dot == [DOT] && s.pendingRefvar == Some(BINDER) && NavFromVar(s, BINDER) == Some(Member(CLASS))
    ensures var t := Dispatch(s, dot, pre, schema);
            t.pendingRefvar.None? && t.dotBase == Some(CLASS) && !t.dotIsColumn
  {
    DotClassifies(dot);
  }

  lemma DotRead(p: Point, stack: seq<Frame>, schema: Schema) returns (q: Point)
    requires Stands(p, schema) && p.config == Config(InIdent, stack)
    requires Settled(p.scope, schema).pendingRefvar == Some(BINDER)
    requires NavFromVar(Settled(p.scope, schema), BINDER) == Some(Member(CLASS))
    ensures Stands(q, schema) && q.tokens == p.tokens + [[DOT]] && q.config == Config(AfterDot, stack)
    ensures q.scope.pending.None? && q.scope.pendingRefvar.None?
    ensures q.scope.dotBase == Some(CLASS) && !q.scope.dotIsColumn
  {
    OperatorSigns(stack);
    q := SignRead(p, [DOT], Config(AfterDot, stack), schema);
    DotReadsBinder(Settled(p.scope, schema), [DOT], InIdent, schema);
  }

  /** The role leads from the class to `far`. */
  ghost predicate RoleLeads(schema: Schema, far: Name) {
    exists mult :: Resolve(schema, CLASS, ROLE) == Some(Resolved(Class(far), mult))
  }

  lemma RoleFollowed(s: Scope, t: Scope, schema: Schema, far: Name)
    requires s.pending.None? && s.pendingRefvar.None? && s.dotBase == Some(CLASS) && !s.dotIsColumn
    requires RoleLeads(schema, far)
    requires t == s.(pending := Some(Pending(Ident, ROLE, AfterDot, Stamp(s, AfterDot))))
    ensures FusedNavPosition(t, schema) == Some(Member(far))
    ensures var u := Dispatch(s, ROLE, AfterDot, schema); u.pendingRefvar.None? && u.navCursor == Some(far)
  {
    var mult :| Resolve(schema, CLASS, ROLE) == Some(Resolved(Class(far), mult));
    IdentIsIdentifier(ROLE);
    MemberClosed(s, ROLE, schema);
  }

  lemma RoleRead(p: Point, stack: seq<Frame>, schema: Schema, far: Name) returns (q: Point)
    requires Stands(p, schema) && p.config == Config(AfterDot, stack) && RoleLeads(schema, far)
    requires p.scope.pending.None? && p.scope.pendingRefvar.None?
    requires p.scope.dotBase == Some(CLASS) && !p.scope.dotIsColumn
    ensures Stands(q, schema) && q.tokens == p.tokens + [ROLE] && q.config == Config(InIdent, stack)
    ensures FusedNavPosition(q.scope, schema) == Some(Member(far))
    ensures Settled(q.scope, schema).pendingRefvar.None? && Settled(q.scope, schema).navCursor == Some(far)
  {
    BodyNames(stack);
    q := NameRead(p, ROLE, InIdent, schema);
    RoleFollowed(p.scope, q.scope, schema, far);
  }

  /** `C->f(x|$x.a` */
  lemma NavigationRead(p: Point, pre: State, base: seq<Frame>, schema: Schema, far: Name) returns (q: Point)
    requires schema.HasClass(CLASS) && Stands(p, schema) && p.scope.pending.None? && p.scope.lastNavClass.None?
    requires p.config == Config(pre, base) && (pre == ExpectSource || pre == BlockStmt) && RoleLeads(schema, far)
    ensures Stands(q, schema) && q.config == Config(InIdent, Inside(base))
    ensures q.tokens == p.tokens + [CLASS] + [[DASH, GT]] + [METHOD] + [[LPAREN]]
                      + [BINDER] + [[PIPE]] + [[DOLLAR]] + [BINDER] + [[DOT]] + [ROLE]
    ensures FusedNavPosition(q.scope, schema) == Some(Member(far))
    ensures Settled(q.scope, schema).pendingRefvar.None? && Settled(q.scope, schema).navCursor == Some(far)
  {
    q := ClassRead(p, pre, base, schema);
    q := CallRead(q, base, schema);
    q := LambdaRead(q, Inside(base), schema);
    q := DotRead(q, Inside(base), schema);
    q := RoleRead(q, Inside(base), schema, far);
  }

  lemma DotLedRuns(c: Config, token: seq<byte>)
    requires |token| == 2 && token[0] == DOT && IsIdentStart(token[1])
    requires c.state == InIdent || c.state == LetL
    ensures Run(c, token) == Some(Config(InIdent, c.stack)) && FusedPostDot(token) == Some(token[1..])
  {
    var mid, end := Config(AfterDot, c.stack), Config(InIdent, c.stack);
    assert Advanced(c, DOT) == Some(mid) && Advanced(mid, token[1]) == Some(end);
    assert token[1..][0] == token[1] && token[1..][1..] == [];
    assert Run(end, []) == Some(end) && Run(mid, token[1..]) == Some(end);
  }

  lemma ClearedByTarget(s: Scope, c: Config, schema: Schema, vocab: Vocab, far: Name, id: nat)
    requires FusedNavPosition(s, schema) == Some(Member(far)) && (c.state == InIdent || c.state == LetL)
    requires id < vocab.Len() && |vocab.tokens[id]| == 2 && vocab.tokens[id][0] == DOT
    requires IsIdentStart(vocab.tokens[id][1]) && Strays(MemberSet(schema, far), vocab.tokens[id][1..])
    ensures id in L1Mask(c, vocab) && id !in L2Mask(c, s, schema, vocab)
  {
    DotLedRuns(c, vocab.tokens[id]);
    MaskParts(c, s, schema, vocab, id);
    FusedKeptIsPassing(s, schema, vocab, id);
  }

  /** The token that finishes a member is not always kept: after `|C->f(x|$x.a`, with `a` leading to a class, a dot
      fused with an identifier that class has no member for is live and cleared. */
  lemma PhantomFinisherIsCleared(schema: Schema, vocab: Vocab, far: Name, id: nat)
    returns (tokens: seq<seq<byte>>, s: Scope, c: Config)
    requires schema.HasClass(CLASS) && RoleLeads(schema, far)
    requires id < vocab.Len() && |vocab.tokens[id]| == 2 && vocab.tokens[id][0] == DOT
    requires IsIdentStart(vocab.tokens[id][1]) && Strays(MemberSet(schema, far), vocab.tokens[id][1..])
    ensures tokens == [[PIPE]] + [CLASS] + [[DASH, GT]] + [METHOD] + [[LPAREN]]
                    + [BINDER] + [[PIPE]] + [[DOLLAR]] + [BINDER] + [[DOT]] + [ROLE]
    ensures LeadsTo(tokens, s, c, schema)
    ensures id in L1Mask(c, vocab) && id !in L2Mask(c, s, schema, vocab)
  {
    var p := QueryOpened(schema);
    p := NavigationRead(p, ExpectSource, [], schema, far);
    tokens, s, c := p.tokens, p.scope, p.config;
    ClearedByTarget(s, c, schema, vocab, far, id);
  }

  // ----- the next statement -----

  predicate LeftAt(s: Scope, far: Name) {
    s.pendingRefvar.None? && s.navCursor == Some(far)
  }

  lemma RestoringKeepsCursor(s: Scope)
    ensures BindersRestored(s).navCursor == s.navCursor && BodiesRestored(s).navCursor == s.navCursor
    ensures BindersRestored(s).pendingRefvar == s.pendingRefvar && BodiesRestored(s).pendingRefvar == s.pendingRefvar
    decreases |s.binderSaves| + |s.scopeSaves|
  {
  }

  lemma CloseKeepsLeft(s: Scope, close: seq<byte>, pre: State, schema: Schema, far: Name)
    requires LeftAt(s, far) && close == [RPAREN]
    ensures LeftAt(Dispatch(s, close, pre, schema), far)
  {
    CloserClassifies(close);
    OnCloseKeepsLeft(s, far);
    assert Dispatch(s, close, pre, schema) == OnClose(s).(lastResolved := None, cmpPending := None);
  }

  lemma CloserClassifies(close: seq<byte>)
    requires close == [RPAREN]
    ensures Classify(close) == CloseDelim
  {
    assert !IsAsciiWs(close[0]);
  }

  lemma OnCloseKeepsLeft(s: Scope, far: Name)
    requires LeftAt(s, far)
    ensures LeftAt(OnClose(s), far)
  {
    RestoringKeepsCursor(s);
    RestoringKeepsCursor(BindersRestored(s));
  }

  lemma SemiReadsNoTarget(semi: seq<byte>)
    requires semi == [SEMI]
    ensures ReadsNoTarget(Classify(semi), AfterValue)
  {
    assert !IsAsciiWs(semi[0]);
  }

  lemma SemiKeepsLeft(s: Scope, schema: Schema, far: Name)
    requires LeftAt(s, far)
    ensures LeftAt(Dispatch(s, [SEMI], AfterValue, schema), far)
  {
    SemiReadsNoTarget([SEMI]);
    OtherClosed(s, [SEMI], AfterValue, schema);
  }

  lemma LKeepsLeft(s: Scope, schema: Schema, far: Name)
    requires LeftAt(s, far)
    ensures LeftAt(Dispatch(s, LONE_L, BlockStmtClose, schema), far)
  {
    IdentIsIdentifier(LONE_L);
    OtherClosed(s, LONE_L, BlockStmtClose, schema);
  }

  lemma CloseRead(p: Point, schema: Schema, far: Name) returns (q: Point)
    requires Stands(p, schema) && p.config == Config(InIdent, Inside([Brace])) && LeftAt(Settled(p.scope, schema), far)
    ensures Stands(q, schema) && q.tokens == p.tokens + [[RPAREN]] && q.config == Config(AfterValue, [Brace])
    ensures q.scope.pending.None? && LeftAt(q.scope, far)
  {
    ParenSigns([Brace]);
    q := SignRead(p, [RPAREN], Config(AfterValue, [Brace]), schema);
    CloseKeepsLeft(Settled(p.scope, schema), [RPAREN], InIdent, schema, far);
  }

  lemma SemiRead(p: Point, schema: Schema, far: Name) returns (q: Point)
    requires Stands(p, schema) && p.scope.pending.None? && p.config == Config(AfterValue, [Brace])
    requires LeftAt(p.scope, far)
    ensures Stands(q, schema) && q.tokens == p.tokens + [[SEMI]] && q.config == Config(BlockStmtClose, [Brace])
    ensures q.scope.pending.None? && LeftAt(q.scope, far)
  {
    BlockSigns();
    q := SignRead(p, [SEMI], Config(BlockStmtClose, [Brace]), schema);
    SemiKeepsLeft(p.scope, schema, far);
  }

  /** `{|C->f(x|$x.a);` */
  lemma StatementRead(schema: Schema, far: Name) returns (p: Point)
    requires schema.HasClass(CLASS) && RoleLeads(schema, far)
    ensures Stands(p, schema) && p.config == Config(BlockStmtClose, [Brace]) && p.scope.pending.None?
    ensures p.tokens == Statement() && LeftAt(p.scope, far)
  {
    p := BlockOpened(schema);
    p := NavigationRead(p, BlockStmt, [Brace], schema, far);
    p := CloseRead(p, schema, far);
    p := SemiRead(p, schema, far);
  }

  function Statement(): seq<seq<byte>> {
    [[LBRACE]] + [[PIPE]] + [CLASS] + [[DASH, GT]] + [METHOD] + [[LPAREN]]
    + [BINDER] + [[PIPE]] + [[DOLLAR]] + [BINDER] + [[DOT]] + [ROLE] + [[RPAREN]] + [[SEMI]]
  }

  lemma SourceRead(p: Point, schema: Schema, far: Name) returns (q: Point)
    requires Stands(p, schema) && p.scope.pending.None? && p.config == Config(BlockStmtClose, [Brace])
    requires LeftAt(p.scope, far)
    ensures Stands(q, schema) && q.tokens == p.tokens + [OTHER] && q.config == Config(InSourceIdent, [Brace])
    ensures LeftAt(q.scope, far) && q.scope.pending.Some?
    ensures q.scope.pending.value.kind == Ident && q.scope.pending.value.anchor == BlockStmtClose
    ensures q.scope.pending.value.pos == SourceIdent
  {
    SourceNamesRead([Brace]);
    q := NameRead(p, OTHER, InSourceIdent, schema);
  }

  lemma MemberCleared(t: Scope, c: Config, schema: Schema, vocab: Vocab, far: Name, id: nat)
    requires Position(t, c.state) == Member(far) && NarrowPrefix(t) == [] && c.state == AfterDot
    requires id < vocab.Len() && Strays(MemberSet(schema, far), vocab.tokens[id])
    ensures id !in L2Mask(c, t, schema, vocab)
  {
    MaskParts(c, t, schema, vocab, id);
    FreshlyKept(t, AfterDot, schema, vocab, id);
  }

  /** A source path is not passed through: after `{|C->f(x|$x.a);E` a dot leads to the members of the class that
      `a` led to in the statement before, and the mask behind it clears every identifier that class has no member
      for, `all` among them. */
  lemma StaleSourceDotIsReached(schema: Schema, vocab: Vocab, far: Name, id: nat)
    returns (tokens: seq<seq<byte>>, s: Scope, c: Config)
    requires schema.HasClass(CLASS) && RoleLeads(schema, far)
    requires id < vocab.Len() && Strays(MemberSet(schema, far), vocab.tokens[id])
    ensures tokens == Statement() + [OTHER] && LeadsTo(tokens, s, c, schema)
    ensures s.pending.Some? && s.pending.value.pos == SourceIdent
    ensures Run(c, [DOT]) == Some(Config(AfterDot, c.stack))
    ensures var t := Observed(s, c, [DOT], schema);
            Position(t, AfterDot) == Member(far) && id !in L2Mask(Config(AfterDot, c.stack), t, schema, vocab)
  {
    var p := StatementRead(schema, far);
    p := SourceRead(p, schema, far);
    tokens, s, c := p.tokens, p.scope, p.config;
    EveryRunIsOnTrack(tokens, schema);
    SourceDotIsFreeIffNothingIsLeft(s, c, schema);
    DotLeads(s, c, schema);
    MemberCleared(Observed(s, c, [DOT], schema), Config(AfterDot, c.stack), schema, vocab, far, id);
  }

  lemma LRead(p: Point, schema: Schema, far: Name) returns (q: Point)
    requires Stands(p, schema) && p.scope.pending.None? && p.config == Config(BlockStmtClose, [Brace])
    requires LeftAt(p.scope, far)
    ensures Stands(q, schema) && q.tokens == p.tokens + [LONE_L] && q.config == Config(LetL, [Brace])
    ensures q.scope.pending.None? && LeftAt(q.scope, far)
  {
    BlockSigns();
    q := SignRead(p, LONE_L, Config(LetL, [Brace]), schema);
    LKeepsLeft(p.scope, schema, far);
  }

  /** Nor is the token that finishes a source name always kept: after `{|C->f(x|$x.a);l` a dot fused with an
      identifier that the class `a` led to has no member for is live and cleared, whatever class `l` names. */
  lemma StaleLetFinisherIsCleared(schema: Schema, vocab: Vocab, far: Name, id: nat)
    returns (tokens: seq<seq<byte>>, s: Scope, c: Config)
    requires schema.HasClass(CLASS) && RoleLeads(schema, far)
    requires id < vocab.Len() && |vocab.tokens[id]| == 2 && vocab.tokens[id][0] == DOT
    requires IsIdentStart(vocab.tokens[id][1]) && Strays(MemberSet(schema, far), vocab.tokens[id][1..])
    ensures tokens == Statement() + [LONE_L] && LeadsTo(tokens, s, c, schema)
    ensures id in L1Mask(c, vocab) && id !in L2Mask(c, s, schema, vocab)
  {
    var p := StatementRead(schema, far);
    p := LRead(p, schema, far);
    tokens, s, c := p.tokens, p.scope, p.config;
    ClearedByTarget(s, c, schema, vocab, far, id);
  }
}
