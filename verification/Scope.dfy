/** The scope machine as a value: its fields, its per-lexeme transitions, and the positions it reports. */
module Scopes {
  import opened Bytes
  import opened Automaton
  import opened Runs
  import opened Model
  import opened Lexemes

  /** The schema constraint at a position. */
  datatype L2Position =
    | SourceIdent
    | Member(class_: Name)
    | ReValue(operand: TypeClass)
    | Column
    | RelationColumn
    | Unconstrained

  /** An identifier or string still open at a token's end. */
  datatype Pending = Pending(kind: LexKind, buf: seq<byte>, anchor: State, pos: L2Position)

  datatype BinderSave = BinderSave(depth: nat, name: Name, prevClass: Option<Option<Name>>, prevRelationRow: bool)

  datatype ScopeSave = ScopeSave(depth: nat, prevCurClass: Option<Name>, prevRelExplicit: bool, prevSawTilde: bool)

  datatype Scope = Scope(
    pending: Option<Pending>,
    curClass: Option<Name>,
    varClass: map<Name, Option<Name>>,
    pendingRefvar: Option<Name>,
    dotBase: Option<Name>,
    navCursor: Option<Name>,
    lastResolved: Option<TypeClass>,
    lastNavClass: Option<Name>,
    cmpPending: Option<TypeClass>,
    lambdaFirstIdent: Option<Name>,
    pendingArrowReceiver: Option<Option<Name>>,
    parenReceiver: seq<Option<Name>>,
    estStack: seq<nat>,
    refStack: seq<nat>,
    depth: nat,
    lastIdent: Option<Name>,
    relExplicit: bool,
    sawTilde: bool,
    tildeOpen: seq<bool>,
    relationRowVars: set<Name>,
    binderSaves: seq<BinderSave>,
    scopeSaves: seq<ScopeSave>,
    dotIsColumn: bool,
    emitted: seq<seq<byte>>)

  const FRESH: Scope := Scope(None, None, map[], None, None, None, None, None, None, None, None, [], [], [], 0,
    None, false, false, [], {}, [], [], false, [])

  predicate IsEstablishing(method_: Name) {
    method_ == Ascii("project") || method_ == Ascii("groupBy") || method_ == Ascii("olapGroupBy")
  }

  predicate IsReference(method_: Name) {
    || method_ == Ascii("getInteger") || method_ == Ascii("getFloat") || method_ == Ascii("getString")
    || method_ == Ascii("getBoolean") || method_ == Ascii("sort") || method_ == Ascii("asc")
    || method_ == Ascii("desc") || method_ == Ascii("restrict")
  }

  predicate IsSourceMethod(method_: Name) {
    method_ == Ascii("all")
  }

  /** An `all()` at this depth or deeper heads a nested pipeline. */
  const NESTED_SOURCE_MIN_DEPTH: nat := 2

  // ----- transitions -----

  function Flatten<T>(o: Option<Option<T>>): Option<T> {
    match o case Some(inner) => inner case None => None
  }

  function Get<K, V>(m: map<K, V>, k: K): Option<V> {
    if k in m then Some(m[k]) else None
  }

  /** The class a resolution navigates to, and the operand class it arms. */
  ghost function MemberResolved(s: Scope, ident: Name, schema: Schema): (Scope, Option<TypeClass>) {
    if s.dotIsColumn then (s.(dotIsColumn := false, navCursor := None, lastNavClass := None), None)
    else if s.dotBase.None? then (s, None)
    else
      var here := s.(dotBase := None);
      match Resolve(schema, s.dotBase.value, ident)
      case Some(Resolved(Class(path), _)) => (here.(navCursor := Some(path), lastNavClass := Some(path)), None)
      case Some(Resolved(Primitive(prim), _)) =>
        (here.(navCursor := None, lastNavClass := None), Some(TypeClassOf(prim)))
      case _ => (here.(navCursor := None, lastNavClass := None), None)
  }

  function AtValue(pre: State): bool {
    pre == ExpectValue || pre == ExpectValueReq
  }

  /** An identifier naming a class is a pipeline source. */
  function Sourced(s: Scope, text: Name, schema: Schema): Scope {
    if schema.HasClass(text) then s.(curClass := Some(text)) else s
  }

  /** What an identifier means at its anchor: a variable use, a member step, or a binder candidate. */
  ghost function Anchored(s: Scope, text: Name, pre: State, schema: Schema): (Scope, Option<TypeClass>) {
    if pre == AfterDollar then (s.(pendingRefvar := Some(text)), None)
    else if pre == AfterDot then MemberResolved(s, text, schema)
    else if AtValue(pre) || ((pre == AfterColon || pre == AfterColonWs) && !schema.HasClass(text)) then
      (s.(lambdaFirstIdent := Some(text)), None)
    else (s, None)
  }

  /** Record a column name: a bare `~Col`, or a key directly inside a `~[...]`. */
  function ColumnNamed(s: Scope, text: Name, pre: State): Scope {
    if pre == SawTilde || (AtValue(pre) && Top(s.tildeOpen) == Some(true)) then s.(emitted := s.emitted + [text]) else s
  }

  ghost function OnIdent(s: Scope, text: Name, pre: State, schema: Schema): (Scope, Option<TypeClass>) {
    var (moved, now) := Anchored(Sourced(s, text, schema), text, pre, schema);
    (ColumnNamed(moved, text, pre).(lastIdent := Some(text)), now)
  }

  function OnDot(s: Scope): Scope {
    match s.pendingRefvar
    case Some(v) =>
      var here := s.(pendingRefvar := None);
      if v in s.relationRowVars then here.(dotIsColumn := true, dotBase := None)
      else here.(dotIsColumn := false, dotBase := Flatten(Get(s.varClass, v)))
    case None =>
      s.(dotIsColumn := false, dotBase := s.navCursor)
  }

  function OnArrow(s: Scope): Scope {
    var receiver := if s.lastNavClass.Some? then s.lastNavClass else s.curClass;
    s.(lastNavClass := None, pendingArrowReceiver := Some(receiver), pendingRefvar := None, navCursor := None,
       lastIdent := None)
  }

  /** Bind `name` at a binder pipe: a relation row, or the receiver's class. */
  function Bound(s: Scope, name: Name): Scope {
    var receiver := Flatten(Top(s.parenReceiver));
    if receiver.None? && s.relExplicit && s.sawTilde then
      s.(varClass := s.varClass - {name}, relationRowVars := s.relationRowVars + {name})
    else
      s.(varClass := s.varClass[name := receiver], relationRowVars := s.relationRowVars - {name})
  }

  predicate IsOpeningPipe(pre: State) {
    pre == Start || pre == ExpectSource
  }

  /** Save the pipeline state at a binder pipe, and take the binder candidate with what it shadows. */
  function BodyBegun(s: Scope): Scope {
    var name := s.lambdaFirstIdent;
    s.(scopeSaves := s.scopeSaves + [ScopeSave(s.depth, s.curClass, s.relExplicit, s.sawTilde)],
       lambdaFirstIdent := None,
       binderSaves := if name.Some? && name.value != [] then s.binderSaves
           + [BinderSave(s.depth, name.value, Get(s.varClass, name.value), name.value in s.relationRowVars)]
         else s.binderSaves)
  }

  function OnPipe(s: Scope, pre: State): Scope {
    if IsOpeningPipe(pre) then s
    else if s.lambdaFirstIdent.Some? && s.lambdaFirstIdent.value != [] then
      Bound(BodyBegun(s), s.lambdaFirstIdent.value)
    else BodyBegun(s)
  }

  function OnOpen(s: Scope, pre: State): Scope {
    var isTilde := pre == SawTilde;
    var depth := s.depth + 1;
    var called := s.lastIdent;
    var nested := called.Some? && IsSourceMethod(called.value) && depth >= NESTED_SOURCE_MIN_DEPTH;
    s.(lastIdent := None,
       depth := depth,
       sawTilde := (s.sawTilde || isTilde) && !nested,
       relExplicit := s.relExplicit && !nested,
       tildeOpen := s.tildeOpen + [isTilde],
       estStack := if called.Some? && IsEstablishing(called.value) then s.estStack + [depth] else s.estStack,
       refStack := if called.Some? && IsReference(called.value) then s.refStack + [depth] else s.refStack,
       pendingArrowReceiver := None,
       parenReceiver := s.parenReceiver
         + [if s.pendingArrowReceiver.Some? then s.pendingArrowReceiver.value else s.curClass],
       lambdaFirstIdent := None)
  }

  function Unbound(vars: map<Name, Option<Name>>, save: BinderSave): map<Name, Option<Name>> {
    match save.prevClass
    case Some(c) => vars[save.name := c]
    case None => vars - {save.name}
  }

  function Unrowed(rows: set<Name>, save: BinderSave): set<Name> {
    if save.prevRelationRow then rows + {save.name} else rows - {save.name}
  }

  function BinderPopped(s: Scope): Scope
    requires s.binderSaves != []
  {
    var save := Top(s.binderSaves).value;
    s.(binderSaves := DropLast(s.binderSaves), varClass := Unbound(s.varClass, save),
       relationRowVars := Unrowed(s.relationRowVars, save))
  }

  /** Undo the innermost binders that were introduced at `s.depth`. */
  function BindersRestored(s: Scope): Scope
    decreases |s.binderSaves|
  {
    if s.binderSaves != [] && Top(s.binderSaves).value.depth == s.depth then BindersRestored(BinderPopped(s)) else s
  }

  function BodyPopped(s: Scope): Scope
    requires s.scopeSaves != []
  {
    var save := Top(s.scopeSaves).value;
    s.(scopeSaves := DropLast(s.scopeSaves), curClass := save.prevCurClass,
       relExplicit := save.prevRelExplicit, sawTilde := save.prevSawTilde)
  }

  /** Restore the pipeline state saved by the lambda bodies that were opened at `s.depth`. */
  function BodiesRestored(s: Scope): Scope
    decreases |s.scopeSaves|
  {
    if s.scopeSaves != [] && Top(s.scopeSaves).value.depth == s.depth then BodiesRestored(BodyPopped(s)) else s
  }

  function DelimiterPopped(s: Scope): Scope {
    var establishing := Top(s.estStack) == Some(s.depth);
    s.(tildeOpen := DropLast(s.tildeOpen),
       refStack := if Top(s.refStack) == Some(s.depth) then DropLast(s.refStack) else s.refStack,
       estStack := if establishing then DropLast(s.estStack) else s.estStack,
       relExplicit := s.relExplicit || establishing,
       curClass := if establishing then None else s.curClass,
       parenReceiver := DropLast(s.parenReceiver),
       depth := if s.depth == 0 then 0 else s.depth - 1,
       pendingArrowReceiver := None)
  }

  function OnClose(s: Scope): Scope {
    DelimiterPopped(BodiesRestored(BindersRestored(s)))
  }

  /** One whole lexeme read from the anchor state `pre`. */
  ghost function Dispatch(s: Scope, bytes: seq<byte>, pre: State, schema: Schema): Scope {
    var lex := Classify(bytes);
    if lex.Blank? then s
    else
      var (moved, now) := Acted(s, lex, pre, schema);
      moved.(lastResolved := now, cmpPending := if lex.CmpOp? then moved.cmpPending else None)
  }

  ghost function Acted(s: Scope, lex: Lexeme, pre: State, schema: Schema): (Scope, Option<TypeClass>) {
    match lex
    case Identifier(text) => OnIdent(s, text, pre, schema)
    case DotOp => (OnDot(s), None)
    case ArrowOp => (OnArrow(s), None)
    case CmpOp => (if s.lastResolved.Some? then s.(cmpPending := s.lastResolved) else s, None)
    case PipeOp => (OnPipe(s, pre), None)
    case OpenDelim => (OnOpen(s, pre), None)
    case CloseDelim => (OnClose(s), None)
    case CommaSep => (s.(lambdaFirstIdent := None, lastIdent := None), None)
    case StringLit(content) => (s.(emitted := s.emitted + [content], lastIdent := None), None)
    case DollarSign | NumberLit | DateLit | OtherOp => (s.(lastIdent := None), None)
    case Blank => (s, None)
  }

  // ----- positions -----

  function InColumnArg(s: Scope): bool {
    s.refStack != [] && s.relExplicit && s.estStack == []
  }

  /** The rule where a lexeme opens. */
  function OpeningPosition(s: Scope, state: State): L2Position {
    match state
    case ExpectSource | BlockStmt | BlockStmtClose => SourceIdent
    case AfterDot =>
      if s.dotIsColumn then RelationColumn
      else if s.dotBase.Some? then Member(s.dotBase.value)
      else Unconstrained
    case ExpectValue | ExpectValueReq =>
      if s.cmpPending.Some? then ReValue(s.cmpPending.value)
      else if InColumnArg(s) then Column
      else Unconstrained
    case _ => Unconstrained
  }

  /** The rule at a state: an open lexeme carries the rule of its anchor. */
  function Position(s: Scope, state: State): L2Position {
    if LexemeKind(state).Some? then
      if s.pending.Some? then s.pending.value.pos else Unconstrained
    else OpeningPosition(s, state)
  }

  function NavFromVar(s: Scope, v: Name): Option<L2Position> {
    if v in s.relationRowVars then Some(RelationColumn)
    else match Flatten(Get(s.varClass, v)) case Some(c) => Some(Member(c)) case None => None
  }

  ghost function NavFromMember(s: Scope, member: Name, schema: Schema): Option<L2Position> {
    if s.dotBase.None? then None
    else match Resolve(schema, s.dotBase.value, member)
      case Some(Resolved(Class(path), _)) => Some(Member(path))
      case _ => None
  }

  /** The target a fused `.name` token would navigate to. */
  ghost function FusedNavPosition(s: Scope, schema: Schema): Option<L2Position> {
    match s.pending
    case Some(p) =>
      if p.kind != Ident || !IsUtf8(p.buf) then None
      else if p.anchor == AfterDollar then NavFromVar(s, p.buf)
      else if p.anchor == AfterDot then NavFromMember(s, p.buf, schema)
      else None
    case None =>
      if s.pendingRefvar.Some? then NavFromVar(s, s.pendingRefvar.value)
      else match s.navCursor case Some(c) => Some(Member(c)) case None => None
  }

  function NarrowPrefix(s: Scope): seq<byte> {
    match s.pending case Some(p) => p.buf case None => []
  }

  // ----- lexing a token stream into lexemes -----

  /** One dispatched lexeme with its anchor state. */
  datatype Event = Event(bytes: seq<byte>, anchor: State)

  ghost function DispatchAll(s: Scope, events: seq<Event>, schema: Schema): Scope
    decreases |events|
  {
    if events == [] then s
    else DispatchAll(Dispatch(s, events[0].bytes, events[0].anchor, schema), events[1..], schema)
  }

  function IdentRun(bytes: seq<byte>): (n: nat)
    ensures n <= |bytes|
  {
    if bytes != [] && IsIdentTail(bytes[0]) then 1 + IdentRun(bytes[1..]) else 0
  }

  /** The length of the first token of a structural gap, two-byte operators and identifiers kept whole. */
  function GapToken(gap: seq<byte>): (n: nat)
    requires gap != []
    ensures 1 <= n <= |gap|
  {
    if IsAsciiWs(gap[0]) then 1
    else if |gap| > 1 && IsTwoByteOp(gap[0], gap[1]) then 2
    else if IsIdentStart(gap[0]) then IdentRun(gap)
    else 1
  }

  /** The lexemes of a structural gap, all sharing its anchor. */
  function GapEvents(gap: seq<byte>, anchor: State): seq<Event> {
    if gap == [] then []
    else if IsAsciiWs(gap[0]) then GapEvents(gap[1..], anchor)
    else [Event(gap[..GapToken(gap)], anchor)] + GapEvents(gap[GapToken(gap)..], anchor)
  }

  /** A lexing in progress: the lexemes closed so far, and the open segment with its anchor. */
  datatype Lexing = Lexing(config: Config, events: seq<Event>, seg: seq<byte>, anchor: State)

  /** Whether the buffered lexeme goes on in `c`. */
  predicate Continues(pending: Option<Pending>, c: Config) {
    pending.Some? && LexemeKind(c.state) == Some(pending.value.kind)
  }

  function Resumed(pending: Option<Pending>, c: Config): Lexing {
    if Continues(pending, c) then Lexing(c, [], pending.value.buf, pending.value.anchor)
    else if pending.Some? then Lexing(c, [Event(pending.value.buf, pending.value.anchor)], [], c.state)
    else Lexing(c, [], [], c.state)
  }

  function Fed(l: Lexing, b: byte): Lexing
    requires Advanced(l.config, b).Some?
  {
    var next := Advanced(l.config, b).value;
    var before, after := LexemeKind(l.config.state), LexemeKind(next.state);
    if before.Some? && after != before then
      Lexing(next, l.events + [Event(l.seg, l.anchor)], [b], l.config.state)
    else if before.None? && after.Some? then
      Lexing(next, l.events + GapEvents(l.seg, l.anchor), [b], l.config.state)
    else Lexing(next, l.events, l.seg + [b], l.anchor)
  }

  function FedAll(l: Lexing, bytes: seq<byte>): Lexing
    requires Run(l.config, bytes).Some?
    decreases |bytes|
  {
    if bytes == [] then l else FedAll(Fed(l, bytes[0]), bytes[1..])
  }

  /** The lexemes a token closes, its trailing gap included. */
  function Flushed(l: Lexing): seq<Event> {
    if LexemeKind(l.config.state).Some? then l.events else l.events + GapEvents(l.seg, l.anchor)
  }

  /** The rule a fresh open lexeme carries; the operand lever is a whole-token test and does not carry over. */
  function Stamp(s: Scope, anchor: State): L2Position {
    var pos := OpeningPosition(s, anchor);
    if pos.ReValue? then Unconstrained else pos
  }

  /** The open lexeme after a token: extended when it is still the same one, freshly stamped otherwise. */
  function PendingAfter(s: Scope, l: Lexing, goesOn: bool): Option<Pending> {
    match LexemeKind(l.config.state)
    case None => None
    case Some(kind) =>
      if goesOn && l.events == [] && s.pending.Some? then Some(s.pending.value.(buf := l.seg))
      else Some(Pending(kind, l.seg, l.anchor, Stamp(s, l.anchor)))
  }

  function Lexed(s: Scope, c: Config, bytes: seq<byte>): Lexing
    requires Run(c, bytes).Some?
  {
    FedAll(Resumed(s.pending, c), bytes)
  }

  /** The scope after one committed token. */
  ghost function Observed(s: Scope, c: Config, bytes: seq<byte>, schema: Schema): Scope
    requires Run(c, bytes).Some?
  {
    var l := Lexed(s, c, bytes);
    var moved := DispatchAll(s.(pending := None), Flushed(l), schema);
    moved.(pending := PendingAfter(moved.(pending := s.pending), l, Continues(s.pending, c)))
  }
}
