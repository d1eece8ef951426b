/** The scope machine and the automaton stay in step over every run. */
module Lockstep {
  import opened Bytes
  import opened Automaton
  import opened Transitions
  import opened Runs
  import opened Model
  import opened Lexemes
  import opened Scopes
  import opened Tokenization

  // ----- the shape of the save stacks -----

  /** Call depths strictly increase and lie within the open delimiters. */
  ghost predicate Rising(depths: seq<nat>, depth: nat) {
    && (forall i :: 0 <= i < |depths| ==> 1 <= depths[i] <= depth)
    && (forall i, j :: 0 <= i < j < |depths| ==> depths[i] < depths[j])
  }

  ghost predicate BindersFit(saves: seq<BinderSave>, depth: nat) {
    && (forall i :: 0 <= i < |saves| ==> saves[i].depth <= depth)
    && (forall i, j :: 0 <= i < j < |saves| ==> saves[i].depth <= saves[j].depth)
  }

  ghost predicate BodiesFit(saves: seq<ScopeSave>, depth: nat) {
    && (forall i :: 0 <= i < |saves| ==> saves[i].depth <= depth)
    && (forall i, j :: 0 <= i < j < |saves| ==> saves[i].depth <= saves[j].depth)
  }

  /** The invariant of the scope machine's own stacks. */
  ghost predicate Framed(s: Scope) {
    && |s.parenReceiver| == s.depth && |s.tildeOpen| == s.depth
    && Rising(s.estStack, s.depth) && Rising(s.refStack, s.depth)
    && BindersFit(s.binderSaves, s.depth) && BodiesFit(s.scopeSaves, s.depth)
  }

  /** Restoring binders pops exactly the saves of the closing depth and touches nothing else. */
  lemma {:induction false} BindersRestoredShape(s: Scope)
    requires BindersFit(s.binderSaves, s.depth)
    ensures var r := BindersRestored(s);
            && r == s.(binderSaves := r.binderSaves, varClass := r.varClass, relationRowVars := r.relationRowVars)
            && r.binderSaves <= s.binderSaves
            && (forall i :: 0 <= i < |r.binderSaves| ==> r.binderSaves[i].depth < s.depth)
            && (forall i :: |r.binderSaves| <= i < |s.binderSaves| ==> s.binderSaves[i].depth == s.depth)
    decreases |s.binderSaves|
  {
    if s.binderSaves != [] && Top(s.binderSaves).value.depth == s.depth {
      BindersRestoredShape(BinderPopped(s));
    }
  }

  lemma {:induction false} BodiesRestoredShape(s: Scope)
    requires BodiesFit(s.scopeSaves, s.depth)
    ensures var r := BodiesRestored(s);
            && r == s.(scopeSaves := r.scopeSaves, curClass := r.curClass,
                       relExplicit := r.relExplicit, sawTilde := r.sawTilde)
            && r.scopeSaves <= s.scopeSaves
            && (forall i :: 0 <= i < |r.scopeSaves| ==> r.scopeSaves[i].depth < s.depth)
            && (forall i :: |r.scopeSaves| <= i < |s.scopeSaves| ==> s.scopeSaves[i].depth == s.depth)
    decreases |s.scopeSaves|
  {
    if s.scopeSaves != [] && Top(s.scopeSaves).value.depth == s.depth {
      BodiesRestoredShape(BodyPopped(s));
    }
  }

  lemma OpenKeepsFramed(s: Scope, pre: State)
    requires Framed(s)
    ensures Framed(OnOpen(s, pre)) && OnOpen(s, pre).depth == s.depth + 1
  {
  }

  lemma PoppedRises(depths: seq<nat>, depth: nat)
    requires Rising(depths, depth) && depth > 0
    ensures Rising(if Top(depths) == Some(depth) then DropLast(depths) else depths, depth - 1)
  {
  }

  lemma CloseKeepsFramed(s: Scope)
    requires Framed(s) && s.depth > 0
    ensures Framed(OnClose(s)) && OnClose(s).depth == s.depth - 1
  {
    BindersRestoredShape(s);
    BodiesRestoredShape(BindersRestored(s));
    PoppedRises(s.estStack, s.depth);
    PoppedRises(s.refStack, s.depth);
  }

  /** `t` differs from `s` in the stacks by at most one save of each kind, at the current depth. */
  predicate SavesAdded(s: Scope, t: Scope) {
    && t.depth == s.depth && t.parenReceiver == s.parenReceiver && t.tildeOpen == s.tildeOpen
    && t.estStack == s.estStack && t.refStack == s.refStack
    && (t.binderSaves == s.binderSaves
        || (t.binderSaves != [] && DropLast(t.binderSaves) == s.binderSaves &&
              Top(t.binderSaves).value.depth == s.depth))
    && (t.scopeSaves == s.scopeSaves
        || (t.scopeSaves != [] && DropLast(t.scopeSaves) == s.scopeSaves && Top(t.scopeSaves).value.depth == s.depth))
  }

  lemma PipeAddsSaves(s: Scope, pre: State)
    ensures SavesAdded(s, OnPipe(s, pre))
  {
    BegunAddsSaves(s);
    if s.lambdaFirstIdent.Some? { BoundKeepsSaves(BodyBegun(s), s.lambdaFirstIdent.value); }
  }

  lemma BegunAddsSaves(s: Scope)
    ensures SavesAdded(s, BodyBegun(s))
  {
    assert DropLast(BodyBegun(s).scopeSaves) == s.scopeSaves;
    assert BodyBegun(s).binderSaves == s.binderSaves || DropLast(BodyBegun(s).binderSaves) == s.binderSaves;
  }

  lemma BoundKeepsSaves(s: Scope, name: Name)
    ensures var t := Bound(s, name);
            && t.depth == s.depth && t.parenReceiver == s.parenReceiver && t.tildeOpen == s.tildeOpen
            && t.estStack == s.estStack && t.refStack == s.refStack
            && t.binderSaves == s.binderSaves && t.scopeSaves == s.scopeSaves
  {
  }

  lemma SavesAddedKeepFramed(s: Scope, t: Scope)
    requires Framed(s) && SavesAdded(s, t)
    ensures Framed(t)
  {
  }

  /** The fields the other lexemes leave alone. */
  predicate SameFrames(s: Scope, t: Scope) {
    && t.depth == s.depth && t.parenReceiver == s.parenReceiver && t.tildeOpen == s.tildeOpen
    && t.estStack == s.estStack && t.refStack == s.refStack
    && t.binderSaves == s.binderSaves && t.scopeSaves == s.scopeSaves
    && t.varClass == s.varClass && t.relationRowVars == s.relationRowVars
  }

  lemma IdentSameFrames(s: Scope, text: Name, pre: State, schema: Schema)
    ensures SameFrames(s, OnIdent(s, text, pre, schema).0)
  {
    AnchoredSameFrames(Sourced(s, text, schema), text, pre, schema);
  }

  lemma AnchoredSameFrames(s: Scope, text: Name, pre: State, schema: Schema)
    ensures SameFrames(s, Anchored(s, text, pre, schema).0)
  {
    if pre == AfterDot { MemberSameFrames(s, text, schema); }
  }

  lemma MemberSameFrames(s: Scope, text: Name, schema: Schema)
    ensures SameFrames(s, MemberResolved(s, text, schema).0)
  {
  }

  lemma OthersSameFrames(s: Scope, lex: Lexeme, pre: State, schema: Schema)
    requires !lex.OpenDelim? && !lex.CloseDelim? && !lex.PipeOp? && !lex.Identifier?
    ensures SameFrames(s, Acted(s, lex, pre, schema).0)
  {
    match lex
    case DotOp => DotSameFrames(s);
    case ArrowOp => ArrowSameFrames(s);
    case _ => PlainSameFrames(s, lex, pre, schema);
  }

  lemma PlainSameFrames(s: Scope, lex: Lexeme, pre: State, schema: Schema)
    requires lex.Blank? || lex.StringLit? || lex.NumberLit? || lex.DateLit? || lex.DollarSign? || lex.CmpOp?
             || lex.CommaSep? || lex.OtherOp?
    ensures SameFrames(s, Acted(s, lex, pre, schema).0)
  {
  }

  lemma DotSameFrames(s: Scope)
    ensures SameFrames(s, OnDot(s))
  {
  }

  lemma ArrowSameFrames(s: Scope)
    ensures SameFrames(s, OnArrow(s))
  {
  }

  /** How a lexeme moves the depth. */
  function DepthAfter(depth: nat, lex: Lexeme): nat {
    if lex.OpenDelim? then depth + 1
    else if lex.CloseDelim? && depth > 0 then depth - 1
    else depth
  }

  lemma ActedKeepsFramed(s: Scope, lex: Lexeme, pre: State, schema: Schema)
    requires Framed(s) && (lex.CloseDelim? ==> s.depth > 0)
    ensures var t := Acted(s, lex, pre, schema).0; Framed(t) && t.depth == DepthAfter(s.depth, lex)
  {
    match lex
    case OpenDelim => OpenKeepsFramed(s, pre);
    case CloseDelim => CloseKeepsFramed(s);
    case PipeOp =>
      PipeAddsSaves(s, pre);
      SavesAddedKeepFramed(s, OnPipe(s, pre));
    case Identifier(text) => IdentSameFrames(s, text, pre, schema);
    case _ => OthersSameFrames(s, lex, pre, schema);
  }

  lemma DispatchKeepsFramed(s: Scope, e: Event, schema: Schema)
    requires Framed(s) && (Classify(e.bytes).CloseDelim? ==> s.depth > 0)
    ensures var t := Dispatch(s, e.bytes, e.anchor, schema);
            Framed(t) && t.depth == DepthAfter(s.depth, Classify(e.bytes))
  {
    ActedKeepsFramed(s, Classify(e.bytes), e.anchor, schema);
  }

  // ----- the depth of a whole lexing -----

  /** The depth after a list of lexemes; `None` when a closer meets depth zero. */
  function EventsDepth(depth: nat, events: seq<Event>): Option<nat>
    decreases |events|
  {
    if events == [] then Some(depth)
    else
      var lex := Classify(events[0].bytes);
      if lex.CloseDelim? && depth == 0 then None else EventsDepth(DepthAfter(depth, lex), events[1..])
  }

  lemma {:induction false} EventsDepthConcat(depth: nat, es: seq<Event>, fs: seq<Event>)
    ensures EventsDepth(depth, es + fs) == match EventsDepth(depth,
            es) case None => None case Some(d) => EventsDepth(d, fs)
    decreases |es|
  {
    if es == [] {
      assert es + fs == fs;
    } else {
      assert (es + fs)[0] == es[0] && (es + fs)[1..] == es[1..] + fs;
      var lex := Classify(es[0].bytes);
      if !(lex.CloseDelim? && depth == 0) { EventsDepthConcat(DepthAfter(depth, lex), es[1..], fs); }
    }
  }

  lemma {:induction false} DispatchAllKeepsFramed(s: Scope, events: seq<Event>, schema: Schema)
    requires Framed(s) && EventsDepth(s.depth, events).Some?
    ensures var t := DispatchAll(s, events, schema); Framed(t) && EventsDepth(s.depth, events) == Some(t.depth)
    decreases |events|
  {
    if events != [] {
      DispatchKeepsFramed(s, events[0], schema);
      DispatchAllKeepsFramed(Dispatch(s, events[0].bytes, events[0].anchor, schema), events[1..], schema);
    }
  }

  /** The depth after a structural gap, byte by byte. */
  function GapDepth(depth: nat, gap: seq<byte>): Option<nat>
    decreases |gap|
  {
    if gap == [] then Some(depth)
    else if IsOpener(gap[0]) then GapDepth(depth + 1, gap[1..])
    else if IsCloser(gap[0]) then if depth == 0 then None else GapDepth(depth - 1, gap[1..])
    else GapDepth(depth, gap[1..])
  }

  predicate Plain(bytes: seq<byte>) {
    forall i :: 0 <= i < |bytes| ==> !IsOpener(bytes[i]) && !IsCloser(bytes[i])
  }

  lemma {:induction false} PlainGap(depth: nat, plain: seq<byte>, rest: seq<byte>)
    requires Plain(plain)
    ensures GapDepth(depth, plain + rest) == GapDepth(depth, rest)
    decreases |plain|
  {
    if plain == [] {
      assert plain + rest == rest;
    } else {
      assert (plain + rest)[0] == plain[0] && (plain + rest)[1..] == plain[1..] + rest;
      PlainGap(depth, plain[1..], rest);
    }
  }

  lemma {:induction false} IdentRunIsTail(bytes: seq<byte>)
    ensures forall i :: 0 <= i < IdentRun(bytes) ==> IsIdentTail(bytes[i])
  {
    if bytes != [] && IsIdentTail(bytes[0]) { IdentRunIsTail(bytes[1..]); }
  }

  /** A gap token is one delimiter byte or holds none. */
  lemma GapTokenShape(gap: seq<byte>)
    requires gap != []
    ensures IsOpener(gap[0]) || IsCloser(gap[0]) ==> GapToken(gap) == 1 && !IsAsciiWs(gap[0])
    ensures !IsOpener(gap[0]) && !IsCloser(gap[0]) ==> Plain(gap[..GapToken(gap)])
  {
    IdentRunIsTail(gap);
  }

  /** Only a lone delimiter byte classifies as one. */
  lemma ClassifiedDelimiter(bytes: seq<byte>)
    ensures Classify(bytes).OpenDelim? <==> |bytes| == 1 && IsOpener(bytes[0])
    ensures Classify(bytes).CloseDelim? <==> |bytes| == 1 && IsCloser(bytes[0])
  {
    if |bytes| == 1 { assert !IsAsciiWs(bytes[0]) || !(IsOpener(bytes[0]) || IsCloser(bytes[0])); }
  }

  lemma {:induction false} GapEventsDepth(depth: nat, gap: seq<byte>, anchor: State)
    ensures EventsDepth(depth, GapEvents(gap, anchor)) == GapDepth(depth, gap)
    decreases |gap|
  {
    if gap != [] {
      var n := GapToken(gap);
      var first := gap[..n];
      assert gap == first + gap[n..];
      GapTokenShape(gap);
      ClassifiedDelimiter(first);
      if IsOpener(gap[0]) {
        GapEventsDepth(depth + 1, gap[n..], anchor);
      } else if IsCloser(gap[0]) {
        if depth > 0 { GapEventsDepth(depth - 1, gap[n..], anchor); }
      } else {
        PlainGap(depth, first, gap[n..]);
        GapEventsDepth(depth, gap[n..], anchor);
        if !IsAsciiWs(gap[0]) {
          var events := GapEvents(gap, anchor);
          assert events[0] == Event(first, anchor) && events[1..] == GapEvents(gap[n..], anchor);
        }
      }
    }
  }

  lemma {:induction false} GapDepthSnoc(depth: nat, gap: seq<byte>, b: byte)
    ensures GapDepth(depth, gap + [b]) == match GapDepth(depth, gap) case None => None case Some(d) => GapDepth(d, [b])
    decreases |gap|
  {
    if gap == [] {
      assert gap + [b] == [b];
    } else {
      assert (gap + [b])[0] == gap[0] && (gap + [b])[1..] == gap[1..] + [b];
      if IsOpener(gap[0]) { GapDepthSnoc(depth + 1, gap[1..], b); }
      else if IsCloser(gap[0]) { if depth > 0 { GapDepthSnoc(depth - 1, gap[1..], b); } }
      else { GapDepthSnoc(depth, gap[1..], b); }
    }
  }

  /** The first byte of an open lexeme. */
  predicate OpensPlainly(seg: seq<byte>) {
    seg != [] && !IsOpener(seg[0]) && !IsCloser(seg[0]) && seg[0] != PIPE
  }

  /** Navigation lexemes sit in one state. */
  predicate AnchorFits(anchor: State, state: State) {
    (anchor == AfterDollar || anchor == AfterDot) && LexemeKind(state) == Some(Ident) ==> state == InIdent
  }

  /** The lexing agrees with the automaton: flushed now, its lexemes reach exactly the stack's height. */
  ghost predicate Level(depth: nat, l: Lexing) {
    if LexemeKind(l.config.state).Some? then
      EventsDepth(depth, l.events) == Some(|l.config.stack|) && OpensPlainly(l.seg) &&
          AnchorFits(l.anchor, l.config.state)
    else
      match EventsDepth(depth, l.events)
      case None => false
      case Some(d) => GapDepth(d, l.seg) == Some(|l.config.stack|)
  }

  lemma GapByteDepth(c: Config, b: byte)
    requires Advanced(c, b).Some? && LexemeKind(Advanced(c, b).value.state).None?
    ensures GapDepth(|c.stack|, [b]) == Some(|Advanced(c, b).value.stack|)
  {
    GapByte(c.state, Top(c.stack), b);
    StepMoves(c.state, Top(c.stack), b);
    assert [b][1..] == [];
  }

  lemma LexemeEventDepth(depth: nat, seg: seq<byte>, anchor: State)
    requires OpensPlainly(seg)
    ensures EventsDepth(depth, [Event(seg, anchor)]) == Some(depth)
  {
    ClassifiedDelimiter(seg);
    assert [Event(seg, anchor)][1..] == [];
  }

  lemma FedClosesLexeme(depth: nat, l: Lexing, b: byte)
    requires Level(depth, l) && Advanced(l.config, b).Some?
    requires LexemeKind(l.config.state).Some? && LexemeKind(Advanced(l.config, b).value.state).None?
    ensures Level(depth, Fed(l, b))
  {
    LexemeEventDepth(|l.config.stack|, l.seg, l.anchor);
    EventsDepthConcat(depth, l.events, [Event(l.seg, l.anchor)]);
    GapByteDepth(l.config, b);
  }

  lemma FedInLexeme(depth: nat, l: Lexing, b: byte)
    requires Level(depth, l) && Advanced(l.config, b).Some?
    requires LexemeKind(l.config.state).Some? && LexemeKind(Advanced(l.config, b).value.state).Some?
    ensures Level(depth, Fed(l, b))
  {
    StepTurns(l.config.state, Top(l.config.stack), b);
    if l.config.state == InIdent && LexemeKind(Advanced(l.config, b).value.state) == Some(Ident) {
      NavigationIdent(l.config.state, Top(l.config.stack), b);
    }
  }

  lemma FedOpensLexeme(depth: nat, l: Lexing, b: byte)
    requires Level(depth, l) && Advanced(l.config, b).Some?
    requires LexemeKind(l.config.state).None? && LexemeKind(Advanced(l.config, b).value.state).Some?
    ensures Level(depth, Fed(l, b))
  {
    var s, top := l.config.state, Top(l.config.stack);
    StepTurns(s, top, b);
    GapEventsDepth(EventsDepth(depth, l.events).value, l.seg, l.anchor);
    EventsDepthConcat(depth, l.events, GapEvents(l.seg, l.anchor));
    if (s == AfterDollar || s == AfterDot) && LexemeKind(Advanced(l.config, b).value.state) == Some(Ident) {
      NavigationIdent(s, top, b);
    }
  }

  lemma FedInGap(depth: nat, l: Lexing, b: byte)
    requires Level(depth, l) && Advanced(l.config, b).Some?
    requires LexemeKind(l.config.state).None? && LexemeKind(Advanced(l.config, b).value.state).None?
    ensures Level(depth, Fed(l, b))
  {
    GapDepthSnoc(EventsDepth(depth, l.events).value, l.seg, b);
    GapByteDepth(l.config, b);
  }

  lemma FedKeepsLevel(depth: nat, l: Lexing, b: byte)
    requires Level(depth, l) && Advanced(l.config, b).Some?
    ensures Level(depth, Fed(l, b))
  {
    var opens := LexemeKind(Advanced(l.config, b).value.state).Some?;
    if LexemeKind(l.config.state).Some? {
      if opens { FedInLexeme(depth, l, b); } else { FedClosesLexeme(depth, l, b); }
    } else {
      if opens { FedOpensLexeme(depth, l, b); } else { FedInGap(depth, l, b); }
    }
  }

  lemma {:induction false} FedAllKeepsLevel(depth: nat, l: Lexing, bytes: seq<byte>)
    requires Level(depth, l) && Run(l.config, bytes).Some?
    ensures Level(depth, FedAll(l, bytes))
    decreases |bytes|
  {
    if bytes != [] {
      FedKeepsLevel(depth, l, bytes[0]);
      FedAllKeepsLevel(depth, Fed(l, bytes[0]), bytes[1..]);
    }
  }

  // ----- the invariant -----

  /** Tracker and automaton in lockstep: equal heights, well-shaped save stacks, and one shared open lexeme. */
  ghost predicate Locked(s: Scope, c: Config) {
    && InStep(s, c)
    && Framed(s)
    && s.depth == |c.stack|
    && (s.pending.Some? ==> OpensPlainly(s.pending.value.buf) && AnchorFits(s.pending.value.anchor, c.state))
  }

  lemma LockedIsLevel(s: Scope, c: Config)
    requires Locked(s, c)
    ensures Level(s.depth, Resumed(s.pending, c))
  {
  }

  lemma FlushedLevel(depth: nat, l: Lexing)
    requires Level(depth, l)
    ensures EventsDepth(depth, Flushed(l)) == Some(|l.config.stack|)
  {
    if LexemeKind(l.config.state).None? {
      GapEventsDepth(EventsDepth(depth, l.events).value, l.seg, l.anchor);
      EventsDepthConcat(depth, l.events, GapEvents(l.seg, l.anchor));
    }
  }

  lemma PendingStaysPlain(s: Scope, c: Config, l: Lexing)
    requires InStep(s, c) && Level(s.depth, l)
    requires Continues(s.pending, c) && l.events == [] ==> l.anchor == s.pending.value.anchor
    ensures var p := PendingAfter(s, l, Continues(s.pending, c));
            p.Some? ==> OpensPlainly(p.value.buf) && AnchorFits(p.value.anchor, l.config.state)
  {
  }

  /** Every committed token keeps tracker and automaton in lockstep. */
  lemma ObservedKeepsLocked(s: Scope, c: Config, bytes: seq<byte>, schema: Schema)
    requires Locked(s, c) && Run(c, bytes).Some?
    ensures Locked(Observed(s, c, bytes, schema), Run(c, bytes).value)
  {
    var l := Lexed(s, c, bytes);
    var t := Observed(s, c, bytes, schema);
    LockedIsLevel(s, c);
    FedAllKeepsLevel(s.depth, Resumed(s.pending, c), bytes);
    FlushedLevel(s.depth, l);
    DispatchAllKeepsFramed(s.(pending := None), Flushed(l), schema);
    ObservedFields(s, c, bytes, schema);
    ObservedInStep(s, c, bytes, schema);
    if Continues(s.pending, c) { NoEventsSameLexeme(Resumed(s.pending, c), bytes); }
    PendingStaysPlain(t.(pending := s.pending, depth := s.depth), c, l);
  }

  /** Whole token runs. */
  ghost function ObservedAll(s: Scope, c: Config, tokens: seq<seq<byte>>, schema: Schema): Scope
    requires RunTokens(c, tokens).Some?
    decreases |tokens|
  {
    if tokens == [] then s
    else ObservedAll(Observed(s, c, tokens[0], schema), Run(c, tokens[0]).value, tokens[1..], schema)
  }

  function RunTokens(c: Config, tokens: seq<seq<byte>>): Option<Config>
    decreases |tokens|
  {
    if tokens == [] then Some(c)
    else match Run(c, tokens[0]) case None => None case Some(d) => RunTokens(d, tokens[1..])
  }

  lemma {:induction false} RunTokensSnoc(s: Scope, c: Config, tokens: seq<seq<byte>>, token: seq<byte>, schema: Schema)
    requires RunTokens(c, tokens).Some? && Run(RunTokens(c, tokens).value, token).Some?
    ensures RunTokens(c, tokens + [token]) == Run(RunTokens(c, tokens).value, token)
    ensures ObservedAll(s, c, tokens + [token], schema)
         == Observed(ObservedAll(s, c, tokens, schema), RunTokens(c, tokens).value, token, schema)
    decreases |tokens|
  {
    var more := tokens + [token];
    if tokens == [] {
      assert more == [token] && more[1..] == [];
    } else {
      assert more[0] == tokens[0] && more[1..] == tokens[1..] + [token];
      RunTokensSnoc(Observed(s, c, tokens[0], schema), Run(c, tokens[0]).value, tokens[1..], token, schema);
    }
  }

  /** A token run from the start of a stream leads to this scope and configuration. */
  ghost predicate LeadsTo(tokens: seq<seq<byte>>, s: Scope, c: Config, schema: Schema) {
    RunTokens(INITIAL, tokens) == Some(c) && ObservedAll(FRESH, INITIAL, tokens, schema) == s
  }

  lemma LeadsOn(tokens: seq<seq<byte>>, s: Scope, c: Config, token: seq<byte>, schema: Schema)
    requires LeadsTo(tokens, s, c, schema) && Run(c, token).Some?
    ensures LeadsTo(tokens + [token], Observed(s, c, token, schema), Run(c, token).value, schema)
  {
    RunTokensSnoc(FRESH, INITIAL, tokens, token, schema);
  }

  lemma {:induction false} RunsKeepLocked(s: Scope, c: Config, tokens: seq<seq<byte>>, schema: Schema)
    requires Locked(s, c) && RunTokens(c, tokens).Some?
    ensures Locked(ObservedAll(s, c, tokens, schema), RunTokens(c, tokens).value)
    decreases |tokens|
  {
    if tokens != [] {
      ObservedKeepsLocked(s, c, tokens[0], schema);
      RunsKeepLocked(Observed(s, c, tokens[0], schema), Run(c, tokens[0]).value, tokens[1..], schema);
    }
  }

  /** The invariant holds over every token run from the start of a stream. */
  lemma EveryRunIsLocked(tokens: seq<seq<byte>>, schema: Schema)
    requires RunTokens(INITIAL, tokens).Some?
    ensures Locked(ObservedAll(FRESH, INITIAL, tokens, schema), RunTokens(INITIAL, tokens).value)
  {
    RunsKeepLocked(FRESH, INITIAL, tokens, schema);
  }

  /** The pending buffer is exactly the bytes since the open lexeme began, whatever the tokens were. */
  function OpenTail(c: Config, tail: seq<byte>, bytes: seq<byte>): seq<byte>
    requires Run(c, bytes).Some?
    decreases |bytes|
  {
    if bytes == [] then tail
    else
      var next := Advanced(c, bytes[0]).value;
      var tail1 :=
        if LexemeKind(next.state).None? then []
        else if LexemeKind(c.state) == LexemeKind(next.state) then tail + [bytes[0]]
        else [bytes[0]];
      OpenTail(next, tail1, bytes[1..])
  }

  lemma {:induction false} FedAllTail(l: Lexing, bytes: seq<byte>, tail: seq<byte>)
    requires Run(l.config, bytes).Some?
    requires LexemeKind(l.config.state).Some? ==> tail == l.seg
    ensures LexemeKind(FedAll(l, bytes).config.state).Some? ==>
              FedAll(l, bytes).seg == OpenTail(l.config, tail, bytes)
    decreases |bytes|
  {
    if bytes != [] {
      var next := Advanced(l.config, bytes[0]).value;
      if LexemeKind(l.config.state).Some? && LexemeKind(next.state).Some? {
        StepTurns(l.config.state, Top(l.config.stack), bytes[0]);
      }
      var tail1 :=
        if LexemeKind(next.state).None? then []
        else if LexemeKind(l.config.state) == LexemeKind(next.state) then tail + [bytes[0]]
        else [bytes[0]];
      FedAllTail(Fed(l, bytes[0]), bytes[1..], tail1);
    }
  }

  lemma PendingIsOpenTail(s: Scope, c: Config, bytes: seq<byte>, schema: Schema)
    requires Locked(s, c) && Run(c, bytes).Some?
    ensures var t := Observed(s, c, bytes, schema);
            t.pending.Some? ==> t.pending.value.buf == OpenTail(c, NarrowPrefix(s), bytes)
  {
    FedAllTail(Resumed(s.pending, c), bytes, NarrowPrefix(s));
    ObservedFields(s, c, bytes, schema);
  }

  lemma {:induction false} OpenTailConcat(c: Config, tail: seq<byte>, xs: seq<byte>, ys: seq<byte>)
    requires Run(c, xs + ys).Some?
    ensures Run(c, xs).Some? && Run(Run(c, xs).value, ys).Some?
    ensures OpenTail(c, tail, xs + ys) == OpenTail(Run(c, xs).value, OpenTail(c, tail, xs), ys)
    decreases |xs|
  {
    RunConcat(c, xs, ys);
    if xs == [] {
      assert xs + ys == ys;
    } else {
      assert (xs + ys)[0] == xs[0] && (xs + ys)[1..] == xs[1..] + ys;
      var next := Advanced(c, xs[0]).value;
      var tail1 :=
        if LexemeKind(next.state).None? then []
        else if LexemeKind(c.state) == LexemeKind(next.state) then tail + [xs[0]]
        else [xs[0]];
      OpenTailConcat(next, tail1, xs[1..], ys);
    }
  }

  /** Outside lexemes the tail carried in does not matter. */
  lemma TailForgotten(c: Config, tail1: seq<byte>, tail2: seq<byte>, bytes: seq<byte>)
    requires Run(c, bytes).Some? && (LexemeKind(c.state).None? || tail1 == tail2)
    ensures LexemeKind(Run(c, bytes).value.state).Some? ==> OpenTail(c, tail1, bytes) == OpenTail(c, tail2, bytes)
  {
  }

  /** Over any run, the pending buffer is the tail of the whole stream since its open lexeme began. */
  lemma {:induction false} RunPendingIsOpenTail(s: Scope, c: Config, tokens: seq<seq<byte>>, schema: Schema)
    requires Locked(s, c) && RunTokens(c, tokens).Some?
    ensures Run(c, Joined(tokens)) == RunTokens(c, tokens)
    ensures var t := ObservedAll(s, c, tokens, schema);
            t.pending.Some? ==> t.pending.value.buf == OpenTail(c, NarrowPrefix(s), Joined(tokens))
    decreases |tokens|
  {
    if tokens != [] {
      var s1, c1 := Observed(s, c, tokens[0], schema), Run(c, tokens[0]).value;
      RunConcat(c, tokens[0], Joined(tokens[1..]));
      ObservedKeepsLocked(s, c, tokens[0], schema);
      RunsKeepLocked(s1, c1, tokens[1..], schema);
      PendingIsOpenTail(s, c, tokens[0], schema);
      RunPendingIsOpenTail(s1, c1, tokens[1..], schema);
      OpenTailConcat(c, NarrowPrefix(s), tokens[0], Joined(tokens[1..]));
      TailForgotten(c1, NarrowPrefix(s1), OpenTail(c, NarrowPrefix(s), tokens[0]), Joined(tokens[1..]));
    }
  }

  // ----- the fused navigation target -----

  /** Whenever a fused target exists and a `.name` token is admissible, its dot is a real navigation. */
  lemma FusedTargetNavigates(s: Scope, c: Config, schema: Schema, token: seq<byte>)
    requires Locked(s, c) && FusedNavPosition(s, schema).Some?
    requires |token| >= 2 && token[0] == DOT && IsIdentStart(token[1]) && Run(c, token).Some?
    ensures Advanced(c, DOT) == Some(Config(AfterDot, c.stack))
  {
    var mid := Advanced(c, DOT).value;
    assert Run(mid, token[1..]).Some? && token[1..][0] == token[1];
    if s.pending.None? {
      DotThenIdent(c.state, Top(c.stack), token[1]);
    }
  }
}
