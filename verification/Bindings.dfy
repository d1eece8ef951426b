/** What a variable stands for anywhere in a run, read off the lexemes alone: the binder pipe that is in force, and
    the class its call was made on. */
module Bindings {
  import opened Bytes
  import opened Automaton
  import opened Runs
  import opened Model
  import opened Lexemes
  import opened Scopes
  import opened Lockstep
  import Scoping
  import opened WholeRuns
  import Lambdas
  import opened Lexical

  // ----- what a call is made on -----

  /** The receiver an arrow has handed on and no delimiter has taken before lexeme `i`. */
  ghost function HandedAt(events: seq<Event>, schema: Schema, scopes: seq<Scope>, i: nat): Option<Option<Name>>
    requires |events| < |scopes|
    requires i <= |events|
  {
    if i == 0 then None
    else
      match Classify(events[i - 1].bytes)
      case ArrowOp => Some(Lambdas.ReceiverOf(scopes[i - 1]))
      case OpenDelim => None
      case CloseDelim => None
      case _ => HandedAt(events, schema, scopes, i - 1)
  }

  /** The class the delimiter that lexeme `k` opens is opened on: what an arrow handed on, else the pipeline's own. */
  ghost function OpenedOn(events: seq<Event>, schema: Schema, scopes: seq<Scope>, k: nat): Option<Name>
    requires |events| < |scopes|
    requires k <= |events|
  {
    match HandedAt(events, schema, scopes, k)
    case Some(receiver) => receiver
    case None => scopes[k].curClass
  }

  ghost function ReceiversOf(events: seq<Event>, schema: Schema, scopes: seq<Scope>, o: seq<nat>): seq<Option<Name>>
    requires |events| < |scopes|
    requires forall m :: 0 <= m < |o| ==> o[m] <= |events|
  {
    if o == [] then []
    else ReceiversOf(events, schema, scopes, o[..|o| - 1]) + [OpenedOn(events, schema, scopes, o[|o| - 1])]
  }

  lemma HandedAfter(s: Scope, e: Event, schema: Schema)
    ensures Dispatch(s, e.bytes, e.anchor, schema).pendingArrowReceiver
         == match Classify(e.bytes)
            case ArrowOp => Some(Lambdas.ReceiverOf(s))
            case OpenDelim => None
            case CloseDelim => None
            case _ => s.pendingArrowReceiver
  {
    match Classify(e.bytes)
    case Identifier(text) => AnchoredKeepsHanded(Sourced(s, text, schema), text, e.anchor, schema);
    case PipeOp => PipeKeepsHanded(s, e.anchor);
    case DotOp => DotKeepsHanded(s);
    case _ =>
  }

  lemma AnchoredKeepsHanded(s: Scope, text: Name, pre: State, schema: Schema)
    ensures Anchored(s, text, pre, schema).0.pendingArrowReceiver == s.pendingArrowReceiver
  {
  }

  lemma PipeKeepsHanded(s: Scope, pre: State)
    ensures OnPipe(s, pre).pendingArrowReceiver == s.pendingArrowReceiver
  {
  }

  lemma DotKeepsHanded(s: Scope)
    ensures OnDot(s).pendingArrowReceiver == s.pendingArrowReceiver
  {
  }

  lemma {:induction false} HandedIsAt(events: seq<Event>, schema: Schema, scopes: seq<Scope>, i: nat)
    requires Trace(events, schema, scopes)
    requires i <= |events|
    ensures scopes[i].pendingArrowReceiver == HandedAt(events, schema, scopes, i)
  {
    TraceStarts(events, schema, scopes);
    if i > 0 {
      HandedIsAt(events, schema, scopes, i - 1);
      TraceStep(events, schema, scopes, i);
      HandedAfter(scopes[i - 1], events[i - 1], schema);
    }
  }

  /** What a lexeme does to the receivers. */
  predicate ReceiversAfter(s: Scope, t: Scope, lex: Lexeme) {
    t.parenReceiver ==
    if lex.OpenDelim? then
      s.parenReceiver + [if s.pendingArrowReceiver.Some? then s.pendingArrowReceiver.value else s.curClass]
    else if lex.CloseDelim? then DropLast(s.parenReceiver)
    else s.parenReceiver
  }

  lemma OpenerReceives(s: Scope, e: Event, schema: Schema)
    requires Classify(e.bytes).OpenDelim?
    ensures ReceiversAfter(s, Dispatch(s, e.bytes, e.anchor, schema), OpenDelim)
  {
  }

  lemma RestoringKeepsReceivers(s: Scope)
    ensures BindersRestored(s).parenReceiver == s.parenReceiver && BodiesRestored(s).parenReceiver == s.parenReceiver
    decreases |s.binderSaves| + |s.scopeSaves|
  {
  }

  lemma CloserDropsReceiver(s: Scope, e: Event, schema: Schema)
    requires Classify(e.bytes).CloseDelim?
    ensures ReceiversAfter(s, Dispatch(s, e.bytes, e.anchor, schema), CloseDelim)
  {
    RestoringKeepsReceivers(s);
    RestoringKeepsReceivers(BindersRestored(s));
  }

  lemma OthersKeepReceivers(s: Scope, e: Event, schema: Schema)
    requires !Classify(e.bytes).OpenDelim? && !Classify(e.bytes).CloseDelim?
    ensures Dispatch(s, e.bytes, e.anchor, schema).parenReceiver == s.parenReceiver
  {
    match Classify(e.bytes)
    case Identifier(text) => IdentSameFrames(s, text, e.anchor, schema);
    case PipeOp => PipeAddsSaves(s, e.anchor);
    case lex => OthersSameFrames(s, lex, e.anchor, schema);
  }

  lemma DispatchReceives(s: Scope, e: Event, schema: Schema, t: Scope)
    requires t == Dispatch(s, e.bytes, e.anchor, schema)
    ensures ReceiversAfter(s, t, Classify(e.bytes))
  {
    if Classify(e.bytes).OpenDelim? { OpenerReceives(s, e, schema); }
    else if Classify(e.bytes).CloseDelim? { CloserDropsReceiver(s, e, schema); }
    else { OthersKeepReceivers(s, e, schema); }
  }

  lemma TraceReceives(events: seq<Event>, schema: Schema, scopes: seq<Scope>, i: nat) returns (lex: Lexeme)
    requires Trace(events, schema, scopes) && 0 < i <= |events|
    ensures lex == Classify(events[i - 1].bytes) && ReceiversAfter(scopes[i - 1], scopes[i], lex)
  {
    lex := Classify(events[i - 1].bytes);
    TraceStep(events, schema, scopes, i);
    DispatchReceives(scopes[i - 1], events[i - 1], schema, scopes[i]);
  }

  /** The receivers kept per delimiter are those the openers were opened on. */
  ghost predicate ReceiversMatch(events: seq<Event>, schema: Schema, scopes: seq<Scope>, o: seq<nat>, s: Scope)
    requires |events| < |scopes|
  {
    (forall m :: 0 <= m < |o| ==> o[m] <= |events|) && s.parenReceiver == ReceiversOf(events, schema, scopes, o)
  }

  lemma ReceiversGoOn(events: seq<Event>, schema: Schema, scopes: seq<Scope>, o: seq<nat>, k: nat, lex: Lexeme,
                      after: seq<nat>, t: Scope)
    requires k < |events| < |scopes| && ReceiversMatch(events, schema, scopes, o, scopes[k])
    requires scopes[k].pendingArrowReceiver == HandedAt(events, schema, scopes, k)
    requires ReceiversAfter(scopes[k], t, lex) && after == OpenersAfter(o, lex, k) && (lex.CloseDelim? ==> o != [])
    ensures ReceiversMatch(events, schema, scopes, after, t)
  {
    if lex.OpenDelim? { ReceiversAdded(events, schema, scopes, o, k); }
  }

  lemma ReceiversAdded(events: seq<Event>, schema: Schema, scopes: seq<Scope>, o: seq<nat>, k: nat)
    requires |events| < |scopes| && k <= |events| && forall m :: 0 <= m < |o| ==> o[m] <= |events|
    ensures ReceiversOf(events, schema, scopes, o + [k])
         == ReceiversOf(events, schema, scopes, o) + [OpenedOn(events, schema, scopes, k)]
  {
    assert (o + [k])[..|o|] == o;
  }

  lemma NoReceiversYet(events: seq<Event>, schema: Schema, scopes: seq<Scope>)
    requires |events| < |scopes|
    ensures ReceiversMatch(events, schema, scopes, [], FRESH)
  {
  }

  lemma {:induction false} ReceiversAreAt(events: seq<Event>, schema: Schema, scopes: seq<Scope>, i: nat)
    requires Trace(events, schema, scopes) && i <= |events| && EventsDepth(0, events).Some?
    ensures ReceiversMatch(events, schema, scopes, Openers(events, i), scopes[i])
  {
    if i == 0 {
      TraceStarts(events, schema, scopes);
      NoReceiversYet(events, schema, scopes);
    } else {
      ReceiversAreAt(events, schema, scopes, i - 1);
      var lex := TraceReceives(events, schema, scopes, i);
      OpenersNext(events, i, lex);
      ReceiversStep(events, schema, scopes, i, Openers(events, i - 1), lex, Openers(events, i));
    }
  }

  lemma ReceiversStep(events: seq<Event>, schema: Schema, scopes: seq<Scope>, i: nat, o: seq<nat>, lex: Lexeme,
                      after: seq<nat>)
    requires Trace(events, schema, scopes) && 0 < i <= |events|
    requires ReceiversMatch(events, schema, scopes, o, scopes[i - 1])
    requires ReceiversAfter(scopes[i - 1], scopes[i], lex)
    requires after == OpenersAfter(o, lex, i - 1) && (lex.CloseDelim? ==> o != [])
    ensures ReceiversMatch(events, schema, scopes, after, scopes[i])
  {
    HandedIsAt(events, schema, scopes, i - 1);
    ReceiversGoOn(events, schema, scopes, o, i - 1, lex, after, scopes[i]);
  }

  // ----- what a pipe binds -----

  /** The name a binder pipe that is lexeme `i` would bind: the last one read where a value or a type begins, unless a
      delimiter, a comma or another binder pipe has come since. */
  ghost function CandidateAt(events: seq<Event>, schema: Schema, i: nat): Option<Name>
    requires i <= |events|
  {
    if i == 0 then None
    else
      var before, e := CandidateAt(events, schema, i - 1), events[i - 1];
      match Classify(e.bytes)
      case Identifier(text) =>
        if e.anchor == ExpectValue || e.anchor == ExpectValueReq then Some(text)
        else if (e.anchor == AfterColon || e.anchor == AfterColonWs) && !schema.HasClass(text) then Some(text)
        else before
      case OpenDelim => None
      case CommaSep => None
      case PipeOp => if e.anchor == Start || e.anchor == ExpectSource then before else None
      case _ => before
  }

  lemma CandidateAfter(s: Scope, e: Event, schema: Schema)
    ensures Dispatch(s, e.bytes, e.anchor, schema).lambdaFirstIdent
         == match Classify(e.bytes)
            case Identifier(text) =>
              (if e.anchor == ExpectValue || e.anchor == ExpectValueReq then Some(text)
               else if (e.anchor == AfterColon || e.anchor == AfterColonWs) && !schema.HasClass(text) then Some(text)
               else s.lambdaFirstIdent)
            case OpenDelim => None
            case CommaSep => None
            case PipeOp => if e.anchor == Start || e.anchor == ExpectSource then s.lambdaFirstIdent else None
            case _ => s.lambdaFirstIdent
  {
    match Classify(e.bytes)
    case Identifier(text) => NameIsCandidate(Sourced(s, text, schema), text, e.anchor, schema);
    case CloseDelim => CloseKeepsFirst(s);
    case PipeOp => PipeTakesCandidate(s, e.anchor);
    case DotOp => DotKeepsCandidate(s);
    case ArrowOp => ArrowKeepsCandidate(s);
    case _ =>
  }

  lemma NameIsCandidate(s: Scope, text: Name, pre: State, schema: Schema)
    ensures Anchored(s, text, pre, schema).0.lambdaFirstIdent
         == if pre == ExpectValue || pre == ExpectValueReq then Some(text)
            else if (pre == AfterColon || pre == AfterColonWs) && !schema.HasClass(text) then Some(text)
            else s.lambdaFirstIdent
  {
  }

  lemma RestoringKeepsFirst(s: Scope)
    ensures BindersRestored(s).lambdaFirstIdent == s.lambdaFirstIdent
    ensures BodiesRestored(s).lambdaFirstIdent == s.lambdaFirstIdent
    decreases |s.binderSaves| + |s.scopeSaves|
  {
  }

  lemma CloseKeepsFirst(s: Scope)
    ensures OnClose(s).lambdaFirstIdent == s.lambdaFirstIdent
  {
    RestoringKeepsFirst(s);
    RestoringKeepsFirst(BindersRestored(s));
  }

  lemma PipeTakesCandidate(s: Scope, pre: State)
    ensures OnPipe(s, pre).lambdaFirstIdent == if pre == Start || pre == ExpectSource then s.lambdaFirstIdent else None
  {
  }

  lemma DotKeepsCandidate(s: Scope)
    ensures OnDot(s).lambdaFirstIdent == s.lambdaFirstIdent
  {
  }

  lemma ArrowKeepsCandidate(s: Scope)
    ensures OnArrow(s).lambdaFirstIdent == s.lambdaFirstIdent
  {
  }

  lemma {:induction false} CandidateIsAt(events: seq<Event>, schema: Schema, scopes: seq<Scope>, i: nat)
    requires Trace(events, schema, scopes)
    requires i <= |events|
    ensures scopes[i].lambdaFirstIdent == CandidateAt(events, schema, i)
  {
    TraceStarts(events, schema, scopes);
    if i > 0 {
      CandidateIsAt(events, schema, scopes, i - 1);
      TraceStep(events, schema, scopes, i);
      CandidateAfter(scopes[i - 1], events[i - 1], schema);
    }
  }

  // ----- what a variable stands for -----

  /** A variable ranges over a class, is a row of a relation, has no known type, or is not bound. */
  datatype Meaning = Ranges(class_: Name) | Row | Untyped | Unbound

  function MeaningOf(s: Scope, v: Name): Meaning {
    if v in s.relationRowVars then Row
    else if v !in s.varClass then Unbound
    else match s.varClass[v] case Some(c) => Ranges(c) case None => Untyped
  }

  /** What a binder of a delimiter opened on `receiver` stands for, in a pipeline of state `b`. */
  function BoundTo(receiver: Option<Name>, b: Scoping.Body): Meaning {
    match receiver
    case Some(c) => Ranges(c)
    case None => if b.relExplicit && b.sawTilde then Row else Untyped
  }

  /** What a pipe makes of a variable's meaning. */
  function PipeMeaning(binds: bool, candidate: Option<Name>, v: Name, receiver: Option<Name>, b: Scoping.Body,
                       before: Meaning): Meaning {
    if binds && v != [] && candidate == Some(v) then BoundTo(receiver, b) else before
  }

  /** The receiver of the innermost delimiter around lexeme `i`. */
  ghost function InnermostReceiver(events: seq<Event>, schema: Schema, scopes: seq<Scope>, i: nat): Option<Name>
    requires |events| < |scopes|
    requires i <= |events|
  {
    var o := Openers(events, i);
    if o == [] || o[|o| - 1] > |events| then None else OpenedOn(events, schema, scopes, o[|o| - 1])
  }

  /** What a variable stands for before lexeme `i`, without any saving: a closer goes back to before its opener, and a
      binder pipe binds its candidate to the innermost receiver. */
  ghost function MeaningAt(events: seq<Event>, schema: Schema, scopes: seq<Scope>, i: nat, v: Name): Meaning
    requires |events| < |scopes|
    requires i <= |events|
    decreases i
  {
    if i == 0 then Unbound
    else
      var lex, o := Classify(events[i - 1].bytes), Openers(events, i - 1);
      if lex.CloseDelim? && o != [] && o[|o| - 1] < i then MeaningAt(events, schema, scopes, o[|o| - 1], v)
      else if Scoping.IsBinderPipe(events[i - 1]) && v != [] && CandidateAt(events, schema, i - 1) == Some(v) then
        BoundTo(InnermostReceiver(events, schema, scopes, i - 1), Scoping.BodyOf(scopes[i - 1]))
      else MeaningAt(events, schema, scopes, i - 1, v)
  }

  lemma PipeBinds(s: Scope, pre: State, v: Name)
    ensures MeaningOf(OnPipe(s, pre), v)
         == if !IsOpeningPipe(pre) && v != [] && s.lambdaFirstIdent == Some(v)
            then BoundTo(Flatten(Top(s.parenReceiver)), Scoping.BodyOf(s))
            else MeaningOf(s, v)
  {
  }

  lemma OthersBindNothing(s: Scope, e: Event, schema: Schema, v: Name)
    requires !Classify(e.bytes).PipeOp? && !Classify(e.bytes).CloseDelim?
    ensures MeaningOf(Dispatch(s, e.bytes, e.anchor, schema), v) == MeaningOf(s, v)
  {
    match Classify(e.bytes)
    case Identifier(text) => IdentSameFrames(s, text, e.anchor, schema);
    case OpenDelim =>
    case lex => OthersSameFrames(s, lex, e.anchor, schema);
  }

  ghost predicate MeaningFits(events: seq<Event>, schema: Schema, scopes: seq<Scope>, i: nat, v: Name)
    requires |events| < |scopes|
    requires i <= |events|
  {
    MeaningOf(scopes[i], v) == MeaningAt(events, schema, scopes, i, v)
  }

  lemma InnermostReceives(events: seq<Event>, schema: Schema, scopes: seq<Scope>, i: nat)
    requires Trace(events, schema, scopes)
    requires i <= |events| && ReceiversMatch(events, schema, scopes, Openers(events, i), scopes[i])
    ensures Flatten(Top(scopes[i].parenReceiver)) == InnermostReceiver(events, schema, scopes, i)
  {
  }

  lemma PipeReads(events: seq<Event>, schema: Schema, scopes: seq<Scope>, i: nat)
    requires Trace(events, schema, scopes) && EventsDepth(0, events).Some? && i <= |events|
    ensures scopes[i].lambdaFirstIdent == CandidateAt(events, schema, i)
    ensures Flatten(Top(scopes[i].parenReceiver)) == InnermostReceiver(events, schema, scopes, i)
  {
    CandidateIsAt(events, schema, scopes, i);
    ReceiversAreAt(events, schema, scopes, i);
    InnermostReceives(events, schema, scopes, i);
  }

  lemma PipeFitsMeaning(events: seq<Event>, schema: Schema, scopes: seq<Scope>, i: nat, v: Name)
    requires Trace(events, schema, scopes) && EventsDepth(0, events).Some? && 0 < i <= |events|
    requires MeaningFits(events, schema, scopes, i - 1, v) && Classify(events[i - 1].bytes).PipeOp?
    ensures MeaningFits(events, schema, scopes, i, v)
  {
    PipeReads(events, schema, scopes, i - 1);
    TracePipe(events, schema, scopes, i, v);
    MeaningAtPipe(events, schema, scopes, i, v);
  }

  lemma TracePipe(events: seq<Event>, schema: Schema, scopes: seq<Scope>, i: nat, v: Name)
    requires Trace(events, schema, scopes) && 0 < i <= |events| && Classify(events[i - 1].bytes).PipeOp?
    ensures var s := scopes[i - 1];
            MeaningOf(scopes[i], v)
            == PipeMeaning(Scoping.IsBinderPipe(events[i - 1]), s.lambdaFirstIdent, v, Flatten(Top(s.parenReceiver)),
                           Scoping.BodyOf(s), MeaningOf(s, v))
  {
    TraceStep(events, schema, scopes, i);
    PipeMoves(scopes[i - 1], events[i - 1], schema, v);
  }

  lemma MeaningAtPipe(events: seq<Event>, schema: Schema, scopes: seq<Scope>, i: nat, v: Name)
    requires Trace(events, schema, scopes)
    requires 0 < i <= |events| && Classify(events[i - 1].bytes).PipeOp?
    ensures MeaningAt(events, schema, scopes, i, v)
         == PipeMeaning(Scoping.IsBinderPipe(events[i - 1]), CandidateAt(events, schema, i - 1), v,
                        InnermostReceiver(events, schema, scopes, i - 1), Scoping.BodyOf(scopes[i - 1]),
                        MeaningAt(events, schema, scopes, i - 1, v))
  {
  }

  lemma MeaningAtCloser(events: seq<Event>, schema: Schema, scopes: seq<Scope>, i: nat, k: nat, v: Name)
    requires |events| < |scopes|
    requires 0 < i <= |events| && Classify(events[i - 1].bytes).CloseDelim? && k < i
    requires Openers(events, i - 1) != [] && k == Top(Openers(events, i - 1)).value
    ensures MeaningAt(events, schema, scopes, i, v) == MeaningAt(events, schema, scopes, k, v)
  {
  }

  lemma MeaningAtOther(events: seq<Event>, schema: Schema, scopes: seq<Scope>, i: nat, v: Name)
    requires Trace(events, schema, scopes)
    requires 0 < i <= |events| && !Classify(events[i - 1].bytes).PipeOp? && !Classify(events[i - 1].bytes).CloseDelim?
    ensures MeaningAt(events, schema, scopes, i, v) == MeaningAt(events, schema, scopes, i - 1, v)
  {
  }

  lemma KeptMeaning(s: Scope, t: Scope, v: Name)
    requires BindingsKept(s, t)
    ensures MeaningOf(t, v) == MeaningOf(s, v)
  {
  }

  lemma PipeMoves(s: Scope, e: Event, schema: Schema, v: Name)
    requires Classify(e.bytes).PipeOp?
    ensures MeaningOf(Dispatch(s, e.bytes, e.anchor, schema), v) == MeaningOf(OnPipe(s, e.anchor), v)
    ensures MeaningOf(OnPipe(s, e.anchor), v)
         == if Scoping.IsBinderPipe(e) && v != [] && s.lambdaFirstIdent == Some(v)
            then BoundTo(Flatten(Top(s.parenReceiver)), Scoping.BodyOf(s))
            else MeaningOf(s, v)
  {
    PipeBinds(s, e.anchor, v);
  }

  lemma CloserKeepsMeaning(events: seq<Event>, schema: Schema, scopes: seq<Scope>, i: nat, k: nat, v: Name)
    requires Trace(events, schema, scopes) && EventsDepth(0, events).Some?
    requires 0 < i <= |events| && Matched(events, k, i - 1)
    ensures MeaningOf(scopes[i], v) == MeaningOf(scopes[k], v)
  {
    KeptAlong(events, schema, scopes, k, i - 1);
    assert scopes[i - 1 + 1] == scopes[i];
    KeptMeaning(scopes[k], scopes[i], v);
  }

  lemma KeptAlong(events: seq<Event>, schema: Schema, scopes: seq<Scope>, k: nat, j: nat)
    requires Trace(events, schema, scopes) && EventsDepth(0, events).Some? && Matched(events, k, j)
    ensures BindingsKept(scopes[k], scopes[j + 1])
  {
    MatchRestoresBindings(events, schema, k, j);
    TraceIsBefore(events, schema, scopes, k);
    TraceIsBefore(events, schema, scopes, j + 1);
  }

  lemma CloserFitsMeaning(events: seq<Event>, schema: Schema, scopes: seq<Scope>, i: nat, k: nat, v: Name)
    requires Trace(events, schema, scopes) && EventsDepth(0, events).Some?
    requires 0 < i <= |events| && Matched(events, k, i - 1)
    requires Openers(events, i - 1) != [] && k == Top(Openers(events, i - 1)).value
    requires MeaningFits(events, schema, scopes, k, v)
    ensures MeaningFits(events, schema, scopes, i, v)
  {
    CloserKeepsMeaning(events, schema, scopes, i, k, v);
    MeaningAtCloser(events, schema, scopes, i, k, v);
  }

  lemma OtherFitsMeaning(events: seq<Event>, schema: Schema, scopes: seq<Scope>, i: nat, v: Name)
    requires Trace(events, schema, scopes)
    requires 0 < i <= |events| && MeaningFits(events, schema, scopes, i - 1, v)
    requires !Classify(events[i - 1].bytes).PipeOp? && !Classify(events[i - 1].bytes).CloseDelim?
    ensures MeaningFits(events, schema, scopes, i, v)
  {
    TraceStep(events, schema, scopes, i);
    OthersBindNothing(scopes[i - 1], events[i - 1], schema, v);
    MeaningAtOther(events, schema, scopes, i, v);
  }

  lemma {:induction false} MeaningIsAt(events: seq<Event>, schema: Schema, scopes: seq<Scope>, i: nat, v: Name)
    requires Trace(events, schema, scopes)
    requires EventsDepth(0, events).Some? && i <= |events|
    ensures MeaningFits(events, schema, scopes, i, v)
    decreases i
  {
    TraceStarts(events, schema, scopes);
    if i > 0 {
      if Classify(events[i - 1].bytes).CloseDelim? {
        var k := CloserMatches(events, i);
        MeaningIsAt(events, schema, scopes, k, v);
        CloserFitsMeaning(events, schema, scopes, i, k, v);
      } else {
        MeaningIsAt(events, schema, scopes, i - 1, v);
        if Classify(events[i - 1].bytes).PipeOp? {
          PipeFitsMeaning(events, schema, scopes, i, v);
        } else {
          OtherFitsMeaning(events, schema, scopes, i, v);
        }
      }
    }
  }

  /** Over every run from the start of a stream, a variable stands for what the lexemes say: the save stacks keep
      exactly the lexical scope. */
  lemma RunBindsLexically(tokens: seq<seq<byte>>, events: seq<Event>, schema: Schema, scopes: seq<Scope>, v: Name)
    requires OfARun(events, tokens, schema) && Trace(events, schema, scopes)
    ensures MeaningOf(ObservedAll(FRESH, INITIAL, tokens, schema), v) == MeaningAt(events, schema, scopes, |events|, v)
  {
    RunScope(tokens, events, schema);
    TraceIsBefore(events, schema, scopes, |events|);
    MeaningIsAt(events, schema, scopes, |events|, v);
  }
}
