/** Scope tracking does not depend on how the stream was cut into tokens. */
module Tokenization {
  import opened Bytes
  import opened Automaton
  import opened Runs
  import opened Model
  import opened Lexemes
  import opened Scopes

  // ----- the lexing of a concatenation -----

  lemma {:induction false} FedAllReaches(l: Lexing, bytes: seq<byte>)
    requires Run(l.config, bytes).Some?
    ensures FedAll(l, bytes).config == Run(l.config, bytes).value
    decreases |bytes|
  {
    if bytes != [] { FedAllReaches(Fed(l, bytes[0]), bytes[1..]); }
  }

  lemma HeadOfConcat(xs: seq<byte>, ys: seq<byte>)
    requires xs != []
    ensures (xs + ys)[0] == xs[0] && (xs + ys)[1..] == xs[1..] + ys
  {
  }

  lemma {:induction false} FedAllConcat(l: Lexing, xs: seq<byte>, ys: seq<byte>)
    requires Run(l.config, xs + ys).Some?
    ensures Run(l.config, xs).Some? && Run(FedAll(l, xs).config, ys).Some?
    ensures FedAll(l, xs + ys) == FedAll(FedAll(l, xs), ys)
    decreases |xs|
  {
    if xs == [] {
      assert xs + ys == ys;
    } else {
      HeadOfConcat(xs, ys);
      FedAllConcat(Fed(l, xs[0]), xs[1..], ys);
    }
  }

  function After(pre: seq<Event>, l: Lexing): Lexing {
    l.(events := pre + l.events)
  }

  lemma FedAfter(pre: seq<Event>, l: Lexing, b: byte)
    requires Advanced(l.config, b).Some?
    ensures Fed(After(pre, l), b) == After(pre, Fed(l, b))
  {
    var gap := GapEvents(l.seg, l.anchor);
    assert pre + l.events + [Event(l.seg, l.anchor)] == pre + (l.events + [Event(l.seg, l.anchor)]);
    assert pre + l.events + gap == pre + (l.events + gap);
  }

  lemma {:induction false} FedAllAfter(pre: seq<Event>, l: Lexing, bytes: seq<byte>)
    requires Run(l.config, bytes).Some?
    ensures FedAll(After(pre, l), bytes) == After(pre, FedAll(l, bytes))
    decreases |bytes|
  {
    if bytes != [] {
      FedAfter(pre, l, bytes[0]);
      FedAllAfter(pre, Fed(l, bytes[0]), bytes[1..]);
    }
  }

  /** While no lexeme has closed, the open one keeps its kind and its anchor. */
  lemma {:induction false} NoEventsSameLexeme(l: Lexing, bytes: seq<byte>)
    requires Run(l.config, bytes).Some? && LexemeKind(l.config.state).Some?
    ensures FedAll(l, bytes).events == l.events || |FedAll(l, bytes).events| > |l.events|
    ensures FedAll(l, bytes).events == l.events ==>
              FedAll(l, bytes).anchor == l.anchor &&
                  LexemeKind(FedAll(l, bytes).config.state) == LexemeKind(l.config.state)
    decreases |bytes|
  {
    if bytes != [] {
      var one := Fed(l, bytes[0]);
      if LexemeKind(one.config.state).Some? {
        NoEventsSameLexeme(one, bytes[1..]);
      } else {
        EventsGrow(one, bytes[1..]);
      }
    }
  }

  lemma {:induction false} EventsGrow(l: Lexing, bytes: seq<byte>)
    requires Run(l.config, bytes).Some?
    ensures |FedAll(l, bytes).events| >= |l.events|
    decreases |bytes|
  {
    if bytes != [] { EventsGrow(Fed(l, bytes[0]), bytes[1..]); }
  }

  // ----- dispatch and the pending buffer -----

  lemma RestoringKeepsPending(s: Scope)
    ensures BindersRestored(s).pending == s.pending && BodiesRestored(s).pending == s.pending
    decreases |s.binderSaves| + |s.scopeSaves|
  {
  }

  lemma IdentKeepsPending(s: Scope, text: Name, pre: State, schema: Schema)
    ensures OnIdent(s, text, pre, schema).0.pending == s.pending
  {
    AnchoredKeepsPending(Sourced(s, text, schema), text, pre, schema);
  }

  lemma AnchoredKeepsPending(s: Scope, text: Name, pre: State, schema: Schema)
    ensures Anchored(s, text, pre, schema).0.pending == s.pending
  {
  }

  lemma ActedKeepsPending(s: Scope, lex: Lexeme, pre: State, schema: Schema)
    ensures Acted(s, lex, pre, schema).0.pending == s.pending
  {
    match lex
    case Identifier(text) => IdentKeepsPending(s, text, pre, schema);
    case CloseDelim =>
      RestoringKeepsPending(s);
      RestoringKeepsPending(BindersRestored(s));
    case PipeOp => PipeKeepsPending(s, pre);
    case _ =>
  }

  lemma PipeKeepsPending(s: Scope, pre: State)
    ensures OnPipe(s, pre).pending == s.pending
  {
  }

  lemma DispatchKeepsPending(s: Scope, bytes: seq<byte>, pre: State, schema: Schema)
    ensures Dispatch(s, bytes, pre, schema).pending == s.pending
  {
    ActedKeepsPending(s, Classify(bytes), pre, schema);
  }

  lemma {:induction false} DispatchAllKeepsPending(s: Scope, events: seq<Event>, schema: Schema)
    ensures DispatchAll(s, events, schema).pending == s.pending
    decreases |events|
  {
    if events != [] {
      DispatchKeepsPending(s, events[0].bytes, events[0].anchor, schema);
      DispatchAllKeepsPending(Dispatch(s, events[0].bytes, events[0].anchor, schema), events[1..], schema);
    }
  }

  lemma DispatchOne(s: Scope, e: Event, schema: Schema)
    ensures DispatchAll(s, [e], schema) == Dispatch(s, e.bytes, e.anchor, schema)
  {
    assert [e][1..] == [];
  }

  lemma {:induction false} DispatchAllConcat(s: Scope, es: seq<Event>, fs: seq<Event>, schema: Schema)
    ensures DispatchAll(s, es + fs, schema) == DispatchAll(DispatchAll(s, es, schema), fs, schema)
    decreases |es|
  {
    if es == [] {
      assert es + fs == fs;
    } else {
      assert (es + fs)[0] == es[0] && (es + fs)[1..] == es[1..] + fs;
      DispatchAllConcat(Dispatch(s, es[0].bytes, es[0].anchor, schema), es[1..], fs, schema);
    }
  }

  // ----- the cut -----

  /** The pending lexeme is the one the automaton is inside. */
  predicate InStep(s: Scope, c: Config) {
    match s.pending
    case Some(p) => LexemeKind(c.state) == Some(p.kind)
    case None => LexemeKind(c.state).None?
  }

  /** A cut between two adjacent structural bytes. */
  predicate CutsAGap(c: Config, xs: seq<byte>, ys: seq<byte>)
    requires Run(c, xs + ys).Some?
  {
    && xs != [] && ys != []
    && Run(c, xs).Some? && LexemeKind(Run(c, xs).value.state).None?
    && Run(c, xs + ys[..1]).Some? && LexemeKind(Run(c, xs + ys[..1]).value.state).None?
  }

  lemma ObservedFields(s: Scope, c: Config, bytes: seq<byte>, schema: Schema)
    requires Run(c, bytes).Some?
    ensures var t := Observed(s, c, bytes, schema);
            var l := Lexed(s, c, bytes);
            && t.(pending := None) == DispatchAll(s.(pending := None), Flushed(l), schema)
            && t.pending == PendingAfter(t.(pending := s.pending), l, Continues(s.pending, c))
            && l.config == Run(c, bytes).value
  {
    DispatchAllKeepsPending(s.(pending := None), Flushed(Lexed(s, c, bytes)), schema);
    FedAllReaches(Resumed(s.pending, c), bytes);
  }

  /** Being in step is kept by every token. */
  lemma ObservedInStep(s: Scope, c: Config, bytes: seq<byte>, schema: Schema)
    requires InStep(s, c) && Run(c, bytes).Some?
    ensures InStep(Observed(s, c, bytes, schema), Run(c, bytes).value)
  {
    ObservedFields(s, c, bytes, schema);
    if Continues(s.pending, c) {
      NoEventsSameLexeme(Resumed(s.pending, c), bytes);
    }
  }

  /** Inside a lexeme, the next token resumes the very segment the last one left open. */
  lemma ResumesLexeme(s: Scope, c: Config, xs: seq<byte>, schema: Schema)
    requires InStep(s, c) && Run(c, xs).Some? && LexemeKind(Run(c, xs).value.state).Some?
    ensures var l := Lexed(s, c, xs);
            l == After(Flushed(l), Resumed(Observed(s, c, xs, schema).pending, Run(c, xs).value))
  {
    ObservedFields(s, c, xs, schema);
    ObservedInStep(s, c, xs, schema);
    if Continues(s.pending, c) { NoEventsSameLexeme(Resumed(s.pending, c), xs); }
    var l := Lexed(s, c, xs);
    assert l.events + [] == l.events;
  }

  /** Outside lexemes, flushing the gap early changes nothing when the next byte opens a lexeme. */
  lemma ResumesGap(l: Lexing, b: byte)
    requires LexemeKind(l.config.state).None?
    requires Advanced(l.config, b).Some? && LexemeKind(Advanced(l.config, b).value.state).Some?
    ensures Fed(l, b) == After(Flushed(l), Fed(Lexing(l.config, [], [], l.config.state), b))
  {
    assert Flushed(l) + [] == Flushed(l);
  }

  /** The second token resumes exactly where the first one's lexing stands. */
  lemma ResumesThere(s: Scope, c: Config, c1: Config, xs: seq<byte>, ys: seq<byte>, schema: Schema)
    requires InStep(s, c) && Run(c, xs) == Some(c1) && Run(c1, ys).Some? && Run(c, xs + ys).Some?
    requires !CutsAGap(c, xs, ys) && ys != []
    ensures Lexed(s, c, xs + ys) == After(Flushed(Lexed(s, c, xs)), Lexed(Observed(s, c, xs, schema), c1, ys))
  {
    var l1, s1 := Lexed(s, c, xs), Observed(s, c, xs, schema);
    FedAllReaches(Resumed(s.pending, c), xs);
    FedAllConcat(Resumed(s.pending, c), xs, ys);
    if LexemeKind(c1.state).Some? {
      ResumesLexeme(s, c, xs, schema);
      FedAllAfter(Flushed(l1), Resumed(s1.pending, c1), ys);
    } else {
      ObservedFields(s, c, xs, schema);
      if xs == [] {
        assert After([], Lexed(s1, c1, ys)) == Lexed(s1, c1, ys);
      } else {
        NotAGapCut(c, c1, xs, ys);
        ResumesGap(l1, ys[0]);
        FedAllAfter(Flushed(l1), Fed(Resumed(s1.pending, c1), ys[0]), ys[1..]);
      }
    }
  }

  lemma NotAGapCut(c: Config, c1: Config, xs: seq<byte>, ys: seq<byte>)
    requires Run(c, xs) == Some(c1) && Run(c1, ys).Some? && Run(c, xs + ys).Some?
    requires xs != [] && ys != [] && !CutsAGap(c, xs, ys) && LexemeKind(c1.state).None?
    ensures Advanced(c1, ys[0]).Some? && LexemeKind(Advanced(c1, ys[0]).value.state).Some?
  {
    assert ys[..1] == [ys[0]];
    RunSnoc(c, xs, ys[0]);
  }

  /** The open lexeme after the cut, from the two lexings and the scopes alone. */
  lemma PendingAcrossCut(s: Scope, s1: Scope, s2: Scope, l1: Lexing, l2: Lexing, lw: Lexing, goesOn: bool,
                         goesOn1: bool)
    requires lw == After(Flushed(l1), l2)
    requires s1.pending == PendingAfter(s1.(pending := s.pending), l1, goesOn)
    requires goesOn ==> s.pending.Some? && (l1.events == [] ==> LexemeKind(l1.config.state).Some?)
    requires goesOn1 <==> LexemeKind(l1.config.state).Some?
    requires goesOn1 && l2.events == [] ==> l2.anchor == l1.anchor
    requires goesOn1 && l2.events == [] ==> LexemeKind(l2.config.state) == LexemeKind(l1.config.state)
    requires Flushed(l2) == [] ==> s2.(pending := None) == s1.(pending := None)
    requires LexemeKind(l1.config.state).Some? && goesOn && l1.events == [] ==>
              LexemeKind(l1.config.state) == Some(s.pending.value.kind)
    ensures PendingAfter(s2.(pending := s1.pending), l2, goesOn1) == PendingAfter(s2.(pending := s.pending), lw, goesOn)
  {
    if LexemeKind(l2.config.state).Some? && goesOn1 && l2.events == [] {
      assert OpeningPosition(s2, l1.anchor) == OpeningPosition(s2.(pending := None), l1.anchor);
      assert OpeningPosition(s1, l1.anchor) == OpeningPosition(s1.(pending := None), l1.anchor);
    }
  }

  /** Observing `xs` and then `ys` leaves the whole tracker as observing `xs + ys` does, for every cut
      except one between two adjacent structural bytes. */
  lemma CutsDoNotMatter(s: Scope, c: Config, xs: seq<byte>, ys: seq<byte>, schema: Schema)
    requires InStep(s, c) && Run(c, xs + ys).Some? && !CutsAGap(c, xs, ys)
    ensures Run(c, xs).Some? && Run(Run(c, xs).value, ys).Some?
    ensures Observed(Observed(s, c, xs, schema), Run(c, xs).value, ys, schema) == Observed(s, c, xs + ys, schema)
  {
    RunConcat(c, xs, ys);
    var c1, s1 := Run(c, xs).value, Observed(s, c, xs, schema);
    ObservedFields(s, c, xs, schema);
    ObservedInStep(s, c, xs, schema);
    if ys == [] {
      assert xs + ys == xs;
      ObservedNothing(s1, c1, schema);
    } else {
      ObservedFields(s1, c1, ys, schema);
      ObservedFields(s, c, xs + ys, schema);
      ResumesThere(s, c, c1, xs, ys, schema);
      var es, fs := Flushed(Lexed(s, c, xs)), Flushed(Lexed(s1, c1, ys));
      FlushedAfter(es, Lexed(s1, c1, ys));
      DispatchAllConcat(s.(pending := None), es, fs, schema);
      if Continues(s.pending, c) { NoEventsSameLexeme(Resumed(s.pending, c), xs); }
      if Continues(s1.pending, c1) { NoEventsSameLexeme(Resumed(s1.pending, c1), ys); }
      PendingAcrossCut(s, s1, Observed(s1, c1, ys, schema), Lexed(s, c, xs), Lexed(s1, c1, ys), Lexed(s, c, xs + ys),
        Continues(s.pending, c), Continues(s1.pending, c1));
    }
  }

  lemma FlushedAfter(pre: seq<Event>, l: Lexing)
    ensures Flushed(After(pre, l)) == pre + Flushed(l)
  {
    assert pre + l.events + GapEvents(l.seg, l.anchor) == pre + (l.events + GapEvents(l.seg, l.anchor));
  }

  lemma ObservedNothing(s: Scope, c: Config, schema: Schema)
    requires InStep(s, c)
    ensures Observed(s, c, [], schema) == s
  {
    ObservedFields(s, c, [], schema);
  }
}
