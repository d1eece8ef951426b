/** Tokens that lie inside one segment of the stream: one structural gap, or one lexeme. */
module Segments {
  import opened Bytes
  import opened Automaton
  import opened Runs
  import opened Model
  import opened Scopes
  import opened Tokenization

  /** Every byte leads to a structural position. */
  predicate StaysInGap(c: Config, bytes: seq<byte>)
    decreases |bytes|
  {
    bytes != [] ==>
      match Advanced(c, bytes[0])
      case None => false
      case Some(d) => LexemeKind(d.state).None? && StaysInGap(d, bytes[1..])
  }

  /** Every byte leads into a lexeme of the kind. */
  predicate StaysInLexeme(kind: LexKind, c: Config, bytes: seq<byte>)
    decreases |bytes|
  {
    bytes != [] ==>
      match Advanced(c, bytes[0])
      case None => false
      case Some(d) => LexemeKind(d.state) == Some(kind) && StaysInLexeme(kind, d, bytes[1..])
  }

  lemma {:induction false} GapRuns(c: Config, bytes: seq<byte>)
    requires StaysInGap(c, bytes)
    ensures Run(c, bytes).Some?
    ensures bytes != [] ==> LexemeKind(Run(c, bytes).value.state).None?
    decreases |bytes|
  {
    if bytes != [] { GapRuns(Advanced(c, bytes[0]).value, bytes[1..]); }
  }

  lemma {:induction false} LexemeRuns(kind: LexKind, c: Config, bytes: seq<byte>)
    requires StaysInLexeme(kind, c, bytes)
    ensures Run(c, bytes).Some?
    ensures bytes != [] ==> LexemeKind(Run(c, bytes).value.state) == Some(kind)
    decreases |bytes|
  {
    if bytes != [] { LexemeRuns(kind, Advanced(c, bytes[0]).value, bytes[1..]); }
  }

  lemma {:induction false} GapConcatStays(c: Config, xs: seq<byte>, ys: seq<byte>)
    requires Run(c, xs).Some?
    ensures StaysInGap(c, xs + ys) <==> StaysInGap(c, xs) && StaysInGap(Run(c, xs).value, ys)
    decreases |xs|
  {
    if xs == [] {
      assert xs + ys == ys;
    } else {
      assert (xs + ys)[0] == xs[0] && (xs + ys)[1..] == xs[1..] + ys;
      GapConcatStays(Advanced(c, xs[0]).value, xs[1..], ys);
    }
  }

  lemma {:induction false} LexemeConcatStays(kind: LexKind, c: Config, xs: seq<byte>, ys: seq<byte>)
    requires Run(c, xs).Some?
    ensures StaysInLexeme(kind, c, xs + ys) <==> StaysInLexeme(kind, c, xs) && StaysInLexeme(kind, Run(c, xs).value, ys)
    decreases |xs|
  {
    if xs == [] {
      assert xs + ys == ys;
    } else {
      assert (xs + ys)[0] == xs[0] && (xs + ys)[1..] == xs[1..] + ys;
      LexemeConcatStays(kind, Advanced(c, xs[0]).value, xs[1..], ys);
    }
  }

  lemma HeadAndTail(seg: seq<byte>, bytes: seq<byte>)
    requires bytes != []
    ensures seg + [bytes[0]] + bytes[1..] == seg + bytes
  {
  }

  // ----- gaps -----

  lemma {:induction false} GapFed(l: Lexing, bytes: seq<byte>)
    requires LexemeKind(l.config.state).None? && StaysInGap(l.config, bytes) && Run(l.config, bytes).Some?
    ensures FedAll(l, bytes) == Lexing(Run(l.config, bytes).value, l.events, l.seg + bytes, l.anchor)
    decreases |bytes|
  {
    if bytes == [] {
      assert l.seg + bytes == l.seg;
    } else {
      GapFed(Lexing(Advanced(l.config, bytes[0]).value, l.events, l.seg + [bytes[0]], l.anchor), bytes[1..]);
      HeadAndTail(l.seg, bytes);
    }
  }

  lemma GapFedAfterLexeme(l: Lexing, bytes: seq<byte>)
    requires LexemeKind(l.config.state).Some? && bytes != []
    requires StaysInGap(l.config, bytes) && Run(l.config, bytes).Some?
    ensures FedAll(l, bytes)
         == Lexing(Run(l.config, bytes).value, l.events + [Event(l.seg, l.anchor)], bytes, l.config.state)
  {
    GapFed(Fed(l, bytes[0]), bytes[1..]);
    assert [bytes[0]] + bytes[1..] == bytes;
  }

  /** The scope once the open lexeme is closed. */
  ghost function Settled(s: Scope, schema: Schema): Scope {
    match s.pending
    case Some(p) => Dispatch(s.(pending := None), p.buf, p.anchor, schema)
    case None => s
  }

  lemma GapLexed(s: Scope, c: Config, gap: seq<byte>)
    requires InStep(s, c) && gap != [] && StaysInGap(c, gap) && Run(c, gap).Some?
    ensures LexemeKind(Lexed(s, c, gap).config.state).None?
    ensures s.pending.None? ==> Flushed(Lexed(s, c, gap)) == GapEvents(gap, c.state)
    ensures s.pending.Some? ==>
              Flushed(Lexed(s, c, gap))
              == [Event(s.pending.value.buf, s.pending.value.anchor)] + GapEvents(gap, c.state)
  {
    GapRuns(c, gap);
    if s.pending.Some? {
      GapFedAfterLexeme(Resumed(s.pending, c), gap);
      assert [] + [Event(s.pending.value.buf, s.pending.value.anchor)]
          == [Event(s.pending.value.buf, s.pending.value.anchor)];
    } else {
      GapFed(Resumed(s.pending, c), gap);
      assert [] + gap == gap && [] + GapEvents(gap, c.state) == GapEvents(gap, c.state);
    }
  }

  /** A purely structural token closes the open lexeme and dispatches the lexemes of its gap. */
  lemma GapObserved(s: Scope, c: Config, gap: seq<byte>, schema: Schema)
    requires InStep(s, c) && gap != [] && StaysInGap(c, gap)
    ensures Run(c, gap).Some? && Settled(s, schema).pending.None?
    ensures Observed(s, c, gap, schema) == DispatchAll(Settled(s, schema), GapEvents(gap, c.state), schema)
  {
    GapRuns(c, gap);
    GapLexed(s, c, gap);
    ObservedFields(s, c, gap, schema);
    var bare, events := s.(pending := None), GapEvents(gap, c.state);
    match s.pending {
      case Some(p) =>
        var open := Event(p.buf, p.anchor);
        DispatchAllConcat(bare, [open], events, schema);
        DispatchOne(bare, open, schema);
        DispatchKeepsPending(bare, p.buf, p.anchor, schema);
      case None =>
        assert bare == s;
    }
    DispatchAllKeepsPending(Settled(s, schema), events, schema);
  }

  // ----- lexemes -----

  lemma FedInSameLexeme(kind: LexKind, l: Lexing, b: byte)
    requires LexemeKind(l.config.state) == Some(kind) && Advanced(l.config, b).Some?
    requires LexemeKind(Advanced(l.config, b).value.state) == Some(kind)
    ensures Fed(l, b) == Lexing(Advanced(l.config, b).value, l.events, l.seg + [b], l.anchor)
  {
  }

  lemma {:induction false} LexemeFed(kind: LexKind, l: Lexing, bytes: seq<byte>)
    requires LexemeKind(l.config.state) == Some(kind) && StaysInLexeme(kind, l.config, bytes)
    requires Run(l.config, bytes).Some?
    ensures FedAll(l, bytes) == Lexing(Run(l.config, bytes).value, l.events, l.seg + bytes, l.anchor)
    decreases |bytes|
  {
    if bytes == [] {
      assert l.seg + bytes == l.seg;
    } else {
      var next := Advanced(l.config, bytes[0]).value;
      FedInSameLexeme(kind, l, bytes[0]);
      LexemeFed(kind, Lexing(next, l.events, l.seg + [bytes[0]], l.anchor), bytes[1..]);
      HeadAndTail(l.seg, bytes);
    }
  }

  /** A token that opens a lexeme and stays in it is buffered under the rule of its anchor. */
  lemma LexemeOpened(kind: LexKind, s: Scope, c: Config, bytes: seq<byte>, schema: Schema)
    requires s.pending.None? && LexemeKind(c.state).None? && bytes != [] && StaysInLexeme(kind, c, bytes)
    ensures Run(c, bytes).Some?
    ensures Observed(s, c, bytes, schema)
         == s.(pending := Some(Pending(kind, bytes, c.state, Stamp(s, c.state))))
  {
    LexemeRuns(kind, c, bytes);
    var l := Resumed(s.pending, c);
    LexemeFed(kind, Fed(l, bytes[0]), bytes[1..]);
    assert [bytes[0]] + bytes[1..] == bytes;
    assert l.events + GapEvents(l.seg, l.anchor) == [];
    assert Flushed(Lexed(s, c, bytes)) == [];
    assert s.(pending := None) == s;
  }

  /** A token that stays in the open lexeme only lengthens its buffer. */
  lemma LexemeLengthened(s: Scope, c: Config, bytes: seq<byte>, schema: Schema)
    requires InStep(s, c) && s.pending.Some? && StaysInLexeme(s.pending.value.kind, c, bytes)
    ensures Run(c, bytes).Some?
    ensures Observed(s, c, bytes, schema)
         == s.(pending := Some(s.pending.value.(buf := s.pending.value.buf + bytes)))
  {
    LexemeRuns(s.pending.value.kind, c, bytes);
    LexemeFed(s.pending.value.kind, Resumed(s.pending, c), bytes);
    assert Flushed(Lexed(s, c, bytes)) == [];
  }
}
