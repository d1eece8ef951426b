/** What the masks say of a dot: alone, fused with a name, and behind a quoted column. */
module DotMasks {
  import opened Bytes
  import opened Automaton
  import opened Runs
  import opened Model
  import opened Compiled
  import opened Tries
  import opened Lexemes
  import opened Scopes
  import Tokenization
  import opened Lockstep
  import Quoting
  import Segments
  import opened Narrowing
  import opened Navigation
  import opened Sessions

  // ----- the parts of a mask -----

  /** A token is in the schema mask when it is live and both passes keep it. */
  lemma MaskParts(c: Config, s: Scope, schema: Schema, vocab: Vocab, id: nat)
    requires id < vocab.Len()
    ensures id in L2Mask(c, s, schema, vocab)
       <==> Run(c, vocab.tokens[id]).Some? && Kept(s, c.state, schema, vocab, id) && FusedKept(s, schema, vocab, id)
  {
  }

  /** What the fused pass asks of a token: there is no fused target, the token is no dot and identifier, or the
      target has a name for it. */
  ghost predicate PassesFused(s: Scope, schema: Schema, token: seq<byte>) {
    || FusedNavPosition(s, schema).None?
    || FusedPostDot(token).None?
    || FusedKeeps(LegalNames(FusedNavPosition(s, schema).value, s.emitted, schema), token)
  }

  lemma FusedKeptIsPassing(s: Scope, schema: Schema, vocab: Vocab, id: nat)
    requires id < vocab.Len()
    ensures FusedKept(s, schema, vocab, id) <==> PassesFused(s, schema, vocab.tokens[id])
  {
    FusedIsNavigation(s, schema);
  }

  // ----- the invariant -----

  /** Only a value position puts an open lexeme under the column rule, and none carries the operand rule. */
  predicate Ruled(s: Scope) {
    s.pending.Some? ==>
      (s.pending.value.pos.Column? ==> AtValue(s.pending.value.anchor)) && !s.pending.value.pos.ReValue?
  }

  /** Everything proved of the tracker and the automaton together over a run. */
  ghost predicate OnTrack(s: Scope, c: Config) {
    Locked(s, c) && Steers(s, c) && Quoting.PendingFits(s, c) && Ruled(s)
  }

  lemma PendingAfterRuled(s: Scope, t: Scope, l: Lexing, goesOn: bool)
    requires Ruled(s) && t.pending == PendingAfter(t.(pending := s.pending), l, goesOn)
    ensures Ruled(t)
  {
  }

  lemma ObservedOnTrack(s: Scope, c: Config, bytes: seq<byte>, schema: Schema)
    requires OnTrack(s, c) && Run(c, bytes).Some?
    ensures OnTrack(Observed(s, c, bytes, schema), Run(c, bytes).value)
  {
    ObservedKeepsLocked(s, c, bytes, schema);
    ObservedSteers(s, c, bytes, schema);
    Quoting.RecordedStringsAreFaithful(s, c, bytes, schema);
    Tokenization.ObservedFields(s, c, bytes, schema);
    PendingAfterRuled(s, Observed(s, c, bytes, schema), Lexed(s, c, bytes), Continues(s.pending, c));
  }

  lemma {:induction false} RunsStayOnTrack(s: Scope, c: Config, tokens: seq<seq<byte>>, schema: Schema)
    requires OnTrack(s, c) && RunTokens(c, tokens).Some?
    ensures OnTrack(ObservedAll(s, c, tokens, schema), RunTokens(c, tokens).value)
    decreases |tokens|
  {
    if tokens != [] {
      ObservedOnTrack(s, c, tokens[0], schema);
      RunsStayOnTrack(Observed(s, c, tokens[0], schema), Run(c, tokens[0]).value, tokens[1..], schema);
    }
  }

  /** The invariant holds over every token run from the start of a stream. */
  lemma EveryRunIsOnTrack(tokens: seq<seq<byte>>, schema: Schema)
    requires RunTokens(INITIAL, tokens).Some?
    ensures OnTrack(ObservedAll(FRESH, INITIAL, tokens, schema), RunTokens(INITIAL, tokens).value)
  {
    RunsStayOnTrack(FRESH, INITIAL, tokens, schema);
  }

  // ----- quoted columns -----

  /** A byte read inside a string is read the same whatever lies on the stack. */
  lemma StringByte(escaped: bool, top: Option<Frame>, b: byte)
    ensures match StepOf(InStrLit(escaped), None, b)
            case Next(InStrLit(next)) => StepOf(InStrLit(escaped), top, b) == Next(InStrLit(next))
            case _ => true
  {
  }

  lemma {:induction false} StringRunStays(escaped: bool, stack: seq<Frame>, body: seq<byte>)
    requires StringRun(escaped, body).Some?
    ensures Segments.StaysInLexeme(Str, Config(InStrLit(escaped), stack), body)
    decreases |body|
  {
    if body != [] {
      StringByte(escaped, Top(stack), body[0]);
      StringRunStays(StepOf(InStrLit(escaped), None, body[0]).state.escaped, stack, body[1..]);
    }
  }

  lemma {:induction false} StringRunConcat(escaped: bool, xs: seq<byte>, ys: seq<byte>)
    ensures StringRun(escaped, xs + ys)
         == match StringRun(escaped, xs) case None => None case Some(e) => StringRun(e, ys)
    decreases |xs|
  {
    if xs == [] {
      assert xs + ys == ys;
    } else {
      Tokenization.HeadOfConcat(xs, ys);
      match StepOf(InStrLit(escaped), None, xs[0])
      case Next(InStrLit(next)) => StringRunConcat(next, xs[1..], ys);
      case _ =>
    }
  }

  lemma DoubledByte(b: byte, bytes: seq<byte>)
    requires bytes == if b == QUOTE then [QUOTE, QUOTE] else [b]
    ensures StringRun(false, bytes) == Some(false)
  {
    if b == QUOTE {
      assert [QUOTE][1..] == [] && bytes == [QUOTE] + [QUOTE];
      StringRunConcat(false, [QUOTE], [QUOTE]);
    } else {
      assert bytes[1..] == [];
    }
  }

  lemma {:induction false} DoubledRun(content: seq<byte>)
    ensures StringRun(false, Doubled(content)) == Some(false)
  {
    if content != [] {
      var head := if content[0] == QUOTE then [QUOTE, QUOTE] else [content[0]];
      DoubledByte(content[0], head);
      DoubledRun(content[1..]);
      StringRunConcat(false, head, Doubled(content[1..]));
    }
  }

  /** A quoted content is read to its end without leaving the string. */
  lemma QuotedRun(content: seq<byte>)
    ensures Quote(content)[0] == QUOTE && StringRun(false, Quote(content)[1..]) == Some(true)
  {
    assert Quote(content)[1..] == Doubled(content) + [QUOTE];
    DoubledRun(content);
    StringRunConcat(false, Doubled(content), [QUOTE]);
    assert [QUOTE][1..] == [];
  }

  /** At a value position every quoted column is read as one string. */
  lemma QuotedStays(c: Config, content: seq<byte>)
    requires AtValue(c.state)
    ensures Segments.StaysInLexeme(Str, c, Quote(content))
  {
    QuotedRun(content);
    StringRunStays(false, c.stack, Quote(content)[1..]);
  }

  // ----- a dot behind an open lexeme -----

  lemma DotLedClassifies(token: seq<byte>)
    requires token != [] && token[0] == DOT
    ensures Classify(token) == DotOp || Classify(token) == OtherOp
  {
    assert !IsAsciiWs(token[0]);
  }

  /** The first pass keeps every dot-led token, unless a lexeme is open under the column rule. */
  lemma DotLedIsKept(s: Scope, state: State, schema: Schema, vocab: Vocab, id: nat)
    requires id < vocab.Len() && vocab.tokens[id] != [] && vocab.tokens[id][0] == DOT
    requires s.pending.Some? ==> LexemeKind(state).Some? && !s.pending.value.pos.Column?
    ensures Kept(s, state, schema, vocab, id)
  {
    DotLedClassifies(vocab.tokens[id]);
  }

  /** Behind a string that a dot can close, no quoted column goes on with the dot. */
  lemma NoColumnGoesOn(columns: seq<seq<byte>>, buf: seq<byte>)
    requires buf != [] && buf[0] == QUOTE && StringRun(false, buf[1..]) == Some(true)
    ensures !Live(set c | c in columns :: Quote(c), buf + [DOT])
  {
    var longer := buf + [DOT];
    forall c | c in columns ensures !(longer <= Quote(c)) {
      if longer <= Quote(c) {
        QuotedRun(c);
        var rest := Quote(c)[|longer|..];
        assert Quote(c)[1..] == buf[1..] + ([DOT] + rest);
        StringRunConcat(false, buf[1..], [DOT] + rest);
      }
    }
  }

  lemma JudgedAtTheDot(names: set<Name>, p: seq<byte>, token: seq<byte>)
    requires token != [] && token[0] == DOT && !Live(names, p + [DOT])
    ensures Judge(names, p, token) == if p in names then Completes else Diverges
  {
  }

  /** Under the column rule a dot-led token is judged by its dot alone. */
  lemma DotLedBehindColumn(s: Scope, c: Config, schema: Schema, vocab: Vocab, dot: nat, id: nat)
    requires Quoting.PendingFits(s, c) && s.pending.Some? && s.pending.value.pos.Column?
    requires Advanced(c, DOT) == Some(Config(AfterDot, c.stack))
    requires id < vocab.Len() && vocab.tokens[id] != [] && vocab.tokens[id][0] == DOT
    requires dot < vocab.Len() && vocab.tokens[dot] == [DOT]
    ensures Kept(s, c.state, schema, vocab, id) <==> Kept(s, c.state, schema, vocab, dot)
  {
    var names, buf := LegalNames(Column, s.emitted, schema), s.pending.value.buf;
    if Judge(names, [], buf).Stays? && buf != [] {
      ColumnsAreOpenStrings(s.emitted, buf);
      NoColumnGoesOn(s.emitted, buf);
      JudgedAtTheDot(names, buf, vocab.tokens[id]);
      JudgedAtTheDot(names, buf, vocab.tokens[dot]);
    }
  }

  lemma ColumnsAreOpenStrings(columns: seq<seq<byte>>, buf: seq<byte>)
    requires buf != [] && Judge(set c | c in columns :: Quote(c), [], buf).Stays?
    ensures buf[0] == QUOTE
  {
    var names := set c | c in columns :: Quote(c);
    StayMeaning(names, [], buf);
    assert [] + buf == buf;
    var name :| name in names && buf <= name;
    var column :| column in columns && name == Quote(column);
    assert buf[0] == name[0];
  }

  /** Behind any open lexeme that a dot closes, the first pass judges a dot-led token by its dot alone. */
  lemma DotLedByItsDot(s: Scope, c: Config, schema: Schema, vocab: Vocab, dot: nat, id: nat)
    requires OnTrack(s, c) && Advanced(c, DOT) == Some(Config(AfterDot, c.stack))
    requires id < vocab.Len() && vocab.tokens[id] != [] && vocab.tokens[id][0] == DOT
    requires dot < vocab.Len() && vocab.tokens[dot] == [DOT]
    ensures Kept(s, c.state, schema, vocab, id) <==> Kept(s, c.state, schema, vocab, dot)
  {
    if s.pending.Some? && s.pending.value.pos.Column? {
      DotLedBehindColumn(s, c, schema, vocab, dot, id);
    } else {
      DotLedIsKept(s, c.state, schema, vocab, id);
      DotLedIsKept(s, c.state, schema, vocab, dot);
    }
  }

  // ----- a dot fused with a name -----

  /** Where a fused target is known, a live dot-led token is in the mask exactly when the target has a name for
      the identifier behind the dot, or no identifier is there. */
  lemma FusedTargetDecides(s: Scope, c: Config, schema: Schema, vocab: Vocab, id: nat)
    requires OnTrack(s, c) && FusedNavPosition(s, schema).Some?
    requires id < vocab.Len() && vocab.tokens[id] != [] && vocab.tokens[id][0] == DOT
    requires Run(c, vocab.tokens[id]).Some?
    ensures id in L2Mask(c, s, schema, vocab)
       <==> FusedKeeps(LegalNames(FusedNavPosition(s, schema).value, s.emitted, schema), vocab.tokens[id])
  {
    MaskParts(c, s, schema, vocab, id);
    FusedKeptIsPassing(s, schema, vocab, id);
    DotLedIsKept(s, c.state, schema, vocab, id);
  }

  /** However a real member or column is cut behind its dot, the fused token is in the mask. */
  lemma FusedFragmentInMask(s: Scope, c: Config, schema: Schema, vocab: Vocab, name: Name, f: seq<byte>, id: nat)
    requires OnTrack(s, c) && FusedNavPosition(s, schema).Some?
    requires name in LegalNames(FusedNavPosition(s, schema).value, s.emitted, schema) && f <= name
    requires id < vocab.Len() && vocab.tokens[id] == [DOT] + f && Run(c, vocab.tokens[id]).Some?
    ensures id in L2Mask(c, s, schema, vocab)
  {
    FusedTargetDecides(s, c, schema, vocab, id);
    FusedFragmentIsKept(LegalNames(FusedNavPosition(s, schema).value, s.emitted, schema), name, f, vocab.tokens[id]);
  }

  /** The masks along a dot and a name in two tokens. */
  ghost predicate AllowedApart(s: Scope, c: Config, schema: Schema, vocab: Vocab, dot: nat, split: nat)
    requires Run(c, [DOT]).Some?
  {
    && dot in L2Mask(c, s, schema, vocab)
    && split in L2Mask(Run(c, [DOT]).value, Observed(s, c, [DOT], schema), schema, vocab)
  }

  lemma NoPostDot(s: Scope, schema: Schema, vocab: Vocab, id: nat)
    requires id < vocab.Len() && FusedPostDot(vocab.tokens[id]).None?
    ensures FusedKept(s, schema, vocab, id)
  {
    FusedKeptIsPassing(s, schema, vocab, id);
  }

  /** Fusing a dot with its name matters to the masks in exactly one case. What two tokens may spell, one may; the
      one may spell more if and only if the dot reads a stale target that has no such name. */
  lemma FusionMattersToMasksIffStale(s: Scope, c: Config, schema: Schema, vocab: Vocab, dot: nat, split: nat,
                                     fused: nat)
    requires OnTrack(s, c) && Advanced(c, DOT) == Some(Config(AfterDot, c.stack))
    requires dot < vocab.Len() && split < vocab.Len() && fused < vocab.Len()
    requires vocab.tokens[dot] == [DOT] && vocab.tokens[fused] == [DOT] + vocab.tokens[split]
    requires vocab.tokens[split] != [] && IsIdentStart(vocab.tokens[split][0])
    ensures Run(c, [DOT]) == Some(Config(AfterDot, c.stack))
    ensures AllowedApart(s, c, schema, vocab, dot, split) ==> fused in L2Mask(c, s, schema, vocab)
    ensures var stale, t := StaleTarget(s), Observed(s, c, [DOT], schema);
            (fused in L2Mask(c, s, schema, vocab) && !AllowedApart(s, c, schema, vocab, dot, split))
            <==> Run(c, vocab.tokens[fused]).Some? && dot in L2Mask(c, s, schema, vocab)
                 && stale.Some? && Strays(LegalNames(stale.value, t.emitted, schema), vocab.tokens[split])
  {
    FusionMattersIffStale(s, c, schema, vocab, fused, split);
    var mid, t := Config(AfterDot, c.stack), Observed(s, c, [DOT], schema);
    RunConcat(c, [DOT], vocab.tokens[split]);
    DotLedByItsDot(s, c, schema, vocab, dot, fused);
    NoPostDot(s, schema, vocab, dot);
    NoPostDot(t, schema, vocab, split);
    MaskParts(c, s, schema, vocab, dot);
    MaskParts(c, s, schema, vocab, fused);
    MaskParts(mid, t, schema, vocab, split);
  }

  // ----- a dot behind a source path -----

  /** Behind an open identifier that starts no navigation, the position a dot leads to is unconstrained if and only
      if no earlier variable and no earlier navigation is left for it to read. */
  lemma SourceDotIsFreeIffNothingIsLeft(s: Scope, c: Config, schema: Schema)
    requires OnTrack(s, c) && Advanced(c, DOT) == Some(Config(AfterDot, c.stack))
    requires s.pending.Some? && s.pending.value.kind == Ident && !Navigates(s.pending.value.anchor)
    ensures Run(c, [DOT]) == Some(Config(AfterDot, c.stack))
    ensures Position(Observed(s, c, [DOT], schema), AfterDot).Unconstrained? <==> LeftOver(s).None?
    ensures LeftOver(s).Some? ==> Position(Observed(s, c, [DOT], schema), AfterDot) == LeftOver(s).value
  {
    DotLeads(s, c, schema);
    StaleIsNavigation(s);
  }
}
