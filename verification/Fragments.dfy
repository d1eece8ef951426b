/** Over the tracker and the automaton together, the mask never cuts off a legal name. */
module Fragments {
  import opened Bytes
  import opened Automaton
  import opened Transitions
  import opened Runs
  import opened Model
  import opened Compiled
  import Tries
  import Lexemes
  import opened Scopes
  import opened Tokenization
  import opened Lockstep
  import opened Segments
  import opened Narrowing
  import Navigation
  import opened DotMasks
  import opened Sessions

  predicate NamesTokens(pos: L2Position) {
    pos.SourceIdent? || pos.Member? || pos.Column? || pos.RelationColumn?
  }

  // ----- the tracker inside a name -----

  /** Where the bytes of a name have led from its anchor: its lexeme is open, under the rule of the anchor. */
  predicate Carried(kind: LexKind, s: Scope, c: Config, done: seq<byte>, t: Scope, d: Config) {
    && Run(c, done) == Some(d)
    && t == if done == [] then s else s.(pending := Some(Pending(kind, done, c.state, Position(s, c.state))))
  }

  lemma CarriedOn(kind: LexKind, s: Scope, c: Config, done: seq<byte>, t: Scope, d: Config, more: seq<byte>,
                  schema: Schema)
    requires s.pending.None? && LexemeKind(c.state).None? && NamesTokens(Position(s, c.state))
    requires Carried(kind, s, c, done, t, d) && StaysInLexeme(kind, c, done + more)
    ensures Run(d, more).Some?
    ensures Carried(kind, s, c, done + more, Observed(t, d, more, schema), Run(d, more).value)
  {
    LexemeConcatStays(kind, c, done, more);
    LexemeRuns(kind, c, done);
    LexemeRuns(kind, d, more);
    RunConcat(c, done, more);
    if more == [] {
      assert done + more == done;
      ObservedNothing(t, d, schema);
    } else if done == [] {
      assert done + more == more;
      LexemeOpened(kind, s, c, more, schema);
    } else {
      LexemeLengthened(t, d, more, schema);
    }
  }

  /** After any tokens that spell the start of a name, the tracker holds exactly that start, under the rule
      the name began with, and nothing else has changed. */
  lemma {:induction false} TrackerCarries(kind: LexKind, s: Scope, c: Config, fragments: seq<seq<byte>>, schema: Schema)
    requires s.pending.None? && LexemeKind(c.state).None? && NamesTokens(Position(s, c.state))
    requires StaysInLexeme(kind, c, Joined(fragments))
    ensures RunTokens(c, fragments).Some?
    ensures Carried(kind, s, c, Joined(fragments), ObservedAll(s, c, fragments, schema), RunTokens(c, fragments).value)
    decreases |fragments|
  {
    if fragments == [] {
      assert Run(c, []) == Some(c);
    } else {
      var n := |fragments| - 1;
      var front, last := fragments[..n], fragments[n];
      assert fragments == front + [last];
      JoinedSnoc(front, last);
      LexemeRuns(kind, c, Joined(fragments));
      RunConcat(c, Joined(front), last);
      LexemeConcatStays(kind, c, Joined(front), last);
      TrackerCarries(kind, s, c, front, schema);
      var t, d := ObservedAll(s, c, front, schema), RunTokens(c, front).value;
      CarriedOn(kind, s, c, Joined(front), t, d, last, schema);
      RunTokensSnoc(s, c, front, last, schema);
    }
  }

  // ----- block statements that may start with `let` -----

  predicate AtLet(state: State) {
    state == LetL || state == LetLe || state == LetLet
  }

  /** The bytes of a source name that starts like `let`: they are read as the keyword as far as they can be. */
  predicate StaysInLet(c: Config, bytes: seq<byte>)
    decreases |bytes|
  {
    bytes != [] ==>
      match Advanced(c, bytes[0])
      case None => false
      case Some(d) => (AtLet(d.state) || LexemeKind(d.state) == Some(Ident)) && StaysInLet(d, bytes[1..])
  }

  /** Past its first byte such a name has left the position it began at. */
  predicate LetLexing(l: Lexing) {
    if LexemeKind(l.config.state).Some? then LexemeKind(l.config.state) == Some(Ident) && AtLet(l.anchor)
    else AtLet(l.config.state) || l.config.state == BlockStmt || l.config.state == BlockStmtClose
  }

  lemma FedInLet(l: Lexing, b: byte)
    requires LetLexing(l) && Advanced(l.config, b).Some?
    requires l.config.state == BlockStmt || l.config.state == BlockStmtClose ==> b == LOWER_L
    requires var t := Advanced(l.config, b).value.state; AtLet(t) || LexemeKind(t) == Some(Ident)
    ensures LetLexing(Fed(l, b))
    ensures var t := Advanced(l.config, b).value.state; t != BlockStmt && t != BlockStmtClose
  {
    StepTurns(l.config.state, Top(l.config.stack), b);
  }

  lemma {:induction false} FedAllInLet(l: Lexing, bytes: seq<byte>)
    requires LetLexing(l) && StaysInLet(l.config, bytes) && Run(l.config, bytes).Some?
    requires (l.config.state == BlockStmt || l.config.state == BlockStmtClose) && bytes != [] ==> bytes[0] == LOWER_L
    ensures LetLexing(FedAll(l, bytes))
    decreases |bytes|
  {
    if bytes != [] {
      FedInLet(l, bytes[0]);
      FedAllInLet(Fed(l, bytes[0]), bytes[1..]);
    }
  }

  lemma {:induction false} LetRuns(c: Config, bytes: seq<byte>)
    requires StaysInLet(c, bytes)
    ensures Run(c, bytes).Some?
    ensures bytes != [] ==>
              AtLet(Run(c, bytes).value.state) || LexemeKind(Run(c, bytes).value.state) == Some(Ident)
    decreases |bytes|
  {
    if bytes != [] { LetRuns(Advanced(c, bytes[0]).value, bytes[1..]); }
  }

  lemma {:induction false} LetConcatStays(c: Config, xs: seq<byte>, ys: seq<byte>)
    requires StaysInLet(c, xs + ys)
    ensures StaysInLet(c, xs) && Run(c, xs).Some? && StaysInLet(Run(c, xs).value, ys)
    decreases |xs|
  {
    if xs == [] {
      assert xs + ys == ys;
    } else {
      HeadOfConcat(xs, ys);
      LetConcatStays(Advanced(c, xs[0]).value, xs[1..], ys);
    }
  }

  /** Inside such a name the tracker reports no constraint. */
  predicate Unruled(s: Scope, c: Config) {
    && InStep(s, c)
    && (AtLet(c.state) || (s.pending.Some? && AtLet(s.pending.value.anchor) && s.pending.value.kind == Ident
                           && s.pending.value.pos == Unconstrained))
  }

  lemma PendingInLet(s: Scope, t: Scope, l: Lexing, goesOn: bool)
    requires LetLexing(l) && t.pending == PendingAfter(t.(pending := s.pending), l, goesOn)
    requires l.config.state != BlockStmt && l.config.state != BlockStmtClose
    requires goesOn ==> s.pending.Some? && AtLet(s.pending.value.anchor) && s.pending.value.kind == Ident
                        && s.pending.value.pos == Unconstrained
    ensures Unruled(t, l.config)
  {
  }

  lemma LexedInLet(s: Scope, c: Config, more: seq<byte>)
    requires InStep(s, c) && more != [] && StaysInLet(c, more) && Run(c, more).Some?
    requires Unruled(s, c) || ((c.state == BlockStmt || c.state == BlockStmtClose) && more[0] == LOWER_L)
    ensures LetLexing(Lexed(s, c, more))
  {
    FedAllInLet(Resumed(s.pending, c), more);
  }

  lemma ObservedInLet(s: Scope, c: Config, more: seq<byte>, schema: Schema)
    requires InStep(s, c) && more != [] && StaysInLet(c, more)
    requires Unruled(s, c) || ((c.state == BlockStmt || c.state == BlockStmtClose) && more[0] == LOWER_L)
    ensures Run(c, more).Some? && Unruled(Observed(s, c, more, schema), Run(c, more).value)
  {
    LetRuns(c, more);
    LexedInLet(s, c, more);
    ObservedFields(s, c, more, schema);
    PendingInLet(s, Observed(s, c, more, schema), Lexed(s, c, more), Continues(s.pending, c));
  }

  /** After any tokens that spell a non-empty start of such a name. */
  lemma {:induction false} TrackerUnruled(s: Scope, c: Config, fragments: seq<seq<byte>>, schema: Schema)
    requires InStep(s, c) && StaysInLet(c, Joined(fragments))
    requires c.state == BlockStmt || c.state == BlockStmtClose
    requires Joined(fragments) != [] ==> Joined(fragments)[0] == LOWER_L
    ensures RunTokens(c, fragments).Some? && RunTokens(c, fragments) == Run(c, Joined(fragments))
    ensures var t, d := ObservedAll(s, c, fragments, schema), RunTokens(c, fragments).value;
            if Joined(fragments) == [] then t == s && d == c else Unruled(t, d)
    decreases |fragments|
  {
    if fragments == [] {
      assert Run(c, []) == Some(c);
    } else {
      var n := |fragments| - 1;
      var front, last := fragments[..n], fragments[n];
      assert fragments == front + [last];
      JoinedSnoc(front, last);
      LetConcatStays(c, Joined(front), last);
      RunConcat(c, Joined(front), last);
      LetRuns(c, Joined(fragments));
      TrackerUnruled(s, c, front, schema);
      RunTokensSnoc(s, c, front, last, schema);
      var t, d := ObservedAll(s, c, front, schema), RunTokens(c, front).value;
      if last == [] {
        ObservedNothing(t, d, schema);
      } else {
        if Joined(front) == [] { assert Joined(front) + last == last; }
        ObservedInLet(t, d, last, schema);
      }
    }
  }

  // ----- the mask inside a name -----

  predicate LeavesIdents(next: Step) {
    match next
    case Dead => true
    case Next(t) => LexemeKind(t) != Some(Ident) && !AtLet(t)
    case Push(_, t) => LexemeKind(t) != Some(Ident) && !AtLet(t)
    case Pop(t) => LexemeKind(t) != Some(Ident) && !AtLet(t)
  }

  lemma HubDotLeaves(s: State, top: Option<Frame>)
    requires OnHub(s)
    ensures LeavesIdents(StepOf(s, top, DOT))
  {
  }

  lemma OwnDotLeaves(s: State, top: Option<Frame>)
    requires !OnHub(s)
    ensures LeavesIdents(StepOf(s, top, DOT))
  {
  }

  lemma DotLeavesIdents(s: State, top: Option<Frame>)
    ensures LeavesIdents(StepOf(s, top, DOT))
  {
    if OnHub(s) { HubDotLeaves(s, top); } else { OwnDotLeaves(s, top); }
  }

  lemma DotNeedsAValue(s: State, top: Option<Frame>)
    requires s == ExpectSource || s == BlockStmt || s == BlockStmtClose || s == AfterDot
    ensures StepOf(s, top, DOT) == Dead
  {
  }

  /** A live token the first pass keeps is in the mask exactly when it passes the fused one. */
  lemma InMask(c: Config, s: Scope, schema: Schema, vocab: Vocab, id: nat)
    requires id < vocab.Len() && Run(c, vocab.tokens[id]).Some? && Navigation.Kept(s, c.state, schema, vocab, id)
    ensures id in L2Mask(c, s, schema, vocab) <==> PassesFused(s, schema, vocab.tokens[id])
  {
    MaskParts(c, s, schema, vocab, id);
    FusedKeptIsPassing(s, schema, vocab, id);
  }

  /** Where a name token cannot be a fused navigation. */
  lemma NoFusionInName(kind: LexKind, s: Scope, c: Config, done: seq<byte>, t: Scope, d: Config, name: Name,
                       more: seq<byte>, schema: Schema)
    requires s.pending.None? && LexemeKind(c.state).None? && NamesTokens(Position(s, c.state))
    requires Carried(kind, s, c, done, t, d) && name in LegalNames(Position(s, c.state), s.emitted, schema)
    requires done + more <= name && StaysInLexeme(kind, c, done + more)
    ensures FusedNavPosition(t, schema).None? || FusedPostDot(more).None?
  {
    if more != [] && more[0] == DOT {
      LexemeRuns(kind, c, done + more);
      RunConcat(c, done, more);
      LexemeConcatStays(kind, c, done, more);
      DotLeavesIdents(d.state, Top(d.stack));
      if done == [] {
        assert more[0] == name[0];
        if !Position(s, c.state).Column? { DotNeedsAValue(c.state, Top(c.stack)); }
      }
    }
  }

  lemma NameFragmentInMask(kind: LexKind, s: Scope, c: Config, schema: Schema, vocab: Vocab,
                                              fragments: seq<seq<byte>>, i: nat, id: nat)
    requires InStep(s, c) && s.pending.None? && NamesTokens(Position(s, c.state))
    requires Joined(fragments) in LegalNames(Position(s, c.state), s.emitted, schema)
    requires StaysInLexeme(kind, c, Joined(fragments))
    requires i < |fragments| && id < vocab.Len() && vocab.tokens[id] == fragments[i]
    ensures RunTokens(c, fragments[..i]).Some?
    ensures id in L2Mask(RunTokens(c, fragments[..i]).value, ObservedAll(s, c, fragments[..i], schema), schema, vocab)
  {
    var name, done, more := Joined(fragments), Joined(fragments[..i]), fragments[i];
    var rest := Joined(fragments[i + 1..]);
    JoinedAround(fragments, i);
    LexemeRuns(kind, c, name);
    RunConcat(c, done + more, rest);
    LexemeConcatStays(kind, c, done + more, rest);
    RunConcat(c, done, more);
    LexemeConcatStays(kind, c, done, more);
    TrackerCarries(kind, s, c, fragments[..i], schema);
    var t, d := ObservedAll(s, c, fragments[..i], schema), RunTokens(c, fragments[..i]).value;
    LexemeRuns(kind, c, done);
    NoFusionInName(kind, s, c, done, t, d, name, more, schema);
    ContinuationIsKept(Position(s, c.state), s.emitted, schema, vocab, name, done, id);
    InMask(d, t, schema, vocab, id);
  }

  lemma NoFusionInLet(d: Config, more: seq<byte>)
    requires StaysInLet(d, more)
    ensures FusedPostDot(more).None?
  {
    DotLeavesIdents(d.state, Top(d.stack));
  }

  lemma StartInMask(s: Scope, c: Config, schema: Schema, vocab: Vocab, name: Name, id: nat)
    requires s.pending.None? && (c.state == BlockStmt || c.state == BlockStmtClose)
    requires name in LegalNames(SourceIdent, s.emitted, schema)
    requires id < vocab.Len() && vocab.tokens[id] <= name && Run(c, vocab.tokens[id]).Some?
    requires FusedPostDot(vocab.tokens[id]).None?
    ensures id in L2Mask(c, s, schema, vocab)
  {
    assert [] + vocab.tokens[id] == vocab.tokens[id];
    ContinuationIsKept(SourceIdent, s.emitted, schema, vocab, name, [], id);
    InMask(c, s, schema, vocab, id);
  }

  lemma UnruledInMask(t: Scope, d: Config, schema: Schema, vocab: Vocab, id: nat)
    requires Unruled(t, d) && id < vocab.Len() && Run(d, vocab.tokens[id]).Some?
    requires FusedPostDot(vocab.tokens[id]).None?
    ensures id in L2Mask(d, t, schema, vocab)
  {
    assert Position(t, d.state) == Unconstrained;
    InMask(d, t, schema, vocab, id);
  }

  lemma LetFragmentInMask(s: Scope, c: Config, schema: Schema, vocab: Vocab,
                                             fragments: seq<seq<byte>>, i: nat, id: nat)
    requires InStep(s, c) && s.pending.None? && (c.state == BlockStmt || c.state == BlockStmtClose)
    requires Joined(fragments) in LegalNames(SourceIdent, s.emitted, schema)
    requires Joined(fragments) != [] && Joined(fragments)[0] == LOWER_L && StaysInLet(c, Joined(fragments))
    requires i < |fragments| && id < vocab.Len() && vocab.tokens[id] == fragments[i]
    ensures RunTokens(c, fragments[..i]).Some?
    ensures id in L2Mask(RunTokens(c, fragments[..i]).value, ObservedAll(s, c, fragments[..i], schema), schema, vocab)
  {
    var name, done, more := Joined(fragments), Joined(fragments[..i]), fragments[i];
    var rest := Joined(fragments[i + 1..]);
    JoinedAround(fragments, i);
    LetConcatStays(c, done + more, rest);
    LetConcatStays(c, done, more);
    TrackerUnruled(s, c, fragments[..i], schema);
    var t, d := ObservedAll(s, c, fragments[..i], schema), RunTokens(c, fragments[..i]).value;
    LetRuns(d, more);
    NoFusionInLet(d, more);
    if done == [] {
      StartInMask(s, c, schema, vocab, name, id);
    } else {
      UnruledInMask(t, d, schema, vocab, id);
    }
  }

  /** The bytes of a name stay in one lexeme, or at a block statement in what may still be `let`. */
  ghost predicate ReadAsAName(c: Config, name: Name) {
    || (exists kind :: StaysInLexeme(kind, c, name))
    || ((c.state == BlockStmt || c.state == BlockStmtClose) && name != [] && name[0] == LOWER_L && StaysInLet(c, name))
  }

  /** A quoted column is always read as one. */
  lemma ColumnsAreRead(s: Scope, c: Config, name: Name, schema: Schema)
    requires Position(s, c.state).Column? && s.pending.None?
    requires name in LegalNames(Position(s, c.state), s.emitted, schema)
    ensures StaysInLexeme(Str, c, name)
  {
    var column :| column in s.emitted && name == Lexemes.Quote(column);
    QuotedStays(c, column);
  }

  /** The mask never cuts off a legal name: wherever names are narrowed, for every legal name and every way to
      cut it into tokens, each token is in the mask of the state its predecessors lead to. */
  lemma NamesAreNeverCutOff(s: Scope, c: Config, schema: Schema, vocab: Vocab, fragments: seq<seq<byte>>, i: nat,
                            id: nat)
    requires Locked(s, c) && s.pending.None? && NamesTokens(Position(s, c.state))
    requires Joined(fragments) in LegalNames(Position(s, c.state), s.emitted, schema)
    requires Position(s, c.state).Column? || ReadAsAName(c, Joined(fragments))
    requires i < |fragments| && id < vocab.Len() && vocab.tokens[id] == fragments[i]
    ensures RunTokens(c, fragments[..i]).Some?
    ensures id in L2Mask(RunTokens(c, fragments[..i]).value, ObservedAll(s, c, fragments[..i], schema), schema, vocab)
  {
    if Position(s, c.state).Column? { ColumnsAreRead(s, c, Joined(fragments), schema); }
    if kind :| StaysInLexeme(kind, c, Joined(fragments)) {
      NameFragmentInMask(kind, s, c, schema, vocab, fragments, i, id);
    } else {
      LetFragmentInMask(s, c, schema, vocab, fragments, i, id);
    }
  }

  // ----- the token that ends a name -----

  /** After tokens that spell the start of a name, a token finishes a legal name and goes on with a byte no
      identifier and no longer name continues with. */
  ghost predicate Finishes(s: Scope, c: Config, schema: Schema, p: seq<byte>, token: seq<byte>, f: seq<byte>, b: byte) {
    var names := LegalNames(Position(s, c.state), s.emitted, schema);
    && f + [b] <= token && p + f in names && !IsIdentTail(b) && !Tries.Live(names, p + f + [b])
    && Run(c, p + token).Some?
  }

  /** The bytes read before the finishing token. */
  ghost predicate StartsAName(s: Scope, c: Config, p: seq<byte>) {
    && s.pending.None? && NamesTokens(Position(s, c.state))
    && (Position(s, c.state).Column? || ReadAsAName(c, p))
  }

  lemma StartOfColumn(s: Scope, c: Config, schema: Schema, p: seq<byte>, f: seq<byte>)
    requires s.pending.None? && Position(s, c.state).Column?
    requires p + f in LegalNames(Position(s, c.state), s.emitted, schema)
    ensures StaysInLexeme(Str, c, p)
  {
    ColumnsAreRead(s, c, p + f, schema);
    LexemeRuns(Str, c, p + f);
    RunConcat(c, p, f);
    LexemeConcatStays(Str, c, p, f);
  }

  lemma FinisherKept(kind: LexKind, s: Scope, c: Config, schema: Schema, vocab: Vocab, fragments: seq<seq<byte>>,
                     f: seq<byte>, b: byte, id: nat)
    requires StartsAName(s, c, Joined(fragments)) && StaysInLexeme(kind, c, Joined(fragments))
    requires LexemeKind(c.state).None?
    requires id < vocab.Len() && Finishes(s, c, schema, Joined(fragments), vocab.tokens[id], f, b)
    ensures RunTokens(c, fragments).Some? && Run(RunTokens(c, fragments).value, vocab.tokens[id]).Some?
    ensures var t, d := ObservedAll(s, c, fragments, schema), RunTokens(c, fragments).value;
            Navigation.Kept(t, d.state, schema, vocab, id)
  {
    var p, token := Joined(fragments), vocab.tokens[id];
    TrackerCarries(kind, s, c, fragments, schema);
    LexemeRuns(kind, c, p);
    RunConcat(c, p, token);
    assert token == f + [b] + token[|f| + 1..];
    FinishingFragmentIsKept(Position(s, c.state), s.emitted, schema, vocab, p, f, b, token[|f| + 1..], id);
  }

  /** Where a finisher meets no fused target: after part of a source path or of a quoted column, and where the name
      is all in the finishing token. */
  lemma FinisherIsFree(kind: LexKind, s: Scope, c: Config, schema: Schema, fragments: seq<seq<byte>>, token: seq<byte>,
                       f: seq<byte>, b: byte)
    requires StartsAName(s, c, Joined(fragments)) && StaysInLexeme(kind, c, Joined(fragments))
    requires LexemeKind(c.state).None? && Finishes(s, c, schema, Joined(fragments), token, f, b)
    requires Joined(fragments) == [] || Position(s, c.state).SourceIdent? || Position(s, c.state).Column?
    ensures RunTokens(c, fragments).Some?
    ensures PassesFused(ObservedAll(s, c, fragments, schema), schema, token)
  {
    TrackerCarries(kind, s, c, fragments, schema);
    if Joined(fragments) == [] { WholeNameIsNoFusion(s, c, schema, token, f, b); }
  }

  lemma WholeNameIsNoFusion(s: Scope, c: Config, schema: Schema, token: seq<byte>, f: seq<byte>, b: byte)
    requires s.pending.None? && LexemeKind(c.state).None? && NamesTokens(Position(s, c.state))
    requires Finishes(s, c, schema, [], token, f, b)
    ensures FusedPostDot(token).None?
  {
    assert [] + token == token && [] + f == f;
    if Position(s, c.state).Column? {
      var column :| column in s.emitted && f == Lexemes.Quote(column);
      assert token[0] == f[0] == QUOTE;
    } else {
      DotNeedsAValue(c.state, Top(c.stack));
    }
  }

  /** Where the fused rule has no objection to what ends the name. */
  predicate EndsFreely(s: Scope, c: Config, p: seq<byte>, d: Config) {
    || p == []
    || Position(s, c.state).Column?
    || (Position(s, c.state).SourceIdent? && !AtLet(d.state))
  }

  /** The token that ends a name, exactly: after any tokens that spell the start of a legal name, a live token that
      finishes it is in the mask if and only if it passes the fused rule, which can only object to a dot and an
      identifier behind a finished member, or behind a source name that began like `let`. */
  lemma NamesCanBeFinished(s: Scope, c: Config, schema: Schema, vocab: Vocab, fragments: seq<seq<byte>>,
                           f: seq<byte>, b: byte, id: nat)
    requires Locked(s, c) && StartsAName(s, c, Joined(fragments))
    requires id < vocab.Len() && Finishes(s, c, schema, Joined(fragments), vocab.tokens[id], f, b)
    ensures RunTokens(c, fragments).Some?
    ensures var t, d := ObservedAll(s, c, fragments, schema), RunTokens(c, fragments).value;
            && (id in L2Mask(d, t, schema, vocab) <==> PassesFused(t, schema, vocab.tokens[id]))
            && (EndsFreely(s, c, Joined(fragments), d) ==> id in L2Mask(d, t, schema, vocab))
  {
    var p := Joined(fragments);
    if Position(s, c.state).Column? { StartOfColumn(s, c, schema, p, f); }
    if kind :| StaysInLexeme(kind, c, p) {
      FinisherKept(kind, s, c, schema, vocab, fragments, f, b, id);
      InMask(RunTokens(c, fragments).value, ObservedAll(s, c, fragments, schema), schema, vocab, id);
      if p == [] || Position(s, c.state).SourceIdent? || Position(s, c.state).Column? {
        FinisherIsFree(kind, s, c, schema, fragments, vocab.tokens[id], f, b);
      }
    } else {
      LetFinisherInMask(s, c, schema, vocab, fragments, id);
    }
  }

  lemma LetFinisherInMask(s: Scope, c: Config, schema: Schema, vocab: Vocab, fragments: seq<seq<byte>>, id: nat)
    requires InStep(s, c) && s.pending.None? && (c.state == BlockStmt || c.state == BlockStmtClose)
    requires Joined(fragments) != [] && Joined(fragments)[0] == LOWER_L && StaysInLet(c, Joined(fragments))
    requires id < vocab.Len() && Run(c, Joined(fragments) + vocab.tokens[id]).Some?
    ensures RunTokens(c, fragments).Some?
    ensures var t, d := ObservedAll(s, c, fragments, schema), RunTokens(c, fragments).value;
            && (id in L2Mask(d, t, schema, vocab) <==> PassesFused(t, schema, vocab.tokens[id]))
            && (!AtLet(d.state) ==> id in L2Mask(d, t, schema, vocab))
  {
    TrackerUnruled(s, c, fragments, schema);
    RunConcat(c, Joined(fragments), vocab.tokens[id]);
    UnruledFinisher(ObservedAll(s, c, fragments, schema), RunTokens(c, fragments).value, schema, vocab, id);
  }

  lemma UnruledFinisher(t: Scope, d: Config, schema: Schema, vocab: Vocab, id: nat)
    requires Unruled(t, d) && id < vocab.Len() && Run(d, vocab.tokens[id]).Some?
    ensures id in L2Mask(d, t, schema, vocab) <==> PassesFused(t, schema, vocab.tokens[id])
    ensures !AtLet(d.state) ==> id in L2Mask(d, t, schema, vocab)
  {
    assert Position(t, d.state) == Unconstrained;
    InMask(d, t, schema, vocab, id);
  }
}
