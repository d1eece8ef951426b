/** What the mask holds at each narrowed position, in terms of the schema, the columns and the bytes of a token. */
module Positions {
  import opened Bytes
  import opened Automaton
  import opened Runs
  import opened Model
  import opened Compiled
  import Tries
  import opened Lexemes
  import opened Scopes
  import Tokenization
  import opened Segments
  import GapTokens
  import opened Narrowing
  import Navigation
  import Lambdas
  import opened Sessions
  import DotMasks

  // ----- at an anchor -----

  /** The states a narrowed lexeme begins in, and those right behind a `<` or a `>`. */
  predicate Anchors(s: State) {
    || s == ExpectSource || s == BlockStmt || s == BlockStmtClose || s == AfterDot
    || s == ExpectValue || s == ExpectValueReq || s == SawGt || s == SawLt
  }

  lemma NoDotThenName(s: State, top: Option<Frame>, b: byte)
    requires Anchors(s) && IsIdentStart(b)
    ensures StepOf(s, top, DOT) == Dead || StepOf(s, top, DOT) == Next(NeedFracDigit)
    ensures StepOf(NeedFracDigit, top, b) == Dead
  {
  }

  lemma DotNameDies(c: Config, token: seq<byte>)
    requires Anchors(c.state) && FusedPostDot(token).Some?
    ensures Run(c, token).None?
  {
    NoDotThenName(c.state, Top(c.stack), token[1]);
    if Advanced(c, DOT).Some? {
      var d := Config(NeedFracDigit, c.stack);
      assert token[1..][0] == token[1] && Advanced(d, token[1]).None?;
      assert Run(d, token[1..]).None?;
    }
  }

  /** At an anchor the mask is the live tokens the position keeps. */
  lemma AnchorMask(c: Config, s: Scope, schema: Schema, vocab: Vocab, id: nat)
    requires Anchors(c.state) && id < vocab.Len() && Run(c, vocab.tokens[id]).Some?
    ensures id in L2Mask(c, s, schema, vocab) <==> Navigation.Kept(s, c.state, schema, vocab, id)
  {
    if FusedPostDot(vocab.tokens[id]).Some? { DotNameDies(c, vocab.tokens[id]); }
    DotMasks.NoPostDot(s, schema, vocab, id);
    DotMasks.MaskParts(c, s, schema, vocab, id);
  }

  // ----- names -----

  /** The token may still become one of the names, or ends one before a byte that no name goes on with. */
  ghost predicate SpellsOneOf(names: set<Name>, token: seq<byte>) {
    || (exists name :: name in names && token <= name)
    || (exists k: nat :: k < |token| && token[..k] in names && !IsIdentTail(token[k])
                         && forall name :: name in names ==> !(token[..k + 1] <= name))
  }

  lemma SpellingIsJudged(names: set<Name>, token: seq<byte>)
    requires token != []
    ensures SpellsOneOf(names, token)
       <==> Tries.Live(names, token) || exists k: nat :: Tries.EndsNameAt(names, [], token, k)
  {
    if k: nat :| k < |token| && token[..k] in names && !IsIdentTail(token[k])
                 && forall name :: name in names ==> !(token[..k + 1] <= name) {
      assert [] + token[..k] == token[..k] && [] + token[..k + 1] == token[..k + 1];
      assert Tries.EndsNameAt(names, [], token, k);
    }
    if k: nat :| Tries.EndsNameAt(names, [], token, k) {
      assert [] + token[..k] == token[..k] && [] + token[..k + 1] == token[..k + 1];
    }
  }

  /** What a rule over names keeps of tokens at an anchor. */
  lemma NamesAreJudged(pos: L2Position, c: Config, s: Scope, schema: Schema, vocab: Vocab, id: nat, names: set<Name>)
    requires Anchors(c.state) && id < vocab.Len() && Run(c, vocab.tokens[id]).Some? && vocab.tokens[id] != []
    requires s.pending.None? && Position(s, c.state) == pos && names == LegalNames(pos, s.emitted, schema)
    requires pos.SourceIdent? || pos.Member? || pos.Column? || pos.RelationColumn?
    ensures id in L2Mask(c, s, schema, vocab)
       <==> (IsCandidate(vocab.tokens[id], KindOf(pos), false) ==> SpellsOneOf(names, vocab.tokens[id]))
  {
    AnchorMask(c, s, schema, vocab, id);
    SpellingIsJudged(names, vocab.tokens[id]);
    ClearedExactly(names, [], KindOf(pos), vocab.tokens[id]);
    assert [] + vocab.tokens[id] == vocab.tokens[id];
  }

  /** Where a source is wanted: a live token that could be part of a name is in the mask exactly when it begins or
      ends a class path, the store path or `let`; every other live token is in it. */
  lemma SourceMask(c: Config, s: Scope, schema: Schema, vocab: Vocab, id: nat)
    requires c.state == ExpectSource || c.state == BlockStmt || c.state == BlockStmtClose
    requires s.pending.None? && id < vocab.Len() && vocab.tokens[id] != [] && Run(c, vocab.tokens[id]).Some?
    ensures id in L2Mask(c, s, schema, vocab)
       <==> (IsIdentTail(vocab.tokens[id][0]) ==>
               SpellsOneOf(schema.classes.Keys + {schema.dbPath} + {Ascii("let")}, vocab.tokens[id]))
  {
    NamesAreJudged(SourceIdent, c, s, schema, vocab, id, LegalNames(SourceIdent, s.emitted, schema));
  }

  /** Behind a dot that navigates to a class: the members of the class and of all it inherits from. */
  lemma MemberMask(c: Config, s: Scope, schema: Schema, vocab: Vocab, id: nat, members: set<Name>)
    requires c.state == AfterDot && s.pending.None? && !s.dotIsColumn && s.dotBase.Some?
    requires id < vocab.Len() && vocab.tokens[id] != [] && Run(c, vocab.tokens[id]).Some?
    requires forall x :: x in members <==> exists d :: Inherits(schema, s.dotBase.value, d) && Names(schema, d, x)
    ensures id in L2Mask(c, s, schema, vocab)
       <==> (IsIdentTail(vocab.tokens[id][0]) ==> SpellsOneOf(members, vocab.tokens[id]))
  {
    var pos := L2Position.Member(s.dotBase.value);
    var names := LegalNames(pos, s.emitted, schema);
    forall x ensures x in members <==> x in names { assert x in names <==> IsMember(schema, s.dotBase.value, x); }
    assert members == names;
    NamesAreJudged(pos, c, s, schema, vocab, id, names);
  }

  /** Behind the dot of a relation row: the recorded columns. */
  lemma RowMask(c: Config, s: Scope, schema: Schema, vocab: Vocab, id: nat)
    requires c.state == AfterDot && s.pending.None? && s.dotIsColumn
    requires id < vocab.Len() && vocab.tokens[id] != [] && Run(c, vocab.tokens[id]).Some?
    ensures id in L2Mask(c, s, schema, vocab)
       <==> (IsIdentTail(vocab.tokens[id][0]) ==> SpellsOneOf((set x | x in s.emitted), vocab.tokens[id]))
  {
    NamesAreJudged(RelationColumn, c, s, schema, vocab, id, LegalNames(RelationColumn, s.emitted, schema));
  }

  /** Where a column reference is wanted: a live token that begins a string is in the mask exactly when it begins or
      ends a recorded column in its quotes; every other live token is in it. */
  lemma ColumnMask(c: Config, s: Scope, schema: Schema, vocab: Vocab, id: nat)
    requires c.state == ExpectValue || c.state == ExpectValueReq
    requires s.pending.None? && Position(s, c.state).Column?
    requires id < vocab.Len() && vocab.tokens[id] != [] && Run(c, vocab.tokens[id]).Some?
    ensures id in L2Mask(c, s, schema, vocab)
       <==> (vocab.tokens[id][0] == QUOTE ==> SpellsOneOf((set x | x in s.emitted :: Quote(x)), vocab.tokens[id]))
  {
    NamesAreJudged(L2Position.Column, c, s, schema, vocab, id, LegalNames(L2Position.Column, s.emitted, schema));
  }

  // ----- inside a name -----

  /** The names a position offers: class paths, the store path and `let`; a class's members; quoted columns; columns. */
  ghost predicate AreOffered(pos: L2Position, s: Scope, schema: Schema, names: set<Name>) {
    match pos
    case SourceIdent => names == schema.classes.Keys + {schema.dbPath} + {Ascii("let")}
    case Member(c) => forall x :: x in names <==> exists d :: Inherits(schema, c, d) && Names(schema, d, x)
    case Column => names == set x | x in s.emitted :: Quote(x)
    case RelationColumn => names == set x | x in s.emitted
    case _ => false
  }

  lemma OfferedIsLegal(pos: L2Position, s: Scope, schema: Schema, names: set<Name>)
    requires AreOffered(pos, s, schema, names)
    ensures names == LegalNames(pos, s.emitted, schema)
  {
    if pos.Member? {
      var legal := LegalNames(pos, s.emitted, schema);
      forall x ensures x in names <==> x in legal { assert x in legal <==> IsMember(schema, pos.class_, x); }
    }
  }

  /** Behind `p` the token may still become one of the names, or ends one before a byte that no name goes on with. */
  ghost predicate SpellsFrom(names: set<Name>, p: seq<byte>, token: seq<byte>) {
    || (exists name :: name in names && p + token <= name)
    || (exists k: nat :: k < |token| && p + token[..k] in names && !IsIdentTail(token[k])
                         && forall name :: name in names ==> !(p + token[..k + 1] <= name))
  }

  lemma SpellingFromIsJudged(names: set<Name>, p: seq<byte>, token: seq<byte>)
    requires token != []
    ensures SpellsFrom(names, p, token)
       <==> Tries.Live(names, p + token) || exists k: nat :: Tries.EndsNameAt(names, p, token, k)
  {
    if k: nat :| k < |token| && p + token[..k] in names && !IsIdentTail(token[k])
                 && forall name :: name in names ==> !(p + token[..k + 1] <= name) {
      assert Tries.EndsNameAt(names, p, token, k);
    }
  }

  /** Inside a name the bytes read so far count. While they begin one of the names, the first pass keeps the tokens
      that go on with one or end one, and those that cannot belong to it; once they begin none, it keeps everything.
      What it keeps is in the mask when it passes the fused rule. */
  lemma OpenNameMask(c: Config, s: Scope, schema: Schema, vocab: Vocab, id: nat, names: set<Name>)
    requires LexemeKind(c.state).Some? && s.pending.Some? && s.pending.value.buf != []
    requires AreOffered(s.pending.value.pos, s, schema, names)
    requires id < vocab.Len() && vocab.tokens[id] != [] && Run(c, vocab.tokens[id]).Some?
    ensures var p, token := s.pending.value, vocab.tokens[id];
            id in L2Mask(c, s, schema, vocab)
            <==> DotMasks.PassesFused(s, schema, token)
                 && ((exists name :: name in names && p.buf <= name) && (p.pos.Column? || IsIdentTail(token[0])) ==>
                       SpellsFrom(names, p.buf, token))
  {
    var p, token := s.pending.value, vocab.tokens[id];
    OfferedIsLegal(p.pos, s, schema, names);
    DotMasks.MaskParts(c, s, schema, vocab, id);
    DotMasks.FusedKeptIsPassing(s, schema, vocab, id);
    OpenNameKept(p.pos, c, s, schema, vocab, id, names);
  }

  lemma OpenNameKept(pos: L2Position, c: Config, s: Scope, schema: Schema, vocab: Vocab, id: nat, names: set<Name>)
    requires LexemeKind(c.state).Some? && s.pending.Some? && s.pending.value.buf != [] && s.pending.value.pos == pos
    requires pos.SourceIdent? || pos.Member? || pos.Column? || pos.RelationColumn?
    requires names == LegalNames(pos, s.emitted, schema) && id < vocab.Len() && vocab.tokens[id] != []
    ensures Navigation.Kept(s, c.state, schema, vocab, id)
       <==> ((exists name :: name in names && s.pending.value.buf <= name)
             && (pos.Column? || IsIdentTail(vocab.tokens[id][0])) ==>
               SpellsFrom(names, s.pending.value.buf, vocab.tokens[id]))
  {
    var buf := s.pending.value.buf;
    Tries.StayMeaning(names, [], buf);
    assert [] + buf == buf;
    SpellingFromIsJudged(names, buf, vocab.tokens[id]);
    ClearedExactly(names, buf, KindOf(pos), vocab.tokens[id]);
  }

  // ----- a dot fused with a name -----

  /** Where the name behind a dot is already known to be one of the names, a live token of a dot and an identifier is in
      the mask exactly when the identifier begins or ends one of them. */
  lemma FusedNameMask(c: Config, s: Scope, schema: Schema, vocab: Vocab, id: nat, names: set<Name>)
    requires DotMasks.OnTrack(s, c) && FusedNavPosition(s, schema).Some?
    requires AreOffered(FusedNavPosition(s, schema).value, s, schema, names)
    requires id < vocab.Len() && FusedPostDot(vocab.tokens[id]).Some? && Run(c, vocab.tokens[id]).Some?
    ensures id in L2Mask(c, s, schema, vocab) <==> SpellsOneOf(names, vocab.tokens[id][1..])
  {
    var rest := vocab.tokens[id][1..];
    OfferedIsLegal(FusedNavPosition(s, schema).value, s, schema, names);
    DotMasks.FusedTargetDecides(s, c, schema, vocab, id);
    SpellingIsJudged(names, rest);
    Tries.StayMeaning(names, [], rest);
    Tries.CompleteMeaning(names, [], rest);
    assert [] + rest == rest;
  }

  // ----- operands -----

  /** The types whose comparisons are not narrowed. */
  predicate Unnarrowed(prim: PrimName) {
    prim == Boolean || prim == PrimName.Date || prim == StrictDate || prim == DateTime
  }

  predicate BeginsNumber(token: seq<byte>) {
    token != [] && (IsDigit(token[0]) || (token[0] == DASH && |token| > 1 && IsDigit(token[1])))
  }

  /** Whether a token may be the operand compared with a member of the type: a string with strings alone, a number
      with the four number types alone, a date with none of these, and anything else with every type. */
  predicate OperandFits(prim: PrimName, token: seq<byte>) {
    || Unnarrowed(prim)
    || (if token != [] && token[0] == QUOTE then prim == String
        else if BeginsNumber(token) then prim == Integer || prim == Float || prim == Decimal || prim == PrimName.Number
        else token == [] || token[0] != PERCENT)
  }

  predicate IsComparison(cmp: seq<byte>) {
    || cmp == [EQUALS, EQUALS] || cmp == [BANG, EQUALS] || cmp == [LT, EQUALS] || cmp == [GT, EQUALS]
    || cmp == [LT] || cmp == [GT]
  }

  lemma OperandsAreClassified(token: seq<byte>)
    ensures Classify(token).StringLit? <==> token != [] && token[0] == QUOTE
    ensures Classify(token).DateLit? <==> token != [] && token[0] == PERCENT
    ensures Classify(token).NumberLit? <==> BeginsNumber(token)
  {
    if token != [] && !IsAsciiWs(token[0]) { assert !Classify(token).Blank?; }
  }

  lemma OperandKept(prim: PrimName, s: Scope, state: State, schema: Schema, vocab: Vocab, id: nat)
    requires (state == ExpectValue || state == ExpectValueReq) && s.cmpPending == Some(TypeClassOf(prim))
    requires id < vocab.Len()
    ensures Navigation.Kept(s, state, schema, vocab, id) <==> OperandFits(prim, vocab.tokens[id])
  {
    OperandsAreClassified(vocab.tokens[id]);
  }

  lemma ComparisonClassifies(cmp: seq<byte>)
    requires IsComparison(cmp)
    ensures Classify(cmp) == CmpOp && !IsAsciiWs(cmp[0]) && GapToken(cmp) == |cmp|
  {
    assert !IsAsciiWs(cmp[0]);
  }

  lemma {:induction false} BlankGap(gap: seq<byte>, anchor: State)
    requires forall i :: 0 <= i < |gap| ==> IsWs(gap[i])
    ensures GapEvents(gap, anchor) == []
    decreases |gap|
  {
    if gap != [] { BlankGap(gap[1..], anchor); }
  }

  lemma ComparisonEvents(cmp: seq<byte>, gap: seq<byte>, anchor: State)
    requires IsComparison(cmp) && forall i :: 0 <= i < |gap| ==> IsWs(gap[i])
    ensures GapEvents(cmp + gap, anchor) == [Event(cmp, anchor)]
  {
    ComparisonClassifies(cmp);
    GapTokens.OneToken(cmp, anchor);
    if gap == [] {
      assert cmp + gap == cmp;
    } else {
      GapTokens.GapConcat(cmp, gap, anchor);
      BlankGap(gap, anchor);
    }
  }

  /** Where a comparison leads from a finished name. */
  function BehindComparison(cmp: seq<byte>, gap: seq<byte>): State {
    if gap == [] && cmp == [LT] then SawLt else if gap == [] && cmp == [GT] then SawGt else ExpectValueReq
  }

  lemma {:induction false} BlanksStay(s: State, stack: seq<Frame>, gap: seq<byte>)
    requires (s == ExpectValueReq || s == SawLt || s == SawGt) && forall i :: 0 <= i < |gap| ==> IsWs(gap[i])
    ensures StaysInGap(Config(s, stack), gap)
    ensures Run(Config(s, stack), gap) == Some(Config(if gap == [] then s else ExpectValueReq, stack))
    decreases |gap|
  {
    if gap != [] { BlanksStay(ExpectValueReq, stack, gap[1..]); }
  }

  lemma ComparisonByteRead(stack: seq<Frame>, cmp: seq<byte>)
    requires IsComparison(cmp)
    ensures StaysInGap(Config(InIdent, stack), cmp)
    ensures Run(Config(InIdent, stack), cmp) == Some(Config(BehindComparison(cmp, []), stack))
  {
    if |cmp| == 1 { ShortComparisonRead(stack, cmp); } else { LongComparisonRead(stack, cmp); }
  }

  lemma ShortComparisonRead(stack: seq<Frame>, cmp: seq<byte>)
    requires cmp == [LT] || cmp == [GT]
    ensures StaysInGap(Config(InIdent, stack), cmp)
    ensures Run(Config(InIdent, stack), cmp) == Some(Config(BehindComparison(cmp, []), stack))
  {
    var mid := Config(BehindComparison(cmp, []), stack);
    assert cmp[1..] == [] && StaysInGap(mid, []) && Run(mid, []) == Some(mid);
  }

  lemma LongComparisonRead(stack: seq<Frame>, cmp: seq<byte>)
    requires IsComparison(cmp) && |cmp| == 2
    ensures StaysInGap(Config(InIdent, stack), cmp)
    ensures Run(Config(InIdent, stack), cmp) == Some(Config(ExpectValueReq, stack))
  {
    var mid, end := Config(InComparison(cmp[0]), stack), Config(ExpectValueReq, stack);
    ComparisonBytes(stack, cmp[0]);
    assert cmp[1..][1..] == [] && StaysInGap(end, []) && Run(end, []) == Some(end);
    assert StaysInGap(mid, cmp[1..]) && Run(mid, cmp[1..]) == Some(end);
  }

  /** Behind the first byte of a comparison. */
  function InComparison(b: byte): State {
    if b == EQUALS then SawEq else if b == BANG then SawBang else if b == LT then SawLt else SawGt
  }

  lemma ComparisonBytes(stack: seq<Frame>, b: byte)
    requires b == EQUALS || b == BANG || b == LT || b == GT
    ensures Advanced(Config(InIdent, stack), b) == Some(Config(InComparison(b), stack))
    ensures Advanced(Config(InComparison(b), stack), EQUALS) == Some(Config(ExpectValueReq, stack))
    ensures LexemeKind(InComparison(b)).None?
  {
  }

  lemma ComparisonRead(stack: seq<Frame>, cmp: seq<byte>, gap: seq<byte>)
    requires IsComparison(cmp) && forall i :: 0 <= i < |gap| ==> IsWs(gap[i])
    ensures StaysInGap(Config(InIdent, stack), cmp + gap)
    ensures Run(Config(InIdent, stack), cmp + gap) == Some(Config(BehindComparison(cmp, gap), stack))
  {
    ComparisonByteRead(stack, cmp);
    BlanksStay(BehindComparison(cmp, []), stack, gap);
    GapConcatStays(Config(InIdent, stack), cmp, gap);
    RunConcat(Config(InIdent, stack), cmp, gap);
  }

  /** The scope behind a member and a comparison. */
  ghost function Compared(s: Scope, cmp: seq<byte>, schema: Schema): Scope
    requires s.pending.Some?
  {
    Dispatch(Dispatch(s.(pending := None), s.pending.value.buf, AfterDot, schema), cmp, InIdent, schema)
  }

  lemma ComparisonObserved(s: Scope, c: Config, cmp: seq<byte>, gap: seq<byte>, schema: Schema)
    requires AtMember(s, c) && IsComparison(cmp) && forall i :: 0 <= i < |gap| ==> IsWs(gap[i])
    ensures Run(c, cmp + gap) == Some(Config(BehindComparison(cmp, gap), c.stack))
    ensures Observed(s, c, cmp + gap, schema) == Compared(s, cmp, schema)
  {
    ComparisonRead(c.stack, cmp, gap);
    GapObserved(s, c, cmp + gap, schema);
    ComparisonEvents(cmp, gap, InIdent);
    Tokenization.DispatchOne(Settled(s, schema), Event(cmp, InIdent), schema);
  }

  lemma ComparedMember(s: Scope, c: Config, cmp: seq<byte>, prim: PrimName, mult: Multiplicity, schema: Schema)
    requires AtMember(s, c) && IsComparison(cmp)
    requires Resolve(schema, s.dotBase.value, s.pending.value.buf) == Some(Resolved(Primitive(prim), mult))
    ensures var t := Compared(s, cmp, schema); t.pending.None? && t.cmpPending == Some(TypeClassOf(prim))
  {
    var bare, member := s.(pending := None), s.pending.value.buf;
    ComparisonClassifies(cmp);
    Lambdas.ComparisonAsksForItsClass(bare, member, cmp, prim, mult, schema);
    Tokenization.DispatchKeepsPending(bare, member, AfterDot, schema);
    Tokenization.DispatchKeepsPending(Dispatch(bare, member, AfterDot, schema), cmp, InIdent, schema);
  }

  lemma ComparedMask(d: Config, t: Scope, prim: PrimName, schema: Schema, vocab: Vocab, id: nat)
    requires t.pending.None? && t.cmpPending == Some(TypeClassOf(prim))
    requires d.state == ExpectValueReq || d.state == SawLt || d.state == SawGt
    requires id < vocab.Len() && Run(d, vocab.tokens[id]).Some?
    ensures id in L2Mask(d, t, schema, vocab) <==> (d.state != ExpectValueReq || OperandFits(prim, vocab.tokens[id]))
  {
    AnchorMask(d, t, schema, vocab, id);
    if d.state == ExpectValueReq { OperandKept(prim, t, ExpectValueReq, schema, vocab, id); }
  }

  /** A member step has been read, from a class. */
  predicate AtMember(s: Scope, c: Config) {
    && Tokenization.InStep(s, c) && c.state == InIdent
    && s.pending.Some? && s.pending.value.kind == Ident && s.pending.value.anchor == AfterDot
    && IsIdent(s.pending.value.buf) && !s.dotIsColumn && s.dotBase.Some?
  }

  /** The operand of a comparison is held to what stands on its left, in the mask itself: behind a member of a
      primitive type and a comparison, with any whitespace, a live token is in the mask exactly when it fits the
      type. Only right behind a lone `<` or `>`, which may still become `<=` or `>=`, is every live token. */
  lemma OperandMask(s: Scope, c: Config, cmp: seq<byte>, gap: seq<byte>, prim: PrimName, mult: Multiplicity,
                    schema: Schema, vocab: Vocab, id: nat)
    requires AtMember(s, c) && IsComparison(cmp) && forall i :: 0 <= i < |gap| ==> IsWs(gap[i])
    requires Resolve(schema, s.dotBase.value, s.pending.value.buf) == Some(Resolved(Primitive(prim), mult))
    ensures Run(c, cmp + gap).Some?
    ensures var d, t := Run(c, cmp + gap).value, Observed(s, c, cmp + gap, schema);
            id < vocab.Len() && Run(d, vocab.tokens[id]).Some? ==>
              (id in L2Mask(d, t, schema, vocab)
               <==> ((|cmp| == 1 && gap == []) || OperandFits(prim, vocab.tokens[id])))
  {
    ComparisonObserved(s, c, cmp, gap, schema);
    ComparedMember(s, c, cmp, prim, mult, schema);
    var d := Run(c, cmp + gap).value;
    if id < vocab.Len() && Run(d, vocab.tokens[id]).Some? {
      ComparedMask(d, Compared(s, cmp, schema), prim, schema, vocab, id);
    }
  }
}
