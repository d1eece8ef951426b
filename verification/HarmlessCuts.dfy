/** Tokenization again: a cut inside a structural gap, over the whole tracker. */
module HarmlessCuts {
  import opened Bytes
  import opened Automaton
  import opened Runs
  import opened Model
  import opened Scopes
  import opened Tokenization
  import opened Segments
  import GapTokens
  import opened GapCuts

  // ----- where an open gap began -----

  /** The gap of a lexing began at some configuration in the state of its anchor, and has not left since. */
  ghost predicate Rooted(l: Lexing) {
    LexemeKind(l.config.state).None? ==> exists r :: GapFrom(r, l)
  }

  predicate GapFrom(r: Config, l: Lexing) {
    r.state == l.anchor && StaysInGap(r, l.seg) && Run(r, l.seg) == Some(l.config)
  }

  lemma FedRooted(l: Lexing, b: byte)
    requires Rooted(l) && Advanced(l.config, b).Some?
    ensures Rooted(Fed(l, b)) && Fed(l, b).seg != []
  {
    var next := Advanced(l.config, b).value;
    if LexemeKind(next.state).None? {
      if LexemeKind(l.config.state).Some? {
        OneGapByte(l.config, [b], b);
        assert GapFrom(l.config, Fed(l, b));
      } else {
        var r :| GapFrom(r, l);
        OneGapByte(l.config, [b], b);
        GapConcatStays(r, l.seg, [b]);
        RunSnoc(r, l.seg, b);
        assert GapFrom(r, Fed(l, b));
      }
    }
  }

  lemma OneGapByte(c: Config, bytes: seq<byte>, b: byte)
    requires bytes == [b] && Advanced(c, b).Some? && LexemeKind(Advanced(c, b).value.state).None?
    ensures StaysInGap(c, bytes) && Run(c, bytes) == Advanced(c, b)
  {
    var d := Advanced(c, b).value;
    assert bytes[1..] == [];
    assert StaysInGap(d, []) && Run(d, []) == Some(d);
  }

  lemma {:induction false} FedAllRooted(l: Lexing, bytes: seq<byte>)
    requires Rooted(l) && Run(l.config, bytes).Some?
    ensures Rooted(FedAll(l, bytes)) && (bytes != [] ==> FedAll(l, bytes).seg != [])
    decreases |bytes|
  {
    if bytes != [] {
      FedRooted(l, bytes[0]);
      FedAllRooted(Fed(l, bytes[0]), bytes[1..]);
    }
  }

  lemma ResumedRooted(s: Scope, c: Config)
    requires InStep(s, c)
    ensures Rooted(Resumed(s.pending, c))
  {
    if s.pending.None? {
      assert Run(c, []) == Some(c);
      assert GapFrom(c, Resumed(s.pending, c));
    }
  }

  // ----- the gap behind the cut -----

  /** How many bytes the gap goes on. */
  function GapLength(c: Config, bytes: seq<byte>): (n: nat)
    requires Run(c, bytes).Some?
    ensures n <= |bytes|
    decreases |bytes|
  {
    if bytes == [] then 0
    else
      var d := Advanced(c, bytes[0]).value;
      if LexemeKind(d.state).None? then 1 + GapLength(d, bytes[1..]) else 0
  }

  lemma {:induction false} GapGoesOn(c: Config, bytes: seq<byte>)
    requires Run(c, bytes).Some?
    ensures var n := GapLength(c, bytes);
            && StaysInGap(c, bytes[..n]) && Run(c, bytes[..n]).Some?
            && Run(Run(c, bytes[..n]).value, bytes[n..]).Some?
            && (n < |bytes| ==> LexemeKind(Advanced(Run(c, bytes[..n]).value, bytes[n]).value.state).Some?)
    decreases |bytes|
  {
    var n := GapLength(c, bytes);
    if n == 0 {
      assert bytes[..0] == [] && bytes[0..] == bytes;
      assert Run(c, []) == Some(c);
    } else {
      var d := Advanced(c, bytes[0]).value;
      GapGoesOn(d, bytes[1..]);
      assert bytes[..n][0] == bytes[0] && bytes[..n][1..] == bytes[1..][..n - 1] && bytes[n..] == bytes[1..][n - 1..];
    }
  }

  /** The cut between `xs` and `ys` is invisible, in the gap they share. */
  ghost predicate CutIsInvisible(s: Scope, c: Config, xs: seq<byte>, ys: seq<byte>)
    requires Run(c, xs).Some? && Run(Run(c, xs).value, ys).Some?
  {
    var l, c1 := Lexed(s, c, xs), Run(c, xs).value;
    var n := GapLength(c1, ys);
    l.seg != [] && n > 0 && Invisible(l.seg, ys[..n], l.anchor, c1.state)
  }

  // ----- the two observations -----

  /** Both lexings go on alike behind the gap. */
  lemma LexedBehind(l: Lexing, g2: seq<byte>, rest: seq<byte>, k: Lexing)
    requires LexemeKind(l.config.state).None? && StaysInGap(l.config, g2) && Run(l.config, g2).Some?
    requires Run(Run(l.config, g2).value, rest).Some? && Run(l.config, g2 + rest).Some?
    requires rest != [] && LexemeKind(Advanced(Run(l.config, g2).value, rest[0]).value.state).Some?
    requires LexemeKind(Run(l.config, g2).value.state).None?
    requires k == FedAll(Lexing(Run(l.config, g2).value, [], [], Run(l.config, g2).value.state), rest)
    ensures FedAll(l, g2 + rest) == After(l.events + GapEvents(l.seg + g2, l.anchor), k)
  {
    var c2 := Run(l.config, g2).value;
    FedAllConcat(l, g2, rest);
    GapFed(l, g2);
    var m := Lexing(c2, l.events, l.seg + g2, l.anchor);
    var x := l.events + GapEvents(l.seg + g2, l.anchor);
    var base := Lexing(c2, [], [], c2.state);
    assert x + [] == x;
    assert Fed(m, rest[0]) == After(x, Fed(base, rest[0]));
    FedAllAfter(x, Fed(base, rest[0]), rest[1..]);
  }

  /** The scopes behind the gap agree, and so they do behind anything read after it. */
  lemma ScopesAgree(bare: Scope, events: seq<Event>, r: Config, g1: seq<byte>, g2: seq<byte>, a: State, a2: State,
                    rest: seq<Event>, schema: Schema)
    requires CutAt(r, g1, g2, a, a2) && Invisible(g1, g2, a, a2)
    ensures DispatchAll(DispatchAll(bare, events + GapEvents(g1, a), schema), GapEvents(g2, a2) + rest, schema)
         == DispatchAll(bare, events + GapEvents(g1 + g2, a) + rest, schema)
  {
    var u := DispatchAll(bare, events, schema);
    InvisibleCut(u, r, g1, g2, a, a2, schema);
    DispatchAllConcat(bare, events, GapEvents(g1, a), schema);
    DispatchAllConcat(DispatchAll(u, GapEvents(g1, a), schema), GapEvents(g2, a2), rest, schema);
    DispatchAllConcat(bare, events + GapEvents(g1 + g2, a), rest, schema);
    DispatchAllConcat(bare, events, GapEvents(g1 + g2, a), schema);
  }

  /** The lexeme still open behind the gap is buffered alike. */
  lemma PendingAgrees(t: Scope, before: Option<Pending>, pre: seq<Event>, mine: seq<Event>, k: Lexing, goesOn: bool)
    requires goesOn ==> pre != []
    ensures PendingAfter(t.(pending := before), After(pre, k), goesOn) == PendingAfter(t.(pending := None),
            After(mine, k), false)
  {
    assert Stamp(t.(pending := before), k.anchor) == Stamp(t.(pending := None), k.anchor);
  }

  /** A lexing that left the lexeme it went on with has dispatched it. */
  lemma LeftLexeme(s: Scope, c: Config, xs: seq<byte>)
    requires InStep(s, c) && Run(c, xs).Some? && LexemeKind(Run(c, xs).value.state).None?
    ensures Continues(s.pending, c) ==> Lexed(s, c, xs).events != []
  {
    FedAllReaches(Resumed(s.pending, c), xs);
    if Continues(s.pending, c) { NoEventsSameLexeme(Resumed(s.pending, c), xs); }
  }

  /** A token that ends in a gap leaves what its lexemes do, and nothing open. */
  lemma GapEnds(s: Scope, c: Config, bytes: seq<byte>, schema: Schema)
    requires Run(c, bytes).Some? && LexemeKind(Run(c, bytes).value.state).None?
    ensures Lexed(s, c, bytes).config == Run(c, bytes).value
    ensures Observed(s, c, bytes, schema) == DispatchAll(s.(pending := None), Flushed(Lexed(s, c, bytes)), schema)
    ensures Observed(s, c, bytes, schema).pending.None?
  {
    ObservedFields(s, c, bytes, schema);
    DispatchAllKeepsPending(s.(pending := None), Flushed(Lexed(s, c, bytes)), schema);
  }

  lemma GapFlushed(l: Lexing, g2: seq<byte>)
    requires LexemeKind(l.config.state).None? && StaysInGap(l.config, g2) && Run(l.config, g2).Some?
    ensures FedAll(l, g2).config == Run(l.config, g2).value
    ensures Flushed(FedAll(l, g2)) == l.events + GapEvents(l.seg + g2, l.anchor)
  {
    GapFed(l, g2);
    GapRuns(l.config, g2);
  }

  /** The place of a cut in an observed stream. */
  ghost predicate AtCut(s: Scope, c: Config, xs: seq<byte>, g2: seq<byte>, r: Config) {
    && InStep(s, c) && Run(c, xs).Some? && LexemeKind(Run(c, xs).value.state).None?
    && var l, c1 := Lexed(s, c, xs), Run(c, xs).value;
       && l.config == c1 && Run(r, l.seg) == Some(c1)
       && CutAt(r, l.seg, g2, l.anchor, c1.state) && Invisible(l.seg, g2, l.anchor, c1.state)
  }

  /** The gap of the cut, rooted where it began. */
  lemma GapAtCut(s: Scope, c: Config, xs: seq<byte>, ys: seq<byte>) returns (r: Config)
    requires InStep(s, c) && Run(c, xs).Some? && Run(Run(c, xs).value, ys).Some?
    requires LexemeKind(Run(c, xs).value.state).None? && CutIsInvisible(s, c, xs, ys)
    ensures AtCut(s, c, xs, ys[..GapLength(Run(c, xs).value, ys)], r)
  {
    var l, c1 := Lexed(s, c, xs), Run(c, xs).value;
    ResumedRooted(s, c);
    FedAllRooted(Resumed(s.pending, c), xs);
    FedAllReaches(Resumed(s.pending, c), xs);
    r :| GapFrom(r, l);
    GapGoesOn(c1, ys);
    GapConcatStays(r, l.seg, ys[..GapLength(c1, ys)]);
  }

  lemma GapAtCutStays(s: Scope, c: Config, xs: seq<byte>, g2: seq<byte>, r: Config)
    requires AtCut(s, c, xs, g2, r)
    ensures var c1 := Run(c, xs).value;
            && StaysInGap(c1, g2) && Run(c1, g2).Some? && LexemeKind(Run(c1, g2).value.state).None?
            && Run(c, xs + g2) == Run(c1, g2)
  {
    var l, c1 := Lexed(s, c, xs), Run(c, xs).value;
    CutStays(r, l.seg, g2, l.anchor, c1.state);
    GapRuns(c1, g2);
    RunConcat(c, xs, g2);
  }

  /** The lexemes of the cut's tokens, when the second one ends inside the gap. */
  lemma CutFlushed(s: Scope, c: Config, xs: seq<byte>, g2: seq<byte>, r: Config, s1: Scope)
    requires AtCut(s, c, xs, g2, r) && s1.pending.None?
    ensures Run(c, xs + g2).Some? && Run(Run(c, xs).value, g2).Some?
    ensures var l, c1 := Lexed(s, c, xs), Run(c, xs).value;
            && Flushed(Lexed(s, c, xs + g2)) == l.events + GapEvents(l.seg + g2, l.anchor)
            && Flushed(Lexed(s1, c1, g2)) == GapEvents(g2, c1.state)
  {
    var l, c1 := Lexed(s, c, xs), Run(c, xs).value;
    GapAtCutStays(s, c, xs, g2, r);
    FedAllConcat(Resumed(s.pending, c), xs, g2);
    GapFlushed(l, g2);
    GapFlushed(Resumed(s1.pending, c1), g2);
    assert [] + g2 == g2 && [] + GapEvents(g2, c1.state) == GapEvents(g2, c1.state);
  }

  /** The cut's two tokens, when the second one ends inside the gap. */
  lemma CutInGap(s: Scope, c: Config, xs: seq<byte>, g2: seq<byte>, r: Config, schema: Schema)
    requires AtCut(s, c, xs, g2, r)
    ensures Run(c, xs + g2).Some? && Run(Run(c, xs).value, g2).Some?
    ensures Observed(Observed(s, c, xs, schema), Run(c, xs).value, g2, schema) == Observed(s, c, xs + g2, schema)
  {
    var l, c1, s1 := Lexed(s, c, xs), Run(c, xs).value, Observed(s, c, xs, schema);
    var mine, whole := GapEvents(g2, c1.state), GapEvents(l.seg + g2, l.anchor);
    GapAtCutStays(s, c, xs, g2, r);
    GapEnds(s, c, xs, schema);
    CutFlushed(s, c, xs, g2, r, s1);
    GapEnds(s, c, xs + g2, schema);
    GapEnds(s1, c1, g2, schema);
    assert s1.(pending := None) == s1;
    ScopesAgree(s.(pending := None), l.events, r, l.seg, g2, l.anchor, c1.state, [], schema);
    assert mine + [] == mine && l.events + whole + [] == l.events + whole;
  }

  /** The lexings of the cut's tokens, when the second one goes on behind the gap. */
  lemma CutLexed(s: Scope, c: Config, xs: seq<byte>, g2: seq<byte>, rest: seq<byte>, r: Config,
                 s1: Scope) returns (k: Lexing)
    requires AtCut(s, c, xs, g2, r) && s1.pending.None?
    requires rest != [] && Run(Run(c, xs).value, g2).Some? && Run(Run(Run(c, xs).value, g2).value, rest).Some?
    requires LexemeKind(Advanced(Run(Run(c, xs).value, g2).value, rest[0]).value.state).Some?
    ensures Run(c, xs + (g2 + rest)).Some? && Run(Run(c, xs).value, g2 + rest).Some?
    ensures var l, c1 := Lexed(s, c, xs), Run(c, xs).value;
            && Lexed(s, c, xs + (g2 + rest)) == After(l.events + GapEvents(l.seg + g2, l.anchor), k)
            && Lexed(s1, c1, g2 + rest) == After([] + GapEvents([] + g2, c1.state), k)
  {
    var l, c1 := Lexed(s, c, xs), Run(c, xs).value;
    GapAtCutStays(s, c, xs, g2, r);
    RunConcat(c1, g2, rest);
    RunConcat(c, xs, g2 + rest);
    var c2 := Run(c1, g2).value;
    k := FedAll(Lexing(c2, [], [], c2.state), rest);
    FedAllConcat(Resumed(s.pending, c), xs, g2 + rest);
    LexedBehind(l, g2, rest, k);
    LexedBehind(Resumed(s1.pending, c1), g2, rest, k);
  }

  /** The cut's two tokens, when the second one goes on behind the gap. */
  lemma CutBehindGap(s: Scope, c: Config, xs: seq<byte>, g2: seq<byte>, rest: seq<byte>, r: Config, schema: Schema)
    requires AtCut(s, c, xs, g2, r)
    requires rest != [] && Run(Run(c, xs).value, g2).Some? && Run(Run(Run(c, xs).value, g2).value, rest).Some?
    requires LexemeKind(Advanced(Run(Run(c, xs).value, g2).value, rest[0]).value.state).Some?
    ensures Run(c, xs + (g2 + rest)).Some? && Run(Run(c, xs).value, g2 + rest).Some?
    ensures Observed(Observed(s, c, xs, schema), Run(c, xs).value, g2 + rest, schema)
         == Observed(s, c, xs + (g2 + rest), schema)
  {
    GapEnds(s, c, xs, schema);
    var k := CutLexed(s, c, xs, g2, rest, r, Observed(s, c, xs, schema));
    BothObserved(s, c, xs, g2, rest, r, k, schema);
  }

  lemma BothObserved(s: Scope, c: Config, xs: seq<byte>, g2: seq<byte>, rest: seq<byte>, r: Config, k: Lexing,
                     schema: Schema)
    requires AtCut(s, c, xs, g2, r)
    requires Run(c, xs + (g2 + rest)).Some? && Run(Run(c, xs).value, g2 + rest).Some?
    requires var l, c1, s1 := Lexed(s, c, xs), Run(c, xs).value, Observed(s, c, xs, schema);
             && Lexed(s, c, xs + (g2 + rest)) == After(l.events + GapEvents(l.seg + g2, l.anchor), k)
             && Lexed(s1, c1, g2 + rest) == After([] + GapEvents([] + g2, c1.state), k)
    ensures Observed(Observed(s, c, xs, schema), Run(c, xs).value, g2 + rest, schema)
         == Observed(s, c, xs + (g2 + rest), schema)
  {
    var l, c1, s1 := Lexed(s, c, xs), Run(c, xs).value, Observed(s, c, xs, schema);
    var bare, x, y := s.(pending := None), l.events + GapEvents(l.seg + g2, l.anchor), GapEvents(g2, c1.state);
    assert [] + g2 == g2 && [] + y == y;
    GapEnds(s, c, xs, schema);
    LeftLexeme(s, c, xs);
    ScopesAgree(bare, l.events, r, l.seg, g2, l.anchor, c1.state, Flushed(k), schema);
    var t := DispatchAll(bare, x + Flushed(k), schema);
    OneObserved(s, c, xs + (g2 + rest), x, k, t, Continues(s.pending, c), schema);
    OneObserved(s1, c1, g2 + rest, y, k, t, false, schema);
    PendingAgrees(t, s.pending, x, y, k, Continues(s.pending, c));
  }

  lemma OneObserved(s: Scope, c: Config, bytes: seq<byte>, x: seq<Event>, k: Lexing, t: Scope, goesOn: bool,
                    schema: Schema)
    requires Run(c, bytes).Some? && Lexed(s, c, bytes) == After(x, k) && goesOn == Continues(s.pending, c)
    requires t == DispatchAll(s.(pending := None), x + Flushed(k), schema)
    ensures Observed(s, c, bytes, schema)
         == t.(pending := PendingAfter(t.(pending := s.pending), After(x, k), goesOn))
  {
    FlushedAfter(x, k);
  }

  lemma CutAtGap(s: Scope, c: Config, xs: seq<byte>, ys: seq<byte>, g2: seq<byte>, rest: seq<byte>, r: Config,
                 schema: Schema)
    requires AtCut(s, c, xs, g2, r) && ys == g2 + rest && Run(c, xs + ys).Some? && Run(Run(c, xs).value, ys).Some?
    requires Run(Run(c, xs).value, g2).Some? && Run(Run(Run(c, xs).value, g2).value, rest).Some?
    requires rest != [] ==> LexemeKind(Advanced(Run(Run(c, xs).value, g2).value, rest[0]).value.state).Some?
    ensures Observed(Observed(s, c, xs, schema), Run(c, xs).value, ys, schema) == Observed(s, c, xs + ys, schema)
  {
    if rest == [] {
      assert ys == g2;
      CutInGap(s, c, xs, g2, r, schema);
    } else {
      CutBehindGap(s, c, xs, g2, rest, r, schema);
    }
  }

  /** A cut between two adjacent structural bytes that splits no token that matters, and behind which every byte
      of the gap reads its anchor as before, leaves the whole tracker as it would be without the cut. */
  lemma InvisibleCutDoesNotMatter(s: Scope, c: Config, xs: seq<byte>, ys: seq<byte>, schema: Schema)
    requires InStep(s, c) && Run(c, xs + ys).Some? && CutsAGap(c, xs, ys)
    requires Run(c, xs).Some? && Run(Run(c, xs).value, ys).Some? && CutIsInvisible(s, c, xs, ys)
    ensures Observed(Observed(s, c, xs, schema), Run(c, xs).value, ys, schema) == Observed(s, c, xs + ys, schema)
  {
    var r := GapAtCut(s, c, xs, ys);
    var c1 := Run(c, xs).value;
    GapGoesOn(c1, ys);
    var n := GapLength(c1, ys);
    CutAtGap(s, c, xs, ys, ys[..n], ys[n..], r, schema);
  }

  /** Tokenization does not matter, for every cut but those that show. */
  lemma OnlyVisibleCutsMatter(s: Scope, c: Config, xs: seq<byte>, ys: seq<byte>, schema: Schema)
    requires InStep(s, c) && Run(c, xs + ys).Some?
    ensures Run(c, xs).Some? && Run(Run(c, xs).value, ys).Some?
    ensures (CutsAGap(c, xs, ys) ==> CutIsInvisible(s, c, xs, ys)) ==>
              Observed(Observed(s, c, xs, schema), Run(c, xs).value, ys, schema) == Observed(s, c, xs + ys, schema)
  {
    RunConcat(c, xs, ys);
    if !CutsAGap(c, xs, ys) {
      CutsDoNotMatter(s, c, xs, ys, schema);
    } else if CutIsInvisible(s, c, xs, ys) {
      InvisibleCutDoesNotMatter(s, c, xs, ys, schema);
    }
  }

  // ----- and the visible ones do -----

  /** Wherever the stream is looked at behind the cut, the tracker is what it would be without the cut. */
  ghost predicate TokensUnseen(c: Config, g1: seq<byte>, g2: seq<byte>)
    requires g1 != [] && StaysInGap(c, g1 + g2)
  {
    forall n, s: Scope, schema :: 0 < n <= |g2| && s.pending.None? ==> AgreesAt(c, g1, g2, n, s, schema)
  }

  ghost predicate AgreesAt(c: Config, g1: seq<byte>, g2: seq<byte>, n: nat, s: Scope, schema: Schema) {
    && Run(c, g1).Some? && n <= |g2| && Run(Run(c, g1).value, g2[..n]).Some? && Run(c, g1 + g2[..n]).Some?
    && Observed(Observed(s, c, g1, schema), Run(c, g1).value, g2[..n], schema) == Observed(s, c, g1 + g2[..n], schema)
  }

  lemma TokensAreGaps(c: Config, g1: seq<byte>, g2: seq<byte>, n: nat, s: Scope, schema: Schema)
    requires g1 != [] && StaysInGap(c, g1 + g2) && LexemeKind(c.state).None? && 0 < n <= |g2| && s.pending.None?
    ensures Run(c, g1).Some?
    ensures var a, a2 := c.state, Run(c, g1).value.state;
            AgreesAt(c, g1, g2, n, s, schema) <==>
                Cut(s, g1, g2[..n], a, a2, schema) == Whole(s, g1, g2[..n], a, schema)
  {
    var p := g2[..n];
    assert g1 + g2 == g1 + p + g2[n..];
    GapPrefixStays(c, g1 + g2, g1 + p, g2[n..]);
    GapPrefixStays(c, g1 + p, g1, p);
    GapRuns(c, g1);
    GapRuns(c, g1 + p);
    GapConcatStays(c, g1, p);
    RunConcat(c, g1, p);
    GapObserved(s, c, g1, schema);
    GapObserved(s, c, g1 + p, schema);
    DispatchAllKeepsPending(s, GapEvents(g1, c.state), schema);
    GapObserved(Observed(s, c, g1, schema), Run(c, g1).value, p, schema);
  }

  /** Over structural tokens the condition is exact: a cut goes unseen in every scope, however far the gap goes on,
      if and only if it is invisible. */
  lemma TokensUnseenIffInvisible(c: Config, g1: seq<byte>, g2: seq<byte>, schema: Schema)
    requires g1 != [] && g2 != [] && StaysInGap(c, g1 + g2) && LexemeKind(c.state).None?
    ensures Run(c, g1).Some?
    ensures TokensUnseen(c, g1, g2) <==> Invisible(g1, g2, c.state, Run(c, g1).value.state)
  {
    GapPrefixStays(c, g1 + g2, g1, g2);
    GapRuns(c, g1);
    var a, a2 := c.state, Run(c, g1).value.state;
    UnseenIffInvisible(c, g1, g2, a, a2, Schema([], map[], map[]));
    forall n, s: Scope, schema | 0 < n <= |g2| && s.pending.None?
      ensures AgreesAt(c, g1, g2, n, s, schema)
         <==> Cut(s, g1, g2[..n], a, a2, schema) == Whole(s, g1, g2[..n], a, schema)
    {
      TokensAreGaps(c, g1, g2, n, s, schema);
    }
  }

  /** Such a cut at the very start of a stream: `{|` in one token opens a block, `{` and `|` in two begin a lambda
      body. */
  lemma BlockOpeningShows(open: seq<byte>, pipe: seq<byte>, schema: Schema)
    requires open == [LBRACE] && pipe == [PIPE]
    ensures Run(INITIAL, open) == Some(Config(AfterBraceOpen, [Brace]))
    ensures Run(INITIAL, open + pipe) == Some(Config(BlockStmt, [Brace]))
    ensures Run(Config(AfterBraceOpen, [Brace]), pipe) == Some(Config(BlockStmt, [Brace]))
    ensures Observed(FRESH, INITIAL, open + pipe, schema).scopeSaves == []
    ensures Observed(Observed(FRESH, INITIAL, open, schema), Config(AfterBraceOpen, [Brace]), pipe,
            schema).scopeSaves != []
  {
    var c1 := Config(AfterBraceOpen, [Brace]);
    BlockOpeningRuns(open, pipe);
    BlockOpeningEvents(open, pipe);
    GapObserved(FRESH, INITIAL, open, schema);
    GapObserved(FRESH, INITIAL, open + pipe, schema);
    BraceSavesNothing(open, schema);
    var s1 := DispatchAll(FRESH, GapEvents(open, Start), schema);
    DispatchAllConcat(FRESH, GapEvents(open, Start), [Event(pipe, Start)], schema);
    PipeTokenSaves(s1, pipe, Start, schema);
    GapObserved(s1, c1, pipe, schema);
    PipeTokenSaves(s1, pipe, AfterBraceOpen, schema);
  }

  lemma BlockOpeningEvents(open: seq<byte>, pipe: seq<byte>)
    requires open == [LBRACE] && pipe == [PIPE]
    ensures GapEvents(open + pipe, Start) == GapEvents(open, Start) + [Event(pipe, Start)]
    ensures GapEvents(open, Start) == [Event(open, Start)]
    ensures GapEvents(pipe, AfterBraceOpen) == [Event(pipe, AfterBraceOpen)]
  {
    AskingByte(LBRACE, Start);
    AskingByte(PIPE, Start);
    AskingByte(PIPE, AfterBraceOpen);
    GapTokens.GapConcat(open, pipe, Start);
  }

  lemma BraceSavesNothing(open: seq<byte>, schema: Schema)
    requires open == [LBRACE]
    ensures var t := DispatchAll(FRESH, [Event(open, Start)], schema); t.scopeSaves == [] && t.pending.None?
  {
    OpenerClassifies(open);
    DispatchOne(FRESH, Event(open, Start), schema);
  }

  lemma PipeTokenSaves(s: Scope, pipe: seq<byte>, pre: State, schema: Schema)
    requires pipe == [PIPE] && s.scopeSaves == []
    ensures DispatchAll(s, [Event(pipe, pre)], schema).scopeSaves == [] <==> IsOpeningPipe(pre)
  {
    DispatchOne(s, Event(pipe, pre), schema);
    PipeSaves(s, pipe, pre, schema);
  }

  lemma BlockOpeningRuns(open: seq<byte>, pipe: seq<byte>)
    requires open == [LBRACE] && pipe == [PIPE]
    ensures StaysInGap(INITIAL, open) && Run(INITIAL, open) == Some(Config(AfterBraceOpen, [Brace]))
    ensures StaysInGap(Config(AfterBraceOpen, [Brace]), pipe)
    ensures Run(Config(AfterBraceOpen, [Brace]), pipe) == Some(Config(BlockStmt, [Brace]))
    ensures StaysInGap(INITIAL, open + pipe) && Run(INITIAL, open + pipe) == Some(Config(BlockStmt, [Brace]))
  {
    assert [] + [Brace] == [Brace];
    OneGapByte(INITIAL, open, LBRACE);
    OneGapByte(Config(AfterBraceOpen, [Brace]), pipe, PIPE);
    GapConcatStays(INITIAL, open, pipe);
    RunConcat(INITIAL, open, pipe);
  }
}
