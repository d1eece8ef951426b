/** Cuts inside a structural gap: exactly which of them the tracker can see. */
module GapCuts {
  import opened Bytes
  import opened Automaton
  import opened Runs
  import opened Model
  import opened Lexemes
  import opened Scopes
  import opened Tokenization
  import Lockstep
  import opened Segments
  import opened Navigation
  import opened GapTokens

  // ----- what reads the anchor of its gap -----

  /** A byte whose lexeme cannot tell the two anchors apart: openers ask for a tilde, pipes for the opening of the
      query, identifiers for a tilde or a value position; nothing else asks. */
  predicate ReadsAlike(b: byte, a: State, a2: State) {
    && (IsOpener(b) ==> (a == SawTilde <==> a2 == SawTilde))
    && (b == PIPE ==> (IsOpeningPipe(a) <==> IsOpeningPipe(a2)))
    && (IsIdentStart(b) ==> (a == SawTilde <==> a2 == SawTilde) && (AtValue(a) <==> AtValue(a2)))
  }

  predicate AllReadAlike(bytes: seq<byte>, a: State, a2: State) {
    forall i :: 0 <= i < |bytes| ==> ReadsAlike(bytes[i], a, a2)
  }

  /** The anchors from which an identifier is read inside a gap. */
  predicate PlainAnchor(a: State) {
    a != AfterDollar && a != AfterDot && a != AfterColon && a != AfterColonWs
  }

  lemma IdentReanchored(s: Scope, text: Name, a: State, a2: State, schema: Schema)
    requires PlainAnchor(a) && PlainAnchor(a2)
    requires (a == SawTilde <==> a2 == SawTilde) && (AtValue(a) <==> AtValue(a2))
    ensures OnIdent(s, text, a, schema) == OnIdent(s, text, a2, schema)
  {
  }

  lemma LexemeReanchored(s: Scope, lex: Lexeme, a: State, a2: State, schema: Schema)
    requires lex.OpenDelim? ==> (a == SawTilde <==> a2 == SawTilde)
    requires lex.PipeOp? ==> (IsOpeningPipe(a) <==> IsOpeningPipe(a2))
    requires lex.Identifier? ==>
               && PlainAnchor(a) && PlainAnchor(a2)
               && (a == SawTilde <==> a2 == SawTilde) && (AtValue(a) <==> AtValue(a2))
    ensures Acted(s, lex, a, schema) == Acted(s, lex, a2, schema)
  {
    match lex
    case Identifier(text) => IdentReanchored(s, text, a, a2, schema);
    case _ =>
  }

  lemma TokenReanchored(s: Scope, token: seq<byte>, a: State, a2: State, schema: Schema)
    requires token != [] && ReadsAlike(token[0], a, a2)
    requires IsIdentStart(token[0]) ==> PlainAnchor(a) && PlainAnchor(a2)
    ensures Dispatch(s, token, a, schema) == Dispatch(s, token, a2, schema)
  {
    ClassifiedOperator(token);
    Lockstep.ClassifiedDelimiter(token);
    LexemeReanchored(s, Classify(token), a, a2, schema);
  }

  /** A gap whose bytes read alike is dispatched alike from either anchor. */
  lemma {:induction false} GapReanchored(s: Scope, gap: seq<byte>, a: State, a2: State, schema: Schema)
    requires AllReadAlike(gap, a, a2) && (NoIdentStart(gap) || (PlainAnchor(a) && PlainAnchor(a2)))
    ensures DispatchAll(s, GapEvents(gap, a), schema) == DispatchAll(s, GapEvents(gap, a2), schema)
    decreases |gap|
  {
    if gap != [] {
      var n := GapToken(gap);
      var token, rest := gap[..n], gap[n..];
      assert AllReadAlike(rest, a, a2) && (NoIdentStart(gap) ==> NoIdentStart(rest));
      if IsAsciiWs(gap[0]) {
        GapReanchored(s, rest, a, a2, schema);
      } else {
        TokenReanchored(s, token, a, a2, schema);
        GapReanchored(Dispatch(s, token, a, schema), rest, a, a2, schema);
        HeadDispatched(s, Event(token, a), GapEvents(rest, a), schema);
        HeadDispatched(s, Event(token, a2), GapEvents(rest, a2), schema);
      }
    }
  }

  lemma HeadDispatched(s: Scope, e: Event, events: seq<Event>, schema: Schema)
    ensures DispatchAll(s, [e] + events, schema) == DispatchAll(Dispatch(s, e.bytes, e.anchor, schema), events, schema)
  {
    assert ([e] + events)[1..] == events;
  }

  // ----- the call's name across a gap -----

  /** Whether a lexeme leaves a name read before it in place. */
  predicate KeepsName(lex: Lexeme) {
    lex.CloseDelim? || lex.DotOp? || lex.PipeOp? || lex.CmpOp? || lex.Blank?
  }

  /** Whether the identifier last read may still be there behind these lexemes. */
  predicate NameSurvives(events: seq<Event>)
    decreases |events|
  {
    events == []
    || (var lex := Classify(events[|events| - 1].bytes);
        lex.Identifier? || (KeepsName(lex) && NameSurvives(events[..|events| - 1])))
  }

  lemma DispatchAllSnoc(s: Scope, events: seq<Event>, schema: Schema)
    requires events != []
    ensures var e, front := events[|events| - 1], DispatchAll(s, events[..|events| - 1], schema);
            DispatchAll(s, events, schema) == Dispatch(front, e.bytes, e.anchor, schema)
  {
    var n := |events| - 1;
    assert events == events[..n] + [events[n]];
    DispatchAllConcat(s, events[..n], [events[n]], schema);
    DispatchOne(DispatchAll(s, events[..n], schema), events[n], schema);
  }

  /** What an operator can read of what came before it in its gap. */
  predicate Quiet(s: Scope) {
    s.lastIdent.None? && s.lastResolved.None? && s.cmpPending.None?
  }

  lemma RestoringKeepsName(s: Scope)
    ensures BindersRestored(s).lastIdent == s.lastIdent && BodiesRestored(s).lastIdent == s.lastIdent
    decreases |s.binderSaves| + |s.scopeSaves|
  {
  }

  lemma RestoringKeepsOperand(s: Scope)
    ensures BindersRestored(s).lastResolved == s.lastResolved && BodiesRestored(s).lastResolved == s.lastResolved
    ensures BindersRestored(s).cmpPending == s.cmpPending && BodiesRestored(s).cmpPending == s.cmpPending
    decreases |s.binderSaves| + |s.scopeSaves|
  {
  }

  lemma CloseKeepsName(s: Scope)
    ensures OnClose(s).lastIdent == s.lastIdent
  {
    RestoringKeepsName(s);
    RestoringKeepsName(BindersRestored(s));
  }

  lemma CloseKeepsQuiet(s: Scope)
    requires Quiet(s)
    ensures Quiet(OnClose(s))
  {
    CloseKeepsName(s);
    RestoringKeepsOperand(s);
    RestoringKeepsOperand(BindersRestored(s));
  }

  lemma KeptName(s: Scope, e: Event, schema: Schema)
    requires KeepsName(Classify(e.bytes))
    ensures Dispatch(s, e.bytes, e.anchor, schema).lastIdent == s.lastIdent
  {
    match Classify(e.bytes)
    case CloseDelim => CloseKeepsName(s);
    case PipeOp => PipeKeepsName(s, e.anchor);
    case _ =>
  }

  lemma PipeKeepsName(s: Scope, pre: State)
    ensures OnPipe(s, pre).lastIdent == s.lastIdent
    ensures Quiet(s) ==> Quiet(OnPipe(s, pre))
  {
  }

  lemma KeptQuiet(s: Scope, e: Event, schema: Schema)
    requires KeepsName(Classify(e.bytes)) && Quiet(s)
    ensures Quiet(Dispatch(s, e.bytes, e.anchor, schema))
  {
    if Classify(e.bytes).CloseDelim? { CloseKeepsQuiet(s); }
    if Classify(e.bytes).PipeOp? { PipeKeepsName(s, e.anchor); }
  }

  lemma ForgottenName(s: Scope, e: Event, schema: Schema)
    requires !KeepsName(Classify(e.bytes)) && !Classify(e.bytes).Identifier?
    ensures Quiet(Dispatch(s, e.bytes, e.anchor, schema))
  {
  }

  /** When the name does not survive, nothing is left for a comparison to read. */
  lemma {:induction false} NothingSurvives(s: Scope, events: seq<Event>, schema: Schema)
    requires !NameSurvives(events)
    ensures Quiet(DispatchAll(s, events, schema))
    decreases |events|
  {
    var n := |events| - 1;
    DispatchAllSnoc(s, events, schema);
    var t := DispatchAll(s, events[..n], schema);
    if KeepsName(Classify(events[n].bytes)) {
      NothingSurvives(s, events[..n], schema);
      KeptQuiet(t, events[n], schema);
    } else {
      ForgottenName(t, events[n], schema);
    }
  }

  /** When it may survive, it does from a scope that holds one. */
  lemma {:induction false} NameIsKept(s: Scope, events: seq<Event>, schema: Schema)
    requires NameSurvives(events) && s.lastIdent.Some?
    ensures DispatchAll(s, events, schema).lastIdent.Some?
    decreases |events|
  {
    if events != [] {
      var n := |events| - 1;
      DispatchAllSnoc(s, events, schema);
      var t := DispatchAll(s, events[..n], schema);
      if KeepsName(Classify(events[n].bytes)) {
        NameIsKept(s, events[..n], schema);
        KeptName(t, events[n], schema);
      } else {
        IdentSetsName(t, events[n], schema);
      }
    }
  }

  lemma IdentSetsName(s: Scope, e: Event, schema: Schema)
    requires Classify(e.bytes).Identifier?
    ensures Dispatch(s, e.bytes, e.anchor, schema).lastIdent == Some(Classify(e.bytes).text)
  {
  }

  // ----- the exact condition -----

  /** A split operator the tracker cannot see: `&&`, whose halves do what it does, and a comparison behind a lexeme
      that has already used up the name before it. */
  ghost predicate HarmlessSplit(pre: seq<byte>, token: seq<byte>, b: byte) {
    || (token == [AMP] && b == AMP)
    || (|token| == 1 && b == EQUALS && IsTwoByteOp(token[0], b) && !NameSurvives(GapEvents(pre, Start)))
  }

  /** No token spans the cut, or the split one is harmless. */
  ghost predicate SplitsNothing(g1: seq<byte>, b: byte)
    requires g1 != []
  {
    var token := OpenToken(g1);
    Joins(token, b) ==> HarmlessSplit(g1[..|g1| - |token|], token, b)
  }

  /** The cut a gap does not show: it splits no token that matters, and every byte behind it reads the anchor of
      its own token as it would read the anchor of the whole gap. */
  ghost predicate Invisible(g1: seq<byte>, g2: seq<byte>, a: State, a2: State)
    requires g1 != [] && g2 != []
  {
    SplitsNothing(g1, g2[0]) && AllReadAlike(g2, a, a2)
  }

  /** The scope after a gap, in one piece and in two. */
  ghost function Whole(s: Scope, g1: seq<byte>, g2: seq<byte>, a: State, schema: Schema): Scope {
    DispatchAll(s, GapEvents(g1 + g2, a), schema)
  }

  ghost function Cut(s: Scope, g1: seq<byte>, g2: seq<byte>, a: State, a2: State, schema: Schema): Scope {
    DispatchAll(DispatchAll(s, GapEvents(g1, a), schema), GapEvents(g2, a2), schema)
  }

  /** A gap that starts at `r`, and the place of a cut in it. */
  predicate CutAt(r: Config, g1: seq<byte>, g2: seq<byte>, a: State, a2: State) {
    && g1 != [] && g2 != [] && StaysInGap(r, g1 + g2) && r.state == a
    && Run(r, g1).Some? && Run(r, g1).value.state == a2
  }

  lemma CutStays(r: Config, g1: seq<byte>, g2: seq<byte>, a: State, a2: State)
    requires CutAt(r, g1, g2, a, a2)
    ensures StaysInGap(r, g1) && StaysInGap(Run(r, g1).value, g2)
  {
    GapConcatStays(r, g1, g2);
  }

  lemma IdentsAreRead(r: Config, g1: seq<byte>, g2: seq<byte>, a: State, a2: State)
    requires CutAt(r, g1, g2, a, a2)
    ensures NoIdentStart(g2) || (PlainAnchor(a) && PlainAnchor(a2))
  {
    CutStays(r, g1, g2, a, a2);
    if !PlainAnchor(a) {
      SterileGap(r, g1 + g2);
      assert forall i :: 0 <= i < |g2| ==> g2[i] == (g1 + g2)[|g1| + i];
    } else if !PlainAnchor(a2) {
      SterileGap(Run(r, g1).value, g2);
    }
  }

  // ----- the condition suffices -----

  lemma AmpersandsSplit(s: Scope, amp: seq<byte>, pair: seq<byte>, a: State, a2: State, schema: Schema)
    requires amp == [AMP] && pair == [AMP, AMP]
    ensures Dispatch(Dispatch(s, amp, a, schema), amp, a2, schema) == Dispatch(s, pair, a, schema)
  {
    assert !IsAsciiWs(amp[0]) && !IsAsciiWs(pair[0]);
    assert Classify(amp) == OtherOp && Classify(pair) == OtherOp;
  }

  lemma ComparisonClassifies(token: seq<byte>, equals: seq<byte>, pair: seq<byte>)
    requires |token| == 1 && equals == [EQUALS] && pair == token + equals && IsTwoByteOp(token[0], EQUALS)
    ensures Classify(pair) == CmpOp && Classify(equals) == OtherOp
    ensures Classify(token) == OtherOp || Classify(token) == CmpOp
  {
    assert !IsAsciiWs(token[0]) && !IsAsciiWs(equals[0]) && !IsAsciiWs(pair[0]);
  }

  lemma ComparisonKept(s: Scope, token: seq<byte>, a: State, schema: Schema)
    requires Classify(token) == CmpOp && Quiet(s)
    ensures Dispatch(s, token, a, schema) == s
  {
  }

  lemma OtherKept(s: Scope, token: seq<byte>, a: State, schema: Schema)
    requires Classify(token) == OtherOp && Quiet(s)
    ensures Dispatch(s, token, a, schema) == s
  {
  }

  lemma ComparisonSplit(s: Scope, token: seq<byte>, equals: seq<byte>, a: State, a2: State, schema: Schema)
    requires |token| == 1 && equals == [EQUALS] && IsTwoByteOp(token[0], EQUALS) && Quiet(s)
    ensures Dispatch(Dispatch(s, token, a, schema), equals, a2, schema) == Dispatch(s, token + equals, a, schema)
  {
    ComparisonClassifies(token, equals, token + equals);
    ComparisonKept(s, token + equals, a, schema);
    if Classify(token) == CmpOp { ComparisonKept(s, token, a, schema); } else { OtherKept(s, token, a, schema); }
    OtherKept(s, equals, a2, schema);
  }

  lemma {:induction false} AnchorIsNotRead(events: seq<Event>, others: seq<Event>)
    requires |events| == |others| && forall i :: 0 <= i < |events| ==> events[i].bytes == others[i].bytes
    ensures NameSurvives(events) == NameSurvives(others)
    decreases |events|
  {
    if events != [] {
      AnchorIsNotRead(events[..|events| - 1], others[..|others| - 1]);
    }
  }

  lemma {:induction false} SameTokens(gap: seq<byte>, a: State, a2: State)
    ensures |GapEvents(gap, a)| == |GapEvents(gap, a2)|
    ensures forall i :: 0 <= i < |GapEvents(gap, a)| ==> GapEvents(gap, a)[i].bytes == GapEvents(gap, a2)[i].bytes
    decreases |gap|
  {
    if gap != [] {
      if IsAsciiWs(gap[0]) { SameTokens(gap[1..], a, a2); } else { SameTokens(gap[GapToken(gap)..], a, a2); }
    }
  }

  lemma SurvivalIsOfTheGap(gap: seq<byte>, a: State)
    ensures NameSurvives(GapEvents(gap, a)) == NameSurvives(GapEvents(gap, Start))
  {
    SameTokens(gap, a, Start);
    AnchorIsNotRead(GapEvents(gap, a), GapEvents(gap, Start));
  }

  /** A harmless split leaves the same scope as the operator in one piece. */
  lemma SplitIsHarmless(s: Scope, pre: seq<byte>, token: seq<byte>, b: byte, a: State, a2: State, schema: Schema)
    requires HarmlessSplit(pre, token, b)
    ensures var v := DispatchAll(s, GapEvents(pre, a), schema);
            Dispatch(Dispatch(v, token, a, schema), [b], a2, schema) == Dispatch(v, token + [b], a, schema)
  {
    var v := DispatchAll(s, GapEvents(pre, a), schema);
    if token == [AMP] && b == AMP {
      AmpersandsSplit(v, token, token + [b], a, a2, schema);
    } else {
      SurvivalIsOfTheGap(pre, a);
      NothingSurvives(s, GapEvents(pre, a), schema);
      ComparisonSplit(v, token, [b], a, a2, schema);
    }
  }

  lemma PairThenValue(r: Config, pre: seq<byte>, x: byte, y: byte, z: byte)
    requires StaysInGap(r, pre + [x] + [y] + [z]) && IsTwoByteOp(x, y) && (y == EQUALS || y == AMP)
    ensures !IsTwoByteOp(y, z)
  {
    GapConcatStays3(r, pre, x, y, z);
    var c0 := Run(r, pre).value;
    var c1 := Advanced(c0, x).value;
    var c2 := Advanced(c1, y).value;
    OperatorOpens(c0.state, Top(c0.stack), x);
    PairNeedsAValue(c1.state, Top(c1.stack), y);
    ValueStartsNoPair(Top(c2.stack), y, z);
  }

  /** Three bytes behind a gap, one by one. */
  lemma GapConcatStays3(r: Config, pre: seq<byte>, x: byte, y: byte, z: byte)
    requires StaysInGap(r, pre + [x] + [y] + [z])
    ensures Run(r, pre).Some?
    ensures var c0 := Run(r, pre).value;
            && Advanced(c0, x).Some? && LexemeKind(Advanced(c0, x).value.state).None?
            && var c1 := Advanced(c0, x).value;
               && Advanced(c1, y).Some? && LexemeKind(Advanced(c1, y).value.state).None?
               && Advanced(Advanced(c1, y).value, z).Some?
  {
    TwoBytesBehind(r, pre, x, y, [z]);
    assert pre + [x] + [y] + [z] == pre + [x] + [y] + [z];
  }

  lemma TwoBytesBehind(r: Config, pre: seq<byte>, x: byte, y: byte, rest: seq<byte>)
    requires StaysInGap(r, pre + [x] + [y] + rest)
    ensures Run(r, pre).Some? && StaysInGap(r, pre)
    ensures var c0 := Run(r, pre).value;
            && Advanced(c0, x).Some? && LexemeKind(Advanced(c0, x).value.state).None?
            && Run(r, pre + [x]) == Advanced(c0, x)
            && var c1 := Advanced(c0, x).value;
               && Advanced(c1, y).Some? && LexemeKind(Advanced(c1, y).value.state).None?
               && StaysInGap(Advanced(c1, y).value, rest)
  {
    var behind := [x] + [y] + rest;
    assert pre + [x] + [y] + rest == pre + behind;
    assert behind[0] == x && behind[1..] == [y] + rest && behind[1..][0] == y && behind[1..][1..] == rest;
    GapRuns(r, pre + behind);
    RunConcat(r, pre, behind);
    GapConcatStays(r, pre, behind);
    RunSnoc(r, pre, x);
  }

  lemma GapPrefixStays(r: Config, whole: seq<byte>, front: seq<byte>, rest: seq<byte>)
    requires StaysInGap(r, whole) && whole == front + rest
    ensures StaysInGap(r, front)
  {
    GapRuns(r, whole);
    RunConcat(r, front, rest);
    GapConcatStays(r, front, rest);
  }

  lemma FirstTwo(g1: seq<byte>, g2: seq<byte>)
    requires |g2| > 1
    ensures g1 + g2 == g1 + [g2[0]] + [g2[1]] + g2[2..]
  {
  }

  lemma NothingJoinsBehind(r: Config, g1: seq<byte>, g2: seq<byte>)
    requires g1 != [] && |g2| > 1 && StaysInGap(r, g1 + g2)
    requires |OpenToken(g1)| == 1 && IsTwoByteOp(OpenToken(g1)[0], g2[0]) && (g2[0] == EQUALS || g2[0] == AMP)
    ensures !Joins([g2[0]], g2[1])
  {
    var pre := LastToken(g1);
    var x, front := OpenToken(g1)[0], g1 + [g2[0]] + [g2[1]];
    assert OpenToken(g1) == [x];
    FirstTwo(g1, g2);
    GapPrefixStays(r, g1 + g2, front, g2[2..]);
    PairThenValue(r, pre, x, g2[0], g2[1]);
  }

  /** Both pieces of a harmlessly split gap, by their lexemes. */
  lemma SplitEvents(g1: seq<byte>, b: byte, rest: seq<byte>, a: State, a2: State) returns (pre: seq<byte>)
    requires g1 != [] && Joins(OpenToken(g1), b) && SplitsNothing(g1, b)
    requires rest != [] ==> !Joins([b], rest[0])
    ensures HarmlessSplit(pre, OpenToken(g1), b)
    ensures GapEvents(g1, a) == GapEvents(pre, a) + [Event(OpenToken(g1), a)]
    ensures GapEvents([b] + rest, a2) == [Event([b], a2)] + GapEvents(rest, a2)
    ensures GapEvents(g1 + [b] + rest, a) == GapEvents(pre, a) + [Event(OpenToken(g1) + [b], a)] + GapEvents(rest, a)
  {
    var token := OpenToken(g1);
    pre := GapJoin(g1, b, a);
    assert g1[..|g1| - |token|] == pre;
    OneToken([b], a2);
    if rest == [] {
      assert g1 + [b] + rest == g1 + [b] && [b] + rest == [b];
    } else {
      GapConcat([b], rest, a2);
      GapConcat(g1 + [b], rest, a);
    }
  }

  lemma TwoForOne(s: Scope, front: seq<Event>, e1: Event, e2: Event, both: Event, rest: seq<Event>, others: seq<Event>,
                  schema: Schema)
    requires var v := DispatchAll(s, front, schema);
             var w := Dispatch(v, both.bytes, both.anchor, schema);
             && Dispatch(Dispatch(v, e1.bytes, e1.anchor, schema), e2.bytes, e2.anchor, schema) == w
             && DispatchAll(w, rest, schema) == DispatchAll(w, others, schema)
    ensures DispatchAll(DispatchAll(s, front + [e1], schema), [e2] + rest, schema)
         == DispatchAll(s, front + [both] + others, schema)
  {
    var v := DispatchAll(s, front, schema);
    DispatchAllConcat(s, front, [e1], schema);
    DispatchOne(v, e1, schema);
    HeadDispatched(Dispatch(v, e1.bytes, e1.anchor, schema), e2, rest, schema);
    DispatchAllConcat(s, front + [both], others, schema);
    DispatchAllConcat(s, front, [both], schema);
    DispatchOne(v, both, schema);
  }

  lemma Regrouped(g1: seq<byte>, b: byte, rest: seq<byte>)
    ensures g1 + ([b] + rest) == g1 + [b] + rest
  {
  }

  lemma SplitDispatched(s: Scope, g1: seq<byte>, b: byte, rest: seq<byte>, a: State, a2: State, schema: Schema)
    requires g1 != [] && Joins(OpenToken(g1), b) && SplitsNothing(g1, b)
    requires rest != [] ==> !Joins([b], rest[0])
    requires AllReadAlike(rest, a, a2) && (NoIdentStart(rest) || (PlainAnchor(a) && PlainAnchor(a2)))
    ensures Cut(s, g1, [b] + rest, a, a2, schema) == Whole(s, g1, [b] + rest, a, schema)
  {
    var token := OpenToken(g1);
    var pre := SplitEvents(g1, b, rest, a, a2);
    var v := DispatchAll(s, GapEvents(pre, a), schema);
    SplitIsHarmless(s, pre, token, b, a, a2, schema);
    GapReanchored(Dispatch(v, token + [b], a, schema), rest, a, a2, schema);
    TwoForOne(s, GapEvents(pre, a), Event(token, a), Event([b], a2), Event(token + [b], a),
              GapEvents(rest, a2), GapEvents(rest, a), schema);
    Regrouped(g1, b, rest);
  }

  lemma SplitCut(s: Scope, r: Config, g1: seq<byte>, g2: seq<byte>, a: State, a2: State, schema: Schema)
    requires CutAt(r, g1, g2, a, a2) && Invisible(g1, g2, a, a2) && Joins(OpenToken(g1), g2[0])
    ensures Cut(s, g1, g2, a, a2, schema) == Whole(s, g1, g2, a, schema)
  {
    var b, rest := g2[0], g2[1..];
    assert g2 == [b] + rest;
    if rest != [] { NothingJoinsBehind(r, g1, g2); }
    IdentsAreRead(r, g1, g2, a, a2);
    assert NoIdentStart(g2) ==> NoIdentStart(rest);
    SplitDispatched(s, g1, b, rest, a, a2, schema);
  }

  /** An invisible cut leaves the same scope, whatever the scope before the gap. */
  lemma InvisibleCut(s: Scope, r: Config, g1: seq<byte>, g2: seq<byte>, a: State, a2: State, schema: Schema)
    requires CutAt(r, g1, g2, a, a2) && Invisible(g1, g2, a, a2)
    ensures Cut(s, g1, g2, a, a2, schema) == Whole(s, g1, g2, a, schema)
  {
    if Joins(OpenToken(g1), g2[0]) {
      SplitCut(s, r, g1, g2, a, a2, schema);
    } else {
      GapConcat(g1, g2, a);
      DispatchAllConcat(s, GapEvents(g1, a), GapEvents(g2, a), schema);
      IdentsAreRead(r, g1, g2, a, a2);
      GapReanchored(DispatchAll(s, GapEvents(g1, a), schema), g2, a, a2, schema);
    }
  }

  // ----- and it is needed -----

  /** A harmful split shows at once, behind its second byte. */
  lemma JoinDispatched(s: Scope, g1: seq<byte>, b: byte, a: State, a2: State, schema: Schema) returns (pre: seq<byte>)
    requires g1 != [] && Joins(OpenToken(g1), b) && !IsAsciiWs(b) && GapToken([b]) == 1
    ensures g1 == pre + OpenToken(g1)
    ensures var v := DispatchAll(s, GapEvents(pre, a), schema);
            && Whole(s, g1, [b], a, schema) == Dispatch(v, OpenToken(g1) + [b], a, schema)
            && Cut(s, g1, [b], a, a2, schema) == Dispatch(Dispatch(v, OpenToken(g1), a, schema), [b], a2, schema)
  {
    var token := OpenToken(g1);
    pre := GapJoin(g1, b, a);
    OneToken([b], a2);
    var v := DispatchAll(s, GapEvents(pre, a), schema);
    DispatchAllConcat(s, GapEvents(pre, a), [Event(token, a)], schema);
    DispatchAllConcat(s, GapEvents(pre, a), [Event(token + [b], a)], schema);
    DispatchOne(v, Event(token, a), schema);
    DispatchOne(v, Event(token + [b], a), schema);
    DispatchOne(Dispatch(v, token, a, schema), Event([b], a2), schema);
  }

  lemma IdentSplitShows(v: Scope, token: seq<byte>, b: byte, a: State, a2: State, schema: Schema)
    requires token != [] && IsIdentStart(token[0]) && IsIdentTail(b) && IdentRun(token) == |token|
    ensures Dispatch(v, token + [b], a, schema) != Dispatch(Dispatch(v, token, a, schema), [b], a2, schema)
  {
    IdentRunWhole(token);
    IdentIsIdentifier(token + [b]);
    TailClassifies([b]);
    var whole := Dispatch(v, token + [b], a, schema);
    IdentSetsName(v, Event(token + [b], a), schema);
    LastIdentOfTail(Dispatch(v, token, a, schema), [b], a2, schema);
    assert |token + [b]| > 1;
  }

  lemma TailClassifies(tail: seq<byte>)
    requires |tail| == 1 && IsIdentTail(tail[0])
    ensures Classify(tail) == if IsIdentStart(tail[0]) then Identifier(tail) else NumberLit
  {
    assert !IsAsciiWs(tail[0]);
    if IsIdentStart(tail[0]) { IdentIsIdentifier(tail); }
  }

  lemma LastIdentOfTail(s: Scope, tail: seq<byte>, a: State, schema: Schema)
    requires |tail| == 1 && IsIdentTail(tail[0])
    ensures var name := Dispatch(s, tail, a, schema).lastIdent; name.Some? ==> |name.value| == 1
  {
    TailClassifies(tail);
    if IsIdentStart(tail[0]) { IdentSetsName(s, Event(tail, a), schema); }
  }

  lemma PipesClassify(pipe: seq<byte>, pipes: seq<byte>)
    requires pipe == [PIPE] && pipes == [PIPE, PIPE]
    ensures Classify(pipe) == PipeOp && Classify(pipes) == OtherOp
  {
    assert !IsAsciiWs(pipe[0]) && !IsAsciiWs(pipes[0]);
  }

  lemma PipeSaves(s: Scope, pipe: seq<byte>, a: State, schema: Schema)
    requires pipe == [PIPE]
    ensures |Dispatch(s, pipe, a, schema).scopeSaves| == |s.scopeSaves| + if IsOpeningPipe(a) then 0 else 1
  {
    PipesClassify(pipe, [PIPE, PIPE]);
  }

  lemma PipeSplitShows(v: Scope, pipe: seq<byte>, pipes: seq<byte>, a: State, a2: State, schema: Schema)
    requires pipe == [PIPE] && pipes == [PIPE, PIPE] && !IsOpeningPipe(a2)
    ensures Dispatch(v, pipes, a, schema) != Dispatch(Dispatch(v, pipe, a, schema), pipe, a2, schema)
  {
    PipesClassify(pipe, pipes);
    PipeSaves(v, pipe, a, schema);
    PipeSaves(Dispatch(v, pipe, a, schema), pipe, a2, schema);
  }

  lemma HalvesOfArrow(dash: seq<byte>, gt: seq<byte>, arrow: seq<byte>)
    requires dash == [DASH] && gt == [GT] && arrow == [DASH, GT]
    ensures Classify(dash) == OtherOp && Classify(gt) == CmpOp && Classify(arrow) == ArrowOp
  {
    assert !IsAsciiWs(dash[0]) && !IsAsciiWs(gt[0]) && !IsAsciiWs(arrow[0]);
  }

  lemma ArrowSplitShows(v: Scope, dash: seq<byte>, gt: seq<byte>, arrow: seq<byte>, a: State, a2: State, schema: Schema)
    requires dash == [DASH] && gt == [GT] && arrow == [DASH, GT] && v.pendingArrowReceiver.None?
    ensures Dispatch(v, arrow, a, schema) != Dispatch(Dispatch(v, dash, a, schema), gt, a2, schema)
  {
    HalvesOfArrow(dash, gt, arrow);
    assert Dispatch(v, arrow, a, schema).pendingArrowReceiver.Some?;
  }

  lemma ComparisonSplitShows(v: Scope, token: seq<byte>, equals: seq<byte>, a: State, a2: State, schema: Schema)
    requires |token| == 1 && equals == [EQUALS] && IsTwoByteOp(token[0], EQUALS) && v.lastIdent.Some?
    ensures Dispatch(v, token + equals, a, schema) != Dispatch(Dispatch(v, token, a, schema), equals, a2, schema)
  {
    ComparisonClassifies(token, equals, token + equals);
    KeptName(v, Event(token + equals, a), schema);
    ForgottenName(Dispatch(v, token, a, schema), Event(equals, a2), schema);
  }

  /** No arrow was read before the dash of a second one. */
  lemma {:induction false} ArrowInside(gap: seq<byte>, a: State, i: nat) returns (x: seq<byte>, y: seq<byte>)
    requires i < |GapEvents(gap, a)| && GapEvents(gap, a)[i].bytes == [DASH, GT]
    ensures gap == x + [DASH, GT] + y
    decreases |gap|
  {
    var n := GapToken(gap);
    assert gap == gap[..n] + gap[n..];
    if IsAsciiWs(gap[0]) {
      x, y := ArrowInside(gap[1..], a, i);
      x := [gap[0]] + x;
    } else if i == 0 {
      x, y := [], gap[n..];
    } else {
      x, y := ArrowInside(gap[n..], a, i - 1);
      x := gap[..n] + x;
    }
  }

  lemma ArrowStaysBlank(r: Config, x: seq<byte>, y: seq<byte>)
    requires StaysInGap(r, x + [DASH] + [GT] + y)
    ensures forall i :: 0 <= i < |y| ==> IsWs(y[i])
  {
    TwoBytesBehind(r, x, DASH, GT, y);
    var c0 := Run(r, x).value;
    var c1 := Advanced(c0, DASH).value;
    OperatorOpens(c0.state, Top(c0.stack), DASH);
    ArrowCloses(c1.state, Top(c1.stack));
    BlankAfterArrow(Advanced(c1, GT).value, y);
  }

  lemma DashIsNotBlank(y: seq<byte>, rest: seq<byte>)
    requires rest == y + [DASH] + [GT]
    ensures exists i :: 0 <= i < |rest| && !IsWs(rest[i])
  {
    assert rest[|y|] == DASH;
  }

  lemma NoArrowBefore(r: Config, pre: seq<byte>, a: State)
    requires StaysInGap(r, pre + [DASH] + [GT])
    ensures forall i :: 0 <= i < |GapEvents(pre, a)| ==> GapEvents(pre, a)[i].bytes != [DASH, GT]
  {
    forall i | 0 <= i < |GapEvents(pre, a)| ensures GapEvents(pre, a)[i].bytes != [DASH, GT] {
      if GapEvents(pre, a)[i].bytes == [DASH, GT] {
        var x, y := ArrowInside(pre, a, i);
        var rest := y + [DASH] + [GT];
        assert pre + [DASH] + [GT] == x + [DASH] + [GT] + rest;
        ArrowStaysBlank(r, x, rest);
        DashIsNotBlank(y, rest);
        assert false;
      }
    }
  }

  lemma NoReceiver(s: Scope, e: Event, schema: Schema)
    requires s.pendingArrowReceiver.None? && e.bytes != [DASH, GT]
    ensures Dispatch(s, e.bytes, e.anchor, schema).pendingArrowReceiver.None?
  {
    ClassifiedOperator(e.bytes);
    match Classify(e.bytes)
    case Identifier(text) => IdentKeepsReceiver(s, text, e.anchor, schema);
    case _ =>
  }

  lemma IdentKeepsReceiver(s: Scope, text: Name, pre: State, schema: Schema)
    ensures OnIdent(s, text, pre, schema).0.pendingArrowReceiver == s.pendingArrowReceiver
  {
    AnchoredKeepsReceiver(Sourced(s, text, schema), text, pre, schema);
  }

  lemma AnchoredKeepsReceiver(s: Scope, text: Name, pre: State, schema: Schema)
    ensures Anchored(s, text, pre, schema).0.pendingArrowReceiver == s.pendingArrowReceiver
  {
  }

  lemma {:induction false} NoReceivers(s: Scope, events: seq<Event>, schema: Schema)
    requires s.pendingArrowReceiver.None? && forall i :: 0 <= i < |events| ==> events[i].bytes != [DASH, GT]
    ensures DispatchAll(s, events, schema).pendingArrowReceiver.None?
    decreases |events|
  {
    if events != [] {
      NoReceiver(s, events[0], schema);
      NoReceivers(Dispatch(s, events[0].bytes, events[0].anchor, schema), events[1..], schema);
    }
  }

  /** The scope from which a split operator shows: with a name where a comparison would keep it, fresh otherwise. */
  function Witness(): Scope {
    FRESH.(lastIdent := Some([LOWER_A]))
  }

  lemma SecondPipe(r: Config, pre: seq<byte>)
    requires StaysInGap(r, pre + [PIPE] + [PIPE])
    ensures Run(r, pre + [PIPE]).Some? && !IsOpeningPipe(Run(r, pre + [PIPE]).value.state)
  {
    assert pre + [PIPE] + [PIPE] + [] == pre + [PIPE] + [PIPE];
    TwoBytesBehind(r, pre, PIPE, PIPE, []);
    var c0 := Run(r, pre).value;
    PipeLeavesStart(c0.state, Top(c0.stack));
    var c1 := Advanced(c0, PIPE).value;
    SecondPipeBinds(c1.state, Top(c1.stack));
  }

  lemma OperatorBytes(token: seq<byte>, b: byte)
    requires |token| == 1 && IsTwoByteOp(token[0], b)
    ensures !IsAsciiWs(b) && GapToken([b]) == 1 && !IsIdentStart(token[0])
    ensures (token == [DASH] && b == GT) || (token == [PIPE] && b == PIPE) || (token == [AMP] && b == AMP)
            || (b == EQUALS && IsTwoByteOp(token[0], EQUALS))
  {
  }

  lemma TailBytes(b: byte)
    requires IsIdentTail(b)
    ensures !IsAsciiWs(b) && GapToken([b]) == 1
  {
    assert IdentRun([b]) <= 1;
    IdentRunWhole([b]);
  }

  lemma OperatorSplitShows(r: Config, pre: seq<byte>, token: seq<byte>, b: byte, a: State, a2: State, schema: Schema)
    requires StaysInGap(r, pre + token + [b]) && Run(r, pre + token).Some? && Run(r, pre + token).value.state == a2
    requires |token| == 1 && IsTwoByteOp(token[0], b) && !HarmlessSplit(pre, token, b)
    ensures var v := DispatchAll(Witness(), GapEvents(pre, a), schema);
            Dispatch(v, token + [b], a, schema) != Dispatch(Dispatch(v, token, a, schema), [b], a2, schema)
  {
    var v := DispatchAll(Witness(), GapEvents(pre, a), schema);
    OperatorBytes(token, b);
    if b == GT && token == [DASH] {
      NoArrowBefore(r, pre, a);
      NoReceivers(Witness(), GapEvents(pre, a), schema);
      ArrowSplitShows(v, token, [b], token + [b], a, a2, schema);
    } else if b == PIPE {
      SecondPipe(r, pre);
      PipeSplitShows(v, token, token + [b], a, a2, schema);
    } else {
      SurvivalIsOfTheGap(pre, a);
      NameIsKept(Witness(), GapEvents(pre, a), schema);
      ComparisonSplitShows(v, token, [b], a, a2, schema);
    }
  }

  lemma JoiningByte(token: seq<byte>, b: byte)
    requires Joins(token, b)
    ensures !IsAsciiWs(b) && GapToken([b]) == 1
  {
    if IsIdentStart(token[0]) { TailBytes(b); } else { OperatorBytes(token, b); }
  }

  lemma JoinedShows(r: Config, pre: seq<byte>, token: seq<byte>, b: byte, a: State, a2: State, schema: Schema)
    requires StaysInGap(r, pre + token + [b]) && Run(r, pre + token).Some? && Run(r, pre + token).value.state == a2
    requires Joins(token, b) && GapToken(token) == |token| && !HarmlessSplit(pre, token, b)
    ensures var v := DispatchAll(Witness(), GapEvents(pre, a), schema);
            Dispatch(v, token + [b], a, schema) != Dispatch(Dispatch(v, token, a, schema), [b], a2, schema)
  {
    if IsIdentStart(token[0]) {
      IdentSplitShows(DispatchAll(Witness(), GapEvents(pre, a), schema), token, b, a, a2, schema);
    } else {
      OperatorSplitShows(r, pre, token, b, a, a2, schema);
    }
  }

  lemma SplitShows(r: Config, g1: seq<byte>, b: byte, a: State, a2: State, schema: Schema)
    requires g1 != [] && StaysInGap(r, g1 + [b]) && Run(r, g1).Some? && Run(r, g1).value.state == a2
    requires !SplitsNothing(g1, b)
    ensures Cut(Witness(), g1, [b], a, a2, schema) != Whole(Witness(), g1, [b], a, schema)
  {
    var token := OpenToken(g1);
    JoiningByte(token, b);
    var last := LastToken(g1);
    var pre := JoinDispatched(Witness(), g1, b, a, a2, schema);
    assert g1[..|g1| - |token|] == pre;
    JoinedShows(r, pre, token, b, a, a2, schema);
  }

  // ----- a byte that reads its anchor -----

  /** The kinds of byte that read their anchor. */
  predicate Asks(b: byte) {
    IsOpener(b) || b == PIPE || IsIdentStart(b)
  }

  lemma AskingByte(b: byte, a: State)
    requires Asks(b)
    ensures GapToken([b]) == 1 && GapEvents([b], a) == [Event([b], a)]
  {
    if IsIdentStart(b) { TailBytes(b); }
    OneToken([b], a);
  }

  lemma OpenerClassifies(open: seq<byte>)
    requires |open| == 1 && IsOpener(open[0])
    ensures Classify(open) == OpenDelim
  {
    assert !IsAsciiWs(open[0]);
  }

  lemma OpenerShows(w: Scope, open: seq<byte>, a: State, a2: State, schema: Schema)
    requires |open| == 1 && IsOpener(open[0]) && (a == SawTilde) != (a2 == SawTilde)
    ensures Dispatch(w, open, a, schema) != Dispatch(w, open, a2, schema)
  {
    OpenerClassifies(open);
    var t, t2 := Dispatch(w, open, a, schema), Dispatch(w, open, a2, schema);
    assert Top(t.tildeOpen) == Some(a == SawTilde) && Top(t2.tildeOpen) == Some(a2 == SawTilde);
  }

  lemma PipeShows(w: Scope, pipe: seq<byte>, a: State, a2: State, schema: Schema)
    requires pipe == [PIPE] && IsOpeningPipe(a) != IsOpeningPipe(a2)
    ensures Dispatch(w, pipe, a, schema) != Dispatch(w, pipe, a2, schema)
  {
    PipeSaves(w, pipe, a, schema);
    PipeSaves(w, pipe, a2, schema);
  }

  lemma PlainIdentAnchored(w: Scope, ident: Name, a: State, schema: Schema)
    requires PlainAnchor(a) && w.lambdaFirstIdent.None?
    ensures var t := Anchored(w, ident, a, schema).0; t.lambdaFirstIdent.Some? == AtValue(a) && t.emitted == w.emitted
  {
  }

  lemma IdentRecordsAt(w: Scope, ident: Name, a: State, schema: Schema)
    requires PlainAnchor(a) && w.lambdaFirstIdent.None?
    ensures var t := OnIdent(w, ident, a, schema).0;
            && t.lambdaFirstIdent.Some? == AtValue(a)
            && (!AtValue(a) ==> t.emitted == if a == SawTilde then w.emitted + [ident] else w.emitted)
  {
    PlainIdentAnchored(Sourced(w, ident, schema), ident, a, schema);
    ColumnNamedAt(Anchored(Sourced(w, ident, schema), ident, a, schema).0, ident, a);
  }

  lemma ColumnNamedAt(w: Scope, ident: Name, a: State)
    ensures var t := ColumnNamed(w, ident, a);
            && t.lambdaFirstIdent == w.lambdaFirstIdent
            && (!AtValue(a) ==> t.emitted == if a == SawTilde then w.emitted + [ident] else w.emitted)
  {
  }

  lemma IdentDispatched(w: Scope, ident: seq<byte>, a: State, schema: Schema)
    requires |ident| == 1 && IsIdentStart(ident[0]) && PlainAnchor(a) && w.lambdaFirstIdent.None?
    ensures var t := Dispatch(w, ident, a, schema);
            && t.lambdaFirstIdent.Some? == AtValue(a)
            && (!AtValue(a) ==> |t.emitted| == |w.emitted| + if a == SawTilde then 1 else 0)
  {
    IdentIsIdentifier(ident);
    IdentRecordsAt(w, ident, a, schema);
    var (moved, now) := OnIdent(w, ident, a, schema);
    assert Dispatch(w, ident, a, schema) == moved.(lastResolved := now, cmpPending := None);
  }

  lemma IdentShows(w: Scope, ident: seq<byte>, a: State, a2: State, schema: Schema)
    requires |ident| == 1 && IsIdentStart(ident[0]) && PlainAnchor(a) && PlainAnchor(a2) && w.lambdaFirstIdent.None?
    requires (a == SawTilde) != (a2 == SawTilde) || AtValue(a) != AtValue(a2)
    ensures Dispatch(w, ident, a, schema) != Dispatch(w, ident, a2, schema)
  {
    IdentDispatched(w, ident, a, schema);
    IdentDispatched(w, ident, a2, schema);
  }

  /** Without an identifier in between, no binder candidate turns up. */
  lemma NoCandidate(s: Scope, e: Event, schema: Schema)
    requires s.lambdaFirstIdent.None? && !Classify(e.bytes).Identifier?
    ensures Dispatch(s, e.bytes, e.anchor, schema).lambdaFirstIdent.None?
  {
    match Classify(e.bytes)
    case CloseDelim => CloseKeepsCandidate(s);
    case PipeOp => PipeTakesCandidate(s, e.anchor);
    case _ =>
  }

  lemma PipeTakesCandidate(s: Scope, pre: State)
    requires s.lambdaFirstIdent.None?
    ensures OnPipe(s, pre).lambdaFirstIdent.None?
  {
  }

  lemma RestoringKeepsCandidate(s: Scope)
    ensures BindersRestored(s).lambdaFirstIdent == s.lambdaFirstIdent
    ensures BodiesRestored(s).lambdaFirstIdent == s.lambdaFirstIdent
    decreases |s.binderSaves| + |s.scopeSaves|
  {
  }

  lemma CloseKeepsCandidate(s: Scope)
    ensures OnClose(s).lambdaFirstIdent == s.lambdaFirstIdent
  {
    RestoringKeepsCandidate(s);
    RestoringKeepsCandidate(BindersRestored(s));
  }

  lemma {:induction false} NoCandidates(s: Scope, gap: seq<byte>, a: State, schema: Schema)
    requires s.lambdaFirstIdent.None? && NoIdentStart(gap)
    ensures DispatchAll(s, GapEvents(gap, a), schema).lambdaFirstIdent.None?
    decreases |gap|
  {
    if gap != [] {
      var n := GapToken(gap);
      var token, rest := gap[..n], gap[n..];
      assert NoIdentStart(rest);
      if IsAsciiWs(gap[0]) {
        NoCandidates(s, rest, a, schema);
      } else {
        ClassifiedOperator(token);
        assert token[0] == gap[0];
        NoCandidate(s, Event(token, a), schema);
        NoCandidates(Dispatch(s, token, a, schema), rest, a, schema);
        HeadDispatched(s, Event(token, a), GapEvents(rest, a), schema);
      }
    }
  }

  lemma OpenTokenInside(gap: seq<byte>)
    requires gap != []
    ensures OpenToken(gap)[0] in gap
  {
    var pre := LastToken(gap);
    assert gap[|pre|] == OpenToken(gap)[0];
  }

  /** The invariant behind an identifier byte of a gap. */
  predicate Named(s: State, gap: seq<byte>) {
    PastIdent(s) && (s == LetL || s == LetLe ==> gap != [] && IsIdentStart(OpenToken(gap)[0]))
  }

  lemma NamedStep(s: State, top: Option<Frame>, gap: seq<byte>, b: byte)
    requires StepOf(s, top, b) != Dead && LexemeKind(StepOf(s, top, b).state).None?
    requires if NoIdentStart(gap) then IsIdentStart(b) else Named(s, gap)
    ensures Named(StepOf(s, top, b).state, gap + [b])
  {
    if NoIdentStart(gap) {
      IdentStartStep(s, top, b);
      TailBytes(b);
      OneToken([b], Start);
      if gap == [] {
        assert gap + [b] == [b];
      } else {
        OpenTokenInside(gap);
        GapConcat(gap, [b], Start);
      }
    } else {
      PastIdentStep(s, top, b);
      var t := StepOf(s, top, b).state;
      if t == LetL || t == LetLe {
        var pre := GapJoin(gap, b, Start);
      }
    }
  }

  lemma SnocStays(r: Config, front: seq<byte>, b: byte)
    requires StaysInGap(r, front + [b])
    ensures StaysInGap(r, front) && Run(r, front).Some?
    ensures var c := Run(r, front).value;
            && Advanced(c, b).Some? && LexemeKind(Advanced(c, b).value.state).None?
            && Run(r, front + [b]) == Advanced(c, b)
  {
    GapRuns(r, front + [b]);
    RunSnoc(r, front, b);
    GapConcatStays(r, front, [b]);
  }

  lemma IdentStartIsLast(front: seq<byte>, b: byte)
    requires NoIdentStart(front) && !NoIdentStart(front + [b])
    ensures IsIdentStart(b)
  {
  }

  lemma NamedSnoc(r: Config, front: seq<byte>, b: byte)
    requires StaysInGap(r, front + [b]) && !NoIdentStart(front + [b]) && Run(r, front).Some?
    requires !NoIdentStart(front) ==> Named(Run(r, front).value.state, front)
    ensures Run(r, front + [b]).Some? && Named(Run(r, front + [b]).value.state, front + [b])
  {
    SnocStays(r, front, b);
    if NoIdentStart(front) { IdentStartIsLast(front, b); }
    NamedStep(Run(r, front).value.state, Top(Run(r, front).value.stack), front, b);
  }

  lemma {:induction false} NamedGap(r: Config, gap: seq<byte>)
    requires StaysInGap(r, gap) && !NoIdentStart(gap)
    ensures Run(r, gap).Some? && Named(Run(r, gap).value.state, gap)
    decreases |gap|, 1
  {
    var n := |gap| - 1;
    assert gap == gap[..n] + [gap[n]];
    NamedByLast(r, gap[..n], gap[n]);
  }

  lemma {:induction false} NamedByLast(r: Config, front: seq<byte>, b: byte)
    requires StaysInGap(r, front + [b]) && !NoIdentStart(front + [b])
    ensures Run(r, front + [b]).Some? && Named(Run(r, front + [b]).value.state, front + [b])
    decreases |front| + 1, 0
  {
    SnocStays(r, front, b);
    if !NoIdentStart(front) { NamedGap(r, front); }
    NamedSnoc(r, front, b);
  }

  /** A gap holds one identifier at most: a second identifier byte belongs to the first one. */
  lemma IdentsAreOne(r: Config, gap: seq<byte>, b: byte)
    requires StaysInGap(r, gap + [b]) && IsIdentStart(b) && !NoIdentStart(gap)
    ensures Joins(OpenToken(gap), b)
  {
    SnocStays(r, gap, b);
    NamedGap(r, gap);
    var c := Run(r, gap).value;
    PastIdentStep(c.state, Top(c.stack), b);
  }

  lemma OpenBehindPair(g1: seq<byte>, b: byte, rest: seq<byte>)
    requires g1 != [] && Joins(OpenToken(g1), b) && |OpenToken(g1)| == 1 && !IsIdentStart(OpenToken(g1)[0])
    requires rest != [] && !Joins([b], rest[0]) && GapToken([b]) == 1 && !IsAsciiWs(b)
    ensures OpenToken(g1 + [b] + rest) == OpenToken(rest) == OpenToken([b] + rest)
  {
    var pre := GapJoin(g1, b, Start);
    OneToken([b], Start);
    GapConcat([b], rest, Start);
    GapConcat(g1 + [b], rest, Start);
  }

  /** The last token behind a cut that splits nothing that matters. */
  lemma OpenBehind(r: Config, g1: seq<byte>, q: seq<byte>)
    requires g1 != [] && q != [] && SplitsNothing(g1, q[0]) && StaysInGap(r, g1 + q)
    ensures OpenToken(g1 + q) == OpenToken(q) || (|OpenToken(g1 + q)| == 2 && !IsIdentStart(OpenToken(g1 + q)[0]))
  {
    if !Joins(OpenToken(g1), q[0]) {
      GapConcat(g1, q, Start);
    } else if |q| > 1 {
      OpenBehindSplit(r, g1, q);
    } else {
      assert q == [q[0]];
      OpenBehindOperator(g1, q[0]);
    }
  }

  lemma OpenBehindSplit(r: Config, g1: seq<byte>, q: seq<byte>)
    requires g1 != [] && |q| > 1 && SplitsNothing(g1, q[0]) && Joins(OpenToken(g1), q[0]) && StaysInGap(r, g1 + q)
    ensures OpenToken(g1 + q) == OpenToken(q)
  {
    var b, rest := q[0], q[1..];
    assert q == [b] + rest;
    NothingJoinsBehind(r, g1, q);
    OperatorBytes(OpenToken(g1), b);
    OpenBehindPair(g1, b, rest);
    Regrouped(g1, b, rest);
  }

  lemma OpenBehindOperator(g1: seq<byte>, b: byte)
    requires g1 != [] && Joins(OpenToken(g1), b) && SplitsNothing(g1, b)
    ensures |OpenToken(g1 + [b])| == 2 && !IsIdentStart(OpenToken(g1 + [b])[0])
  {
    OperatorBytes(OpenToken(g1), b);
    var pre := GapJoin(g1, b, Start);
    assert OpenToken(g1 + [b]) == OpenToken(g1) + [b];
  }

  /** The first byte that reads its anchor differently is a lexeme of its own in both readings. */
  lemma AskingByteIsAlone(r: Config, g1: seq<byte>, q: seq<byte>, b: byte, a: State, a2: State)
    requires CutAt(r, g1, q + [b], a, a2) && SplitsNothing(g1, (q + [b])[0])
    requires AllReadAlike(q, a, a2) && !ReadsAlike(b, a, a2)
    ensures Asks(b) && !Joins(OpenToken(g1 + q), b) && (q != [] ==> !Joins(OpenToken(q), b))
  {
    if q == [] {
      assert g1 + q == g1;
    } else {
      LikeBytesAreNotJoined(q, b, a, a2);
      assert g1 + (q + [b]) == g1 + q + [b];
      GapPrefixStays(r, g1 + (q + [b]), g1 + q, [b]);
      OpenBehind(r, g1, q);
    }
  }

  lemma LikeBytesAreNotJoined(q: seq<byte>, b: byte, a: State, a2: State)
    requires q != [] && AllReadAlike(q, a, a2) && !ReadsAlike(b, a, a2)
    ensures Asks(b) && !Joins(OpenToken(q), b)
  {
    OpenTokenInside(q);
  }

  lemma AskingEvents(g1: seq<byte>, q: seq<byte>, b: byte, a: State, a2: State)
    requires g1 != [] && Asks(b) && !Joins(OpenToken(g1 + q), b) && (q != [] ==> !Joins(OpenToken(q), b))
    ensures GapEvents(g1 + (q + [b]), a) == GapEvents(g1 + q, a) + [Event([b], a)]
    ensures GapEvents(q + [b], a2) == GapEvents(q, a2) + [Event([b], a2)]
  {
    AskingByte(b, a);
    AskingByte(b, a2);
    assert g1 + (q + [b]) == g1 + q + [b];
    GapConcat(g1 + q, [b], a);
    if q == [] {
      assert q + [b] == [b] && [] + [Event([b], a2)] == [Event([b], a2)];
    } else {
      GapConcat(q, [b], a2);
    }
  }

  /** The scopes at the byte agree. */
  lemma AgreedBefore(s: Scope, r: Config, g1: seq<byte>, q: seq<byte>, b: byte, a: State, a2: State, schema: Schema)
    requires CutAt(r, g1, q + [b], a, a2) && SplitsNothing(g1, (q + [b])[0]) && AllReadAlike(q, a, a2)
    ensures Cut(s, g1, q, a, a2, schema) == Whole(s, g1, q, a, schema)
  {
    if q == [] {
      assert g1 + q == g1;
    } else {
      assert g1 + (q + [b]) == g1 + q + [b];
      GapPrefixStays(r, g1 + (q + [b]), g1 + q, [b]);
      InvisibleCut(s, r, g1, q, a, a2, schema);
    }
  }

  lemma AskingDispatched(s: Scope, g1: seq<byte>, q: seq<byte>, b: byte, a: State, a2: State, schema: Schema)
    requires g1 != [] && Asks(b) && !Joins(OpenToken(g1 + q), b) && (q != [] ==> !Joins(OpenToken(q), b))
    requires Cut(s, g1, q, a, a2, schema) == Whole(s, g1, q, a, schema)
    ensures var w := Whole(s, g1, q, a, schema);
            && Whole(s, g1, q + [b], a, schema) == Dispatch(w, [b], a, schema)
            && Cut(s, g1, q + [b], a, a2, schema) == Dispatch(w, [b], a2, schema)
  {
    AskingEvents(g1, q, b, a, a2);
    var front := DispatchAll(s, GapEvents(g1, a), schema);
    DispatchAllConcat(s, GapEvents(g1 + q, a), [Event([b], a)], schema);
    DispatchAllConcat(front, GapEvents(q, a2), [Event([b], a2)], schema);
    DispatchOne(Whole(s, g1, q, a, schema), Event([b], a), schema);
    DispatchOne(Whole(s, g1, q, a, schema), Event([b], a2), schema);
  }

  lemma AskingShows(w: Scope, b: byte, a: State, a2: State, schema: Schema)
    requires !ReadsAlike(b, a, a2)
    requires IsIdentStart(b) ==> PlainAnchor(a) && PlainAnchor(a2) && w.lambdaFirstIdent.None?
    ensures Dispatch(w, [b], a, schema) != Dispatch(w, [b], a2, schema)
  {
    if IsOpener(b) {
      OpenerShows(w, [b], a, a2, schema);
    } else if b == PIPE {
      PipeShows(w, [b], a, a2, schema);
    } else {
      IdentShows(w, [b], a, a2, schema);
    }
  }

  lemma FirstIdentOfGap(r: Config, g1: seq<byte>, q: seq<byte>, b: byte, a: State, a2: State, schema: Schema)
    requires CutAt(r, g1, q + [b], a, a2) && IsIdentStart(b) && !Joins(OpenToken(g1 + q), b)
    ensures PlainAnchor(a) && PlainAnchor(a2) && Whole(Witness(), g1, q, a, schema).lambdaFirstIdent.None?
  {
    IdentsAreRead(r, g1, q + [b], a, a2);
    assert (q + [b])[|q|] == b;
    assert g1 + (q + [b]) == g1 + q + [b];
    if !NoIdentStart(g1 + q) { IdentsAreOne(r, g1 + q, b); }
    NoCandidates(Witness(), g1 + q, a, schema);
  }

  lemma AskingByteShows(r: Config, g1: seq<byte>, q: seq<byte>, b: byte, a: State, a2: State, schema: Schema)
    requires CutAt(r, g1, q + [b], a, a2) && SplitsNothing(g1, (q + [b])[0])
    requires AllReadAlike(q, a, a2) && !ReadsAlike(b, a, a2)
    ensures Cut(Witness(), g1, q + [b], a, a2, schema) != Whole(Witness(), g1, q + [b], a, schema)
  {
    AskingByteIsAlone(r, g1, q, b, a, a2);
    AgreedBefore(Witness(), r, g1, q, b, a, a2, schema);
    AskingDispatched(Witness(), g1, q, b, a, a2, schema);
    var w := Whole(Witness(), g1, q, a, schema);
    if IsIdentStart(b) { FirstIdentOfGap(r, g1, q, b, a, a2, schema); }
    AskingShows(w, b, a, a2, schema);
  }

  // ----- both ways -----

  /** Wherever the stream is looked at behind the cut, the tracker is what it would be without the cut. */
  ghost predicate GoesUnseen(g1: seq<byte>, g2: seq<byte>, a: State, a2: State) {
    forall n, s: Scope, schema ::
      0 < n <= |g2| && s.pending.None? ==> Cut(s, g1, g2[..n], a, a2, schema) == Whole(s, g1, g2[..n], a, schema)
  }

  lemma {:induction false} FirstUnlike(bytes: seq<byte>, a: State, a2: State) returns (n: nat)
    requires !AllReadAlike(bytes, a, a2)
    ensures n < |bytes| && AllReadAlike(bytes[..n], a, a2) && !ReadsAlike(bytes[n], a, a2)
    decreases |bytes|
  {
    n := |bytes| - 1;
    if !AllReadAlike(bytes[..n], a, a2) {
      var front := bytes[..n];
      n := FirstUnlike(front, a, a2);
      assert front[..n] == bytes[..n];
    }
  }

  lemma UnseenSoFar(s: Scope, r: Config, g1: seq<byte>, g2: seq<byte>, n: nat, a: State, a2: State, schema: Schema)
    requires CutAt(r, g1, g2, a, a2) && Invisible(g1, g2, a, a2) && 0 < n <= |g2| && s.pending.None?
    ensures Cut(s, g1, g2[..n], a, a2, schema) == Whole(s, g1, g2[..n], a, schema)
  {
    assert g1 + g2 == g1 + g2[..n] + g2[n..];
    GapPrefixStays(r, g1 + g2, g1 + g2[..n], g2[n..]);
    InvisibleCut(s, r, g1, g2[..n], a, a2, schema);
  }

  /** A cut inside a structural gap goes unseen, in every scope and however far the gap goes on, exactly when it
      splits no token that matters and every byte behind it reads its anchor as before. */
  lemma UnseenIffInvisible(r: Config, g1: seq<byte>, g2: seq<byte>, a: State, a2: State, schema: Schema)
    requires CutAt(r, g1, g2, a, a2)
    ensures GoesUnseen(g1, g2, a, a2) <==> Invisible(g1, g2, a, a2)
  {
    if Invisible(g1, g2, a, a2) {
      forall n, s: Scope, other | 0 < n <= |g2| && s.pending.None?
        ensures Cut(s, g1, g2[..n], a, a2, other) == Whole(s, g1, g2[..n], a, other)
      {
        UnseenSoFar(s, r, g1, g2, n, a, a2, other);
      }
    } else if !SplitsNothing(g1, g2[0]) {
      SplitIsSeen(r, g1, g2, a, a2, schema);
    } else {
      UnlikeIsSeen(r, g1, g2, a, a2, schema);
    }
  }

  lemma SplitIsSeen(r: Config, g1: seq<byte>, g2: seq<byte>, a: State, a2: State, schema: Schema)
    requires CutAt(r, g1, g2, a, a2) && !SplitsNothing(g1, g2[0])
    ensures !GoesUnseen(g1, g2, a, a2)
  {
    assert g2[..1] == [g2[0]] && g1 + g2 == g1 + [g2[0]] + g2[1..];
    GapPrefixStays(r, g1 + g2, g1 + [g2[0]], g2[1..]);
    SplitShows(r, g1, g2[0], a, a2, schema);
  }

  lemma UnlikeIsSeen(r: Config, g1: seq<byte>, g2: seq<byte>, a: State, a2: State, schema: Schema)
    requires CutAt(r, g1, g2, a, a2) && SplitsNothing(g1, g2[0]) && !AllReadAlike(g2, a, a2)
    ensures !GoesUnseen(g1, g2, a, a2)
  {
    var n := FirstUnlike(g2, a, a2);
    assert g2[..n + 1] == g2[..n] + [g2[n]] && g1 + g2 == g1 + g2[..n + 1] + g2[n + 1..];
    GapPrefixStays(r, g1 + g2, g1 + g2[..n + 1], g2[n + 1..]);
    AskingByteShows(r, g1, g2[..n], g2[n], a, a2, schema);
  }
}
