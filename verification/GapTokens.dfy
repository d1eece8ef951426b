/** The tokens of a structural gap, and what the automaton rules out inside one. */
module GapTokens {
  import opened Bytes
  import opened Automaton
  import opened Transitions
  import opened Runs
  import Lexemes
  import opened Scopes
  import Lockstep
  import Segments

  // ----- the tokens of a gap -----

  /** The last token of a gap, blanks included. */
  function OpenToken(gap: seq<byte>): (token: seq<byte>)
    ensures |token| <= |gap| && (gap != [] ==> token != [])
    decreases |gap|
  {
    if gap == [] then [] else if GapToken(gap) == |gap| then gap else OpenToken(gap[GapToken(gap)..])
  }

  /** A byte that lengthens a token: the second byte of an operator, or more of an identifier. */
  predicate Joins(token: seq<byte>, b: byte) {
    || (|token| == 1 && Lexemes.IsTwoByteOp(token[0], b))
    || (token != [] && IsIdentStart(token[0]) && IsIdentTail(b))
  }

  lemma {:induction false} IdentRunInside(bytes: seq<byte>, more: seq<byte>)
    requires IdentRun(bytes) < |bytes| || (more != [] && !IsIdentTail(more[0]))
    ensures IdentRun(bytes + more) == IdentRun(bytes)
    decreases |bytes|
  {
    if bytes == [] {
      assert bytes + more == more;
    } else {
      assert (bytes + more)[0] == bytes[0] && (bytes + more)[1..] == bytes[1..] + more;
      if IsIdentTail(bytes[0]) { IdentRunInside(bytes[1..], more); }
    }
  }

  lemma {:induction false} IdentRunWhole(bytes: seq<byte>)
    ensures IdentRun(bytes) == |bytes| <==> forall i :: 0 <= i < |bytes| ==> IsIdentTail(bytes[i])
    decreases |bytes|
  {
    if bytes != [] {
      IdentRunWhole(bytes[1..]);
      if IdentRun(bytes) == |bytes| {
        assert forall i :: 0 < i < |bytes| ==> bytes[i] == bytes[1..][i - 1];
      } else if IsIdentTail(bytes[0]) {
        var i :| 0 <= i < |bytes[1..]| && !IsIdentTail(bytes[1..][i]);
        assert bytes[i + 1] == bytes[1..][i];
      }
    }
  }

  /** The first token of a gap is the same in any longer gap, unless it ends the gap and is lengthened. */
  lemma TokenStays(gap: seq<byte>, more: seq<byte>)
    requires gap != [] && more != [] && (GapToken(gap) == |gap| ==> !Joins(gap, more[0]))
    ensures GapToken(gap + more) == GapToken(gap)
  {
    var longer := gap + more;
    assert longer[0] == gap[0] && (|gap| > 1 ==> longer[1] == gap[1]) && (|gap| == 1 ==> longer[1] == more[0]);
    if IsIdentStart(gap[0]) { IdentRunInside(gap, more); }
  }

  /** Gaps that join no token put their lexemes one after another. */
  lemma {:induction false} GapConcat(g1: seq<byte>, g2: seq<byte>, a: State)
    requires g1 != [] && g2 != [] && !Joins(OpenToken(g1), g2[0])
    ensures GapEvents(g1 + g2, a) == GapEvents(g1, a) + GapEvents(g2, a)
    ensures OpenToken(g1 + g2) == OpenToken(g2)
    decreases |g1|
  {
    var n := GapToken(g1);
    TokenStays(g1, g2);
    var whole := g1 + g2;
    assert whole[0] == g1[0] && whole[..n] == g1[..n];
    if n == |g1| {
      assert whole[n..] == g2 && g1[n..] == [];
      if IsAsciiWs(g1[0]) { assert whole[1..] == g2 && g1[1..] == []; }
    } else {
      assert whole[n..] == g1[n..] + g2;
      GapConcat(g1[n..], g2, a);
    }
  }

  /** What comes before the last token of a gap. */
  function Earlier(gap: seq<byte>): seq<byte>
    decreases |gap|
  {
    if gap == [] || GapToken(gap) == |gap| then [] else gap[..GapToken(gap)] + Earlier(gap[GapToken(gap)..])
  }

  lemma {:induction false} EarlierAndOpen(gap: seq<byte>)
    ensures gap == Earlier(gap) + OpenToken(gap)
    decreases |gap|
  {
    if gap != [] && GapToken(gap) < |gap| {
      var n := GapToken(gap);
      var first, rest := gap[..n], gap[n..];
      EarlierAndOpen(rest);
      assert gap == first + rest;
      Reassociated(first, Earlier(rest), OpenToken(rest));
      assert Earlier(gap) == first + Earlier(rest) && OpenToken(gap) == OpenToken(rest);
    } else {
      assert Earlier(gap) == [] && OpenToken(gap) == gap;
    }
  }

  lemma {:induction false} OpenIsToken(gap: seq<byte>)
    requires gap != []
    ensures GapToken(OpenToken(gap)) == |OpenToken(gap)|
    decreases |gap|
  {
    if GapToken(gap) < |gap| { OpenIsToken(gap[GapToken(gap)..]); }
  }

  lemma {:induction false} OpenDoesNotJoin(gap: seq<byte>)
    requires gap != [] && Earlier(gap) != []
    ensures !Joins(OpenToken(Earlier(gap)), OpenToken(gap)[0])
    decreases |gap|
  {
    var n := GapToken(gap);
    var first, rest := gap[..n], gap[n..];
    FirstTokenEnds(gap);
    EarlierAndOpen(rest);
    if Earlier(rest) == [] {
      assert first + [] == first;
      assert rest == OpenToken(rest);
    } else {
      assert rest[0] == Earlier(rest)[0];
      FirstTokenAlone(first, Earlier(rest), gap[n]);
      OpenDoesNotJoin(rest);
    }
  }

  /** A gap is what comes before its last token, and that token. */
  lemma LastToken(gap: seq<byte>) returns (pre: seq<byte>)
    requires gap != []
    ensures gap == pre + OpenToken(gap) && GapToken(OpenToken(gap)) == |OpenToken(gap)|
    ensures pre != [] ==> !Joins(OpenToken(pre), OpenToken(gap)[0])
  {
    pre := Earlier(gap);
    EarlierAndOpen(gap);
    OpenIsToken(gap);
    if pre != [] { OpenDoesNotJoin(gap); }
  }

  /** The first token is a token by itself, and the byte behind it does not join it. */
  lemma FirstTokenEnds(gap: seq<byte>)
    requires gap != [] && GapToken(gap) < |gap|
    ensures var token := gap[..GapToken(gap)];
            GapToken(token) == |token| && OpenToken(token) == token && !Joins(token, gap[GapToken(gap)])
  {
    var n := GapToken(gap);
    var token := gap[..n];
    assert token[0] == gap[0] && (n > 1 ==> token[1] == gap[1]);
    if IsIdentStart(gap[0]) {
      Lockstep.IdentRunIsTail(gap);
      IdentRunWhole(token);
      IdentRunStopsThere(gap);
    }
  }

  lemma {:induction false} IdentRunStopsThere(bytes: seq<byte>)
    requires IdentRun(bytes) < |bytes|
    ensures !IsIdentTail(bytes[IdentRun(bytes)])
    decreases |bytes|
  {
    if IsIdentTail(bytes[0]) { IdentRunStopsThere(bytes[1..]); }
  }

  lemma FirstTokenAlone(token: seq<byte>, rest: seq<byte>, b: byte)
    requires token != [] && rest != [] && rest[0] == b && OpenToken(token) == token && !Joins(token, b)
    ensures OpenToken(token + rest) == OpenToken(rest)
  {
    GapConcat(token, rest, Start);
  }

  /** A byte that joins the last token of a gap lengthens that one lexeme. */
  lemma GapJoin(gap: seq<byte>, b: byte, a: State) returns (pre: seq<byte>)
    requires gap != [] && Joins(OpenToken(gap), b)
    ensures var token := OpenToken(gap);
            && gap == pre + token
            && GapEvents(gap, a) == GapEvents(pre, a) + [Event(token, a)]
            && GapEvents(gap + [b], a) == GapEvents(pre, a) + [Event(token + [b], a)]
            && OpenToken(gap + [b]) == token + [b]
  {
    var token := OpenToken(gap);
    var longer := token + [b];
    pre := LastToken(gap);
    JoinedIsToken(token, b);
    OneToken(token, a);
    OneToken(longer, a);
    assert gap + [b] == pre + longer;
    if pre == [] {
      assert gap == token && gap + [b] == longer && [] + [Event(token, a)] == [Event(token, a)];
      assert [] + [Event(longer, a)] == [Event(longer, a)];
    } else {
      GapConcat(pre, token, a);
      GapConcat(pre, longer, a);
    }
  }

  lemma JoinedIsToken(token: seq<byte>, b: byte)
    requires token != [] && GapToken(token) == |token| && Joins(token, b)
    ensures !IsAsciiWs(token[0]) && GapToken(token + [b]) == |token| + 1
  {
    var longer := token + [b];
    assert longer[0] == token[0] && (|token| == 1 ==> longer[1] == b) && (|token| > 1 ==> longer[1] == token[1]);
    if IsIdentStart(token[0]) {
      IdentRunWhole(token);
      IdentRunWhole(longer);
    }
  }

  lemma OneToken(token: seq<byte>, a: State)
    requires token != [] && GapToken(token) == |token| && !IsAsciiWs(token[0])
    ensures GapEvents(token, a) == [Event(token, a)] && OpenToken(token) == token
  {
    assert token[..|token|] == token && token[|token|..] == [];
  }

  // ----- what the automaton rules out inside a gap -----

  predicate NoIdentStart(bytes: seq<byte>) {
    forall i :: 0 <= i < |bytes| ==> !IsIdentStart(bytes[i])
  }

  /** The states from which the rest of a gap holds no identifier. */
  predicate Sterile(s: State) {
    || s == AfterDollar || s == AfterDot || s == AfterColon || s == AfterColonWs || s == AfterColon2
    || s == ExpectBraceBinder
  }

  lemma SterileStep(s: State, top: Option<Frame>, b: byte)
    requires Sterile(s) && StepOf(s, top, b) != Dead && LexemeKind(StepOf(s, top, b).state).None?
    ensures Sterile(StepOf(s, top, b).state) && !IsIdentStart(b)
  {
  }

  lemma {:induction false} SterileGap(c: Config, gap: seq<byte>)
    requires Sterile(c.state) && Segments.StaysInGap(c, gap)
    ensures NoIdentStart(gap)
    decreases |gap|
  {
    if gap != [] {
      SterileStep(c.state, Top(c.stack), gap[0]);
      SterileGap(Advanced(c, gap[0]).value, gap[1..]);
      assert forall i :: 0 < i < |gap| ==> gap[i] == gap[1..][i - 1];
    }
  }

  predicate HalfPair(s: State) {
    || s == SawEq || s == SawBang || s == SawLt || s == SawGt || s == SawAmp
    || s == ExpectSource || s == ExpectValueReq || s == AfterArrow
  }

  predicate HalfArrow(s: State) {
    s == SawDash || s == SourceDash || s == ExpectValueReq
  }

  predicate StartsOperator(x: byte) {
    x == EQUALS || x == BANG || x == LT || x == GT || x == AMP || x == DASH
  }

  /** Where the first byte of an operator leads inside a gap. */
  predicate OpensOperator(x: byte, next: Step) {
    match next
    case Next(t) => LexemeKind(t).None? ==> if x == DASH then HalfArrow(t) else HalfPair(t)
    case Dead => true
    case _ => false
  }

  lemma ValuePositionOpens(top: Option<Frame>, x: byte, allowClose: bool)
    requires StartsOperator(x)
    ensures OpensOperator(x, ValuePosition(top, x, allowClose))
  {
  }

  lemma AfterValueOpens(top: Option<Frame>, x: byte)
    requires StartsOperator(x)
    ensures OpensOperator(x, AfterValueStep(top, x))
  {
  }

  lemma HubOpens(s: State, top: Option<Frame>, x: byte)
    requires StartsOperator(x) && OnHub(s)
    ensures OpensOperator(x, StepOf(s, top, x))
  {
    match s
    case ExpectValue =>
      ValuePositionOpens(top, x, true);
    case ExpectValueReq | SawDash | SawPipe | SawGt | SawLt =>
      ValuePositionOpens(top, x, false);
    case _ =>
      AfterValueOpens(top, x);
  }

  lemma LexemeOpensOperator(s: State, top: Option<Frame>, x: byte)
    requires StartsOperator(x) && !OnHub(s) && LexemeKind(s).Some?
    ensures OpensOperator(x, StepOf(s, top, x))
  {
  }

  lemma HeadOpensOperator(s: State, top: Option<Frame>, x: byte)
    requires StartsOperator(x) && Heading(s)
    ensures OpensOperator(x, StepOf(s, top, x))
  {
  }

  lemma GapOpensOperator(s: State, top: Option<Frame>, x: byte)
    requires StartsOperator(x) && !OnHub(s) && !Heading(s) && LexemeKind(s).None?
    ensures OpensOperator(x, StepOf(s, top, x))
  {
  }

  lemma OperatorOpens(s: State, top: Option<Frame>, x: byte)
    requires StartsOperator(x)
    ensures OpensOperator(x, StepOf(s, top, x))
  {
    if OnHub(s) { HubOpens(s, top, x); }
    else if Heading(s) { HeadOpensOperator(s, top, x); }
    else if LexemeKind(s).Some? { LexemeOpensOperator(s, top, x); }
    else { GapOpensOperator(s, top, x); }
  }

  /** Where the second byte of an operator leads, when the split can be harmless. */
  lemma PairNeedsAValue(s1: State, top1: Option<Frame>, y: byte)
    requires HalfPair(s1) && StepOf(s1, top1, y) != Dead && (y == EQUALS || y == AMP)
    ensures StepOf(s1, top1, y) == Next(ExpectValueReq)
  {
  }

  lemma ValueStartsNoPair(top: Option<Frame>, y: byte, z: byte)
    requires (y == EQUALS || y == AMP) && StepOf(ExpectValueReq, top, z) != Dead
    ensures !Lexemes.IsTwoByteOp(y, z)
  {
  }

  lemma PipeLeavesStart(s: State, top: Option<Frame>)
    requires StepOf(s, top, PIPE) != Dead && LexemeKind(StepOf(s, top, PIPE).state).None?
    ensures StepOf(s, top, PIPE).state != Start
  {
    StepMoves(s, top, PIPE);
  }

  /** A pipe at the opening of the query is not followed by another. */
  lemma SecondPipeBinds(s1: State, top1: Option<Frame>)
    requires s1 != Start && StepOf(s1, top1, PIPE) != Dead
    ensures !IsOpeningPipe(s1)
  {
  }

  lemma ArrowCloses(s1: State, top1: Option<Frame>)
    requires HalfArrow(s1) && StepOf(s1, top1, GT) != Dead
    ensures StepOf(s1, top1, GT) == Next(AfterArrow)
  {
  }

  lemma {:induction false} BlankAfterArrow(c: Config, gap: seq<byte>)
    requires c.state == AfterArrow && Segments.StaysInGap(c, gap)
    ensures forall i :: 0 <= i < |gap| ==> IsWs(gap[i])
    decreases |gap|
  {
    if gap != [] {
      assert IsWs(gap[0]) && Advanced(c, gap[0]) == Some(c);
      BlankAfterArrow(c, gap[1..]);
      assert forall i :: 0 < i < |gap| ==> gap[i] == gap[1..][i - 1];
    }
  }

  /** The states behind an identifier byte of a gap; the first two read more of it. */
  predicate PastIdent(s: State) {
    || s == LetL || s == LetLe || s == LetLet || s == ExpectBinder || s == SourceDash || s == AfterArrow ||
          s == AfterDot
  }

  lemma PastIdentStep(s: State, top: Option<Frame>, b: byte)
    requires PastIdent(s) && StepOf(s, top, b) != Dead && LexemeKind(StepOf(s, top, b).state).None?
    ensures PastIdent(StepOf(s, top, b).state)
    ensures var t := StepOf(s, top, b).state;
            (t == LetL || t == LetLe ==> IsIdentTail(b) && (s == LetL || s == LetLe))
            && (IsIdentStart(b) ==> s == LetL || s == LetLe)
  {
  }

  lemma IdentStartStep(s: State, top: Option<Frame>, b: byte)
    requires IsIdentStart(b) && StepOf(s, top, b) != Dead && LexemeKind(StepOf(s, top, b).state).None?
    ensures PastIdent(StepOf(s, top, b).state)
  {
  }
}
