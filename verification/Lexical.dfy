/** What the scope holds anywhere in a run, read off the lexemes alone: which delimiters are open, whose calls they
    are, and what the pipeline around them is. */
module Lexical {
  import opened Bytes
  import opened Automaton
  import opened Runs
  import opened Model
  import opened Lexemes
  import opened Scopes
  import opened Lockstep
  import opened Scoping
  import GapCuts
  import Columns
  import opened WholeRuns

  // ----- open delimiters -----

  /** An opener whose closer has not been read before lexeme `i`. */
  ghost predicate Unmatched(events: seq<Event>, i: nat, k: nat) {
    && k < i <= |events| && Classify(events[k].bytes).OpenDelim?
    && !exists j: nat :: j < i && Matched(events, k, j)
  }

  /** The opener of the innermost delimiter around lexeme `i`. */
  ghost predicate Innermost(events: seq<Event>, i: nat, k: nat) {
    && k < i <= |events| && Classify(events[k].bytes).OpenDelim? && WellNested(events[k + 1..i])
  }

  /** The openers around lexeme `i`, outermost first. */
  function Openers(events: seq<Event>, i: nat): seq<nat>
    requires i <= |events|
  {
    if i == 0 then [] else OpenersAfter(Openers(events, i - 1), Classify(events[i - 1].bytes), i - 1)
  }

  function OpenersAfter(before: seq<nat>, lex: Lexeme, k: nat): seq<nat> {
    if lex.OpenDelim? then before + [k] else if lex.CloseDelim? then DropLast(before) else before
  }

  lemma EarlierOpenerStays(before: seq<nat>, lex: Lexeme, k: nat, m: nat)
    requires m < |before| && m < |OpenersAfter(before, lex, k)|
    ensures var after := OpenersAfter(before, lex, k);
            && after[m] == before[m] && !(lex.CloseDelim? && |before| - 1 - m == 0)
            && DepthAfter(|before| - 1 - m, lex) == |after| - 1 - m
  {
  }

  ghost predicate OpenersFit(events: seq<Event>, i: nat)
    requires i <= |events|
  {
    var o := Openers(events, i);
    && EventsDepth(0, events[..i]) == Some(|o|)
    && (forall m :: 0 <= m < |o| ==> OpenerFits(events, i, m))
  }

  ghost predicate OpenerFits(events: seq<Event>, i: nat, m: nat)
    requires i <= |events| && m < |Openers(events, i)|
  {
    var o := Openers(events, i);
    && o[m] < i && Classify(events[o[m]].bytes).OpenDelim?
    && EventsDepth(0, events[o[m] + 1..i]) == Some(|o| - 1 - m)
  }

  lemma OneMoreEvent(events: seq<Event>, k: nat, i: nat)
    requires k < i <= |events| && EventsDepth(0, events[k..i - 1]).Some?
    ensures var d, lex := EventsDepth(0, events[k..i - 1]).value, Classify(events[i - 1].bytes);
            EventsDepth(0, events[k..i]) == if lex.CloseDelim? && d == 0 then None else Some(DepthAfter(d, lex))
  {
    assert events[k..i] == events[k..i - 1] + [events[i - 1]];
    EventsDepthConcat(0, events[k..i - 1], [events[i - 1]]);
    assert [events[i - 1]][1..] == [];
  }

  lemma ShorterDepth(events: seq<Event>, i: nat)
    requires 0 < i <= |events| && EventsDepth(0, events[..i]).Some?
    ensures EventsDepth(0, events[..i - 1]).Some?
  {
    assert events[..i] == events[..i - 1] + [events[i - 1]];
    EventsDepthConcat(0, events[..i - 1], [events[i - 1]]);
  }

  lemma OpenerStaysFit(events: seq<Event>, i: nat, m: nat)
    requires 0 < i <= |events| && m < |Openers(events, i)|
    requires m < |Openers(events, i - 1)| ==> OpenerFits(events, i - 1, m)
    ensures OpenerFits(events, i, m)
  {
    if m < |Openers(events, i - 1)| {
      EarlierOpenerFits(events, i, m, Openers(events, i - 1));
    } else {
      NewestOpener(Openers(events, i - 1), Classify(events[i - 1].bytes), i - 1, m);
      NewestOpenerFits(events, i, m);
    }
  }

  lemma NewestOpener(before: seq<nat>, lex: Lexeme, k: nat, m: nat)
    requires |before| <= m < |OpenersAfter(before, lex, k)|
    ensures var after := OpenersAfter(before, lex, k); lex.OpenDelim? && after[m] == k && m == |after| - 1
  {
  }

  lemma NewestOpenerFits(events: seq<Event>, i: nat, m: nat)
    requires 0 < i <= |events| && m == |Openers(events, i)| - 1 && Openers(events, i)[m] == i - 1
    requires Classify(events[i - 1].bytes).OpenDelim?
    ensures OpenerFits(events, i, m)
  {
    assert events[i..i] == [];
  }

  lemma EarlierOpenerFits(events: seq<Event>, i: nat, m: nat, before: seq<nat>)
    requires 0 < i <= |events| && before == Openers(events, i - 1) && m < |before| && m < |Openers(events, i)|
    requires before[m] < i - 1 && Classify(events[before[m]].bytes).OpenDelim?
    requires EventsDepth(0, events[before[m] + 1..i - 1]) == Some(|before| - 1 - m)
    ensures OpenerFits(events, i, m)
  {
    OpenerGoesOn(events, i, before[m], |before| - 1 - m);
    EarlierOpenerStays(before, Classify(events[i - 1].bytes), i - 1, m);
  }

  /** One more lexeme, seen from behind an opener that it leaves open. */
  lemma OpenerGoesOn(events: seq<Event>, i: nat, k: nat, d: nat)
    requires k + 1 < i <= |events| && EventsDepth(0, events[k + 1..i - 1]) == Some(d)
    ensures var lex := Classify(events[i - 1].bytes);
            EventsDepth(0, events[k + 1..i]) == if lex.CloseDelim? && d == 0 then None else Some(DepthAfter(d, lex))
  {
    OneMoreEvent(events, k + 1, i);
  }

  lemma {:induction false} OpenersShape(events: seq<Event>, i: nat)
    requires i <= |events| && EventsDepth(0, events[..i]).Some?
    ensures OpenersFit(events, i)
  {
    if i > 0 {
      ShorterDepth(events, i);
      OpenersShape(events, i - 1);
      assert events[0..i - 1] == events[..i - 1] && events[0..i] == events[..i];
      OneMoreEvent(events, 0, i);
      forall m | 0 <= m < |Openers(events, i)| ensures OpenerFits(events, i, m) { OpenerStaysFit(events, i, m); }
    }
  }

  /** The innermost of them is the opener that everything behind it leaves open. */
  lemma InnermostIsLast(events: seq<Event>, i: nat, k: nat)
    requires i <= |events| && EventsDepth(0, events[..i]).Some?
    ensures Innermost(events, i, k) <==> Openers(events, i) != [] && k == Top(Openers(events, i)).value
  {
    OpenersShape(events, i);
    var o := Openers(events, i);
    if o != [] { assert OpenerFits(events, i, |o| - 1); }
    if Innermost(events, i, k) { InnermostIsOpen(events, i, k); }
  }

  /** Behind an opener that is still innermost the openers are those before it, and it. */
  lemma {:induction false} InnermostIsOpen(events: seq<Event>, i: nat, k: nat)
    requires Innermost(events, i, k)
    ensures Openers(events, i) == Openers(events, k) + [k]
  {
    OpenersInside(events, k, i);
  }

  /** Lexemes that stay above a depth leave its openers alone. */
  lemma {:induction false} OpenersInside(events: seq<Event>, k: nat, i: nat)
    requires k < i <= |events| && Classify(events[k].bytes).OpenDelim? && EventsDepth(0, events[k + 1..i]).Some?
    ensures Openers(events, k) + [k] <= Openers(events, i)
    ensures |Openers(events, i)| == |Openers(events, k)| + 1 + EventsDepth(0, events[k + 1..i]).value
    decreases i
  {
    if i == k + 1 {
      assert events[k + 1..i] == [];
    } else {
      assert events[k + 1..i] == events[k + 1..i - 1] + [events[i - 1]];
      EventsDepthConcat(0, events[k + 1..i - 1], [events[i - 1]]);
      OpenersInside(events, k, i - 1);
      OneMoreEvent(events, k + 1, i);
    }
  }

  /** The openers around a lexeme are exactly the unmatched ones before it. */
  lemma {:induction false} OpenersAreUnmatched(events: seq<Event>, i: nat, k: nat)
    requires i <= |events| && EventsDepth(0, events[..i]).Some?
    ensures k in Openers(events, i) <==> Unmatched(events, i, k)
    decreases i
  {
    OpenersShape(events, i);
    var o := Openers(events, i);
    if k in o {
      var m :| 0 <= m < |o| && o[m] == k;
      assert OpenerFits(events, i, m);
      forall j: nat | j < i ensures !Matched(events, k, j) { if k < j { StillOpen(events, i, k, j); } }
    } else if i > 0 {
      ShorterDepth(events, i);
      OpenersAreUnmatched(events, i - 1, k);
      PoppedIsMatched(events, i, k);
    }
  }

  /** An opener that is gone from around a lexeme has met its closer. */
  lemma PoppedIsMatched(events: seq<Event>, i: nat, k: nat)
    requires 0 < i <= |events| && EventsDepth(0, events[..i - 1]).Some? && k !in Openers(events, i)
    requires k in Openers(events, i - 1) <==> Unmatched(events, i - 1, k)
    ensures !Unmatched(events, i, k)
  {
    if k in Openers(events, i - 1) {
      PoppedIsLast(Openers(events, i - 1), Classify(events[i - 1].bytes), i - 1, k);
      InnermostIsLast(events, i - 1, k);
      assert Matched(events, k, i - 1);
    }
  }

  lemma PoppedIsLast(before: seq<nat>, lex: Lexeme, i: nat, k: nat)
    requires k in before && k !in OpenersAfter(before, lex, i)
    ensures lex.CloseDelim? && k == before[|before| - 1]
  {
  }

  lemma StillOpen(events: seq<Event>, i: nat, k: nat, j: nat)
    requires k < j < i <= |events| && EventsDepth(0, events[k + 1..i]).Some?
    ensures !Matched(events, k, j)
  {
    assert events[k + 1..i] == events[k + 1..j + 1] + events[j + 1..i];
    EventsDepthConcat(0, events[k + 1..j + 1], events[j + 1..i]);
    if WellNested(events[k + 1..j]) { OneMoreEvent(events, k + 1, j + 1); }
  }

  // ----- the scopes along a list of lexemes -----

  ghost predicate ScopeAt(events: seq<Event>, schema: Schema, scopes: seq<Scope>, i: nat) {
    i <= |events| && i < |scopes| && scopes[i] == Before(events, schema, i)
  }

  /** The scope before each lexeme, from the start of a stream, and the one behind the last. */
  ghost predicate Trace(events: seq<Event>, schema: Schema, scopes: seq<Scope>) {
    |scopes| == |events| + 1 && forall i: nat :: i <= |events| ==> ScopeAt(events, schema, scopes, i)
  }

  ghost function TraceOf(events: seq<Event>, schema: Schema): (scopes: seq<Scope>)
    ensures Trace(events, schema, scopes)
  {
    seq(|events| + 1, i requires 0 <= i < |events| + 1 => Before(events, schema, i))
  }

  lemma TraceStarts(events: seq<Event>, schema: Schema, scopes: seq<Scope>)
    requires Trace(events, schema, scopes)
    ensures scopes[0] == FRESH
  {
    assert ScopeAt(events, schema, scopes, 0);
    assert events[..0] == [];
  }

  lemma TraceIsBefore(events: seq<Event>, schema: Schema, scopes: seq<Scope>, i: nat)
    requires Trace(events, schema, scopes) && i <= |events|
    ensures scopes[i] == Before(events, schema, i)
  {
    assert ScopeAt(events, schema, scopes, i);
  }

  lemma TraceNext(events: seq<Event>, schema: Schema, scopes: seq<Scope>, i: nat)
    requires Trace(events, schema, scopes) && i < |events|
    ensures scopes[i + 1] == Dispatch(scopes[i], events[i].bytes, events[i].anchor, schema)
  {
    TraceIsBefore(events, schema, scopes, i);
    TraceIsBefore(events, schema, scopes, i + 1);
    BeforeNext(events, schema, i);
  }

  lemma TraceStep(events: seq<Event>, schema: Schema, scopes: seq<Scope>, i: nat)
    requires Trace(events, schema, scopes) && 0 < i <= |events|
    ensures scopes[i] == Dispatch(scopes[i - 1], events[i - 1].bytes, events[i - 1].anchor, schema)
  {
    TraceNext(events, schema, scopes, i - 1);
  }

  // ----- the name before a delimiter -----

  /** The name a delimiter that is lexeme `i` would belong to: the last lexeme before it, when that is a name, and
      dots, comparisons, pipes and closers do not count. */
  function NameBefore(events: seq<Event>, i: nat): Option<Name>
    requires i <= |events|
  {
    if i == 0 then None
    else
      match Classify(events[i - 1].bytes)
      case Identifier(text) => Some(text)
      case lex => if GapCuts.KeepsName(lex) then NameBefore(events, i - 1) else None
  }

  lemma NameAfter(s: Scope, e: Event, schema: Schema)
    ensures Dispatch(s, e.bytes, e.anchor, schema).lastIdent
         == match Classify(e.bytes)
            case Identifier(text) => Some(text)
            case lex => if GapCuts.KeepsName(lex) then s.lastIdent else None
  {
    match Classify(e.bytes)
    case Identifier(_) =>
    case lex =>
      if GapCuts.KeepsName(lex) { GapCuts.KeptName(s, e, schema); } else { GapCuts.ForgottenName(s, e, schema); }
  }

  lemma {:induction false} NameIsBefore(events: seq<Event>, schema: Schema, scopes: seq<Scope>, i: nat)
    requires Trace(events, schema, scopes)
    requires i <= |events|
    ensures scopes[i].lastIdent == NameBefore(events, i)
  {
    TraceStarts(events, schema, scopes);
    if i > 0 {
      NameIsBefore(events, schema, scopes, i - 1);
      TraceStep(events, schema, scopes, i);
      NameAfter(scopes[i - 1], events[i - 1], schema);
    }
  }

  // ----- what is kept per open delimiter -----

  predicate EstablishingName(name: Option<Name>) {
    name == Some(Ascii("project")) || name == Some(Ascii("groupBy")) || name == Some(Ascii("olapGroupBy"))
  }

  predicate ReferenceName(name: Option<Name>) {
    || name == Some(Ascii("getInteger")) || name == Some(Ascii("getFloat")) || name == Some(Ascii("getString"))
    || name == Some(Ascii("getBoolean")) || name == Some(Ascii("sort")) || name == Some(Ascii("asc"))
    || name == Some(Ascii("desc")) || name == Some(Ascii("restrict"))
  }

  /** For each place, whether a delimiter opened there would be a reference call's, an establishing call's, or the
      parentheses of a pipeline source. */
  datatype Marks = Marks(reference: seq<bool>, establishing: seq<bool>, source: seq<bool>)

  predicate MarkAt(events: seq<Event>, m: Marks, k: nat) {
    && k <= |events| && k < |m.reference| && k < |m.establishing| && k < |m.source|
    && m.reference[k] == ReferenceName(NameBefore(events, k))
    && m.establishing[k] == EstablishingName(NameBefore(events, k))
    && m.source[k] == (NameBefore(events, k) == Some(Ascii("all")))
  }

  ghost predicate MarksFit(events: seq<Event>, m: Marks) {
    && |m.reference| == |m.establishing| == |m.source| == |events| + 1
    && forall k: nat :: k <= |events| ==> MarkAt(events, m, k)
  }

  function MarksOf(events: seq<Event>): (m: Marks)
    ensures MarksFit(events, m)
  {
    var n := |events| + 1;
    Marks(seq(n, k requires 0 <= k < n => ReferenceName(NameBefore(events, k))),
          seq(n, k requires 0 <= k < n => EstablishingName(NameBefore(events, k))),
          seq(n, k requires 0 <= k < n => NameBefore(events, k) == Some(Ascii("all"))))
  }

  /** The depths of the open delimiters that are marked. */
  function CallDepths(o: seq<nat>, marked: seq<bool>): seq<nat>
    requires forall m :: 0 <= m < |o| ==> o[m] < |marked|
  {
    if o == [] then [] else CallDepths(o[..|o| - 1], marked) + if marked[o[|o| - 1]] then [|o|] else []
  }

  /** For each open delimiter, whether it follows a `~`. */
  function TildeFlags(events: seq<Event>, o: seq<nat>): seq<bool>
    requires forall m :: 0 <= m < |o| ==> o[m] < |events|
  {
    if o == [] then []
    else TildeFlags(events, o[..|o| - 1]) + [events[o[|o| - 1]].anchor == SawTilde]
  }

  /** What the scope keeps per delimiter is what the openers say. */
  ghost predicate CallsMatch(events: seq<Event>, m: Marks, o: seq<nat>, s: Scope) {
    && |m.reference| == |m.establishing| == |events| + 1
    && (forall n :: 0 <= n < |o| ==> o[n] < |events|)
    && s.depth == |o|
    && s.tildeOpen == TildeFlags(events, o)
    && s.refStack == CallDepths(o, m.reference) && s.estStack == CallDepths(o, m.establishing)
  }

  lemma {:induction false} CallDepthsBelow(o: seq<nat>, marked: seq<bool>)
    requires forall m :: 0 <= m < |o| ==> o[m] < |marked|
    ensures forall m :: 0 <= m < |CallDepths(o, marked)| ==> CallDepths(o, marked)[m] <= |o|
    decreases |o|
  {
    if o != [] { CallDepthsBelow(o[..|o| - 1], marked); }
  }

  lemma OpenerKept(s: Scope, e: Event, schema: Schema)
    requires Classify(e.bytes).OpenDelim?
    ensures var t := Dispatch(s, e.bytes, e.anchor, schema);
            && t.depth == s.depth + 1
            && t.tildeOpen == s.tildeOpen + [e.anchor == SawTilde]
            && t.refStack == s.refStack + (if CalledBy(s, true) then [s.depth + 1] else [])
            && t.estStack == s.estStack + (if CalledBy(s, false) then [s.depth + 1] else [])
  {
    OpenedCalls(s, e.anchor);
  }

  lemma OpenedCalls(s: Scope, pre: State)
    ensures OnOpen(s, pre).refStack == s.refStack + (if CalledBy(s, true) then [s.depth + 1] else [])
    ensures OnOpen(s, pre).estStack == s.estStack + (if CalledBy(s, false) then [s.depth + 1] else [])
  {
  }

  predicate CalledBy(s: Scope, reference: bool) {
    s.lastIdent.Some? && if reference then IsReference(s.lastIdent.value) else IsEstablishing(s.lastIdent.value)
  }

  lemma CallNames(name: Option<Name>)
    ensures ReferenceName(name) <==> name.Some? && IsReference(name.value)
    ensures EstablishingName(name) <==> name.Some? && IsEstablishing(name.value)
  {
  }

  predicate SameCalls(s: Scope, t: Scope) {
    t.depth == s.depth && t.tildeOpen == s.tildeOpen && t.refStack == s.refStack && t.estStack == s.estStack
  }

  lemma RestoringKeepsCalls(s: Scope)
    ensures SameCalls(s, BindersRestored(s)) && SameCalls(s, BodiesRestored(s))
    decreases |s.binderSaves| + |s.scopeSaves|
  {
  }

  lemma CloserDropped(s: Scope, e: Event, schema: Schema)
    requires Classify(e.bytes).CloseDelim? && s.depth > 0
    ensures var t := Dispatch(s, e.bytes, e.anchor, schema);
            && t.depth == s.depth - 1
            && t.tildeOpen == DropLast(s.tildeOpen)
            && t.refStack == (if Top(s.refStack) == Some(s.depth) then DropLast(s.refStack) else s.refStack)
            && t.estStack == (if Top(s.estStack) == Some(s.depth) then DropLast(s.estStack) else s.estStack)
  {
    RestoringKeepsCalls(s);
    RestoringKeepsCalls(BindersRestored(s));
  }

  lemma OthersKeepCalls(s: Scope, e: Event, schema: Schema)
    requires !Classify(e.bytes).OpenDelim? && !Classify(e.bytes).CloseDelim?
    ensures var t := Dispatch(s, e.bytes, e.anchor, schema);
            t.depth == s.depth && t.tildeOpen == s.tildeOpen && t.refStack == s.refStack && t.estStack == s.estStack
  {
    match Classify(e.bytes)
    case Identifier(text) => IdentSameFrames(s, text, e.anchor, schema);
    case PipeOp => PipeAddsSaves(s, e.anchor);
    case lex => OthersSameFrames(s, lex, e.anchor, schema);
  }

  /** What a lexeme does to what is kept per delimiter. */
  predicate CallsAfter(s: Scope, t: Scope, lex: Lexeme, tilde: bool, reference: bool, establishing: bool) {
    if lex.OpenDelim? then
      && t.depth == s.depth + 1 && t.tildeOpen == s.tildeOpen + [tilde]
      && t.refStack == s.refStack + (if reference then [s.depth + 1] else [])
      && t.estStack == s.estStack + (if establishing then [s.depth + 1] else [])
    else if lex.CloseDelim? then
      s.depth > 0 ==>
        && t.depth == s.depth - 1 && t.tildeOpen == DropLast(s.tildeOpen)
        && t.refStack == (if Top(s.refStack) == Some(s.depth) then DropLast(s.refStack) else s.refStack)
        && t.estStack == (if Top(s.estStack) == Some(s.depth) then DropLast(s.estStack) else s.estStack)
    else SameCalls(s, t)
  }

  lemma DispatchCalls(s: Scope, e: Event, schema: Schema, t: Scope)
    requires t == Dispatch(s, e.bytes, e.anchor, schema)
    ensures CallsAfter(s, t, Classify(e.bytes), e.anchor == SawTilde, CalledBy(s, true), CalledBy(s, false))
  {
    if Classify(e.bytes).OpenDelim? { OpenerKept(s, e, schema); }
    else if Classify(e.bytes).CloseDelim? { if s.depth > 0 { CloserDropped(s, e, schema); } }
    else { OthersKeepCalls(s, e, schema); }
  }

  lemma NamedCalls(events: seq<Event>, m: Marks, s: Scope, k: nat)
    requires MarkAt(events, m, k) && s.lastIdent == NameBefore(events, k)
    ensures CalledBy(s, true) == m.reference[k] && CalledBy(s, false) == m.establishing[k]
  {
    CallNames(s.lastIdent);
  }

  /** Lexeme `i - 1` and what it does, along a run. */
  lemma TraceCalls(events: seq<Event>, m: Marks, schema: Schema, scopes: seq<Scope>, i: nat) returns (lex: Lexeme)
    requires Trace(events, schema, scopes) && MarksFit(events, m) && 0 < i <= |events|
    ensures lex == Classify(events[i - 1].bytes)
    ensures CallsAfter(scopes[i - 1], scopes[i], lex, events[i - 1].anchor == SawTilde, m.reference[i - 1],
                       m.establishing[i - 1])
  {
    lex := Classify(events[i - 1].bytes);
    NameIsBefore(events, schema, scopes, i - 1);
    assert MarkAt(events, m, i - 1);
    NamedCalls(events, m, scopes[i - 1], i - 1);
    TraceStep(events, schema, scopes, i);
    DispatchCalls(scopes[i - 1], events[i - 1], schema, scopes[i]);
  }

  lemma OpenersNext(events: seq<Event>, i: nat, lex: Lexeme)
    requires 0 < i <= |events| && EventsDepth(0, events).Some? && lex == Classify(events[i - 1].bytes)
    ensures Openers(events, i) == OpenersAfter(Openers(events, i - 1), lex, i - 1)
    ensures lex.CloseDelim? ==> Openers(events, i - 1) != []
  {
    if lex.CloseDelim? { CloserMeetsOpener(events, i); }
  }

  lemma {:induction false} CallsAreOpeners(events: seq<Event>, m: Marks, schema: Schema, scopes: seq<Scope>, i: nat)
    requires Trace(events, schema, scopes) && MarksFit(events, m) && i <= |events| && EventsDepth(0, events).Some?
    ensures CallsMatch(events, m, Openers(events, i), scopes[i])
  {
    if i == 0 {
      TraceStarts(events, schema, scopes);
      NoCallsYet(events, m);
    } else {
      CallsAreOpeners(events, m, schema, scopes, i - 1);
      var lex := TraceCalls(events, m, schema, scopes, i);
      OpenersNext(events, i, lex);
      CallsGoOn(events, m, Openers(events, i - 1), scopes[i - 1], i - 1, lex, Openers(events, i), scopes[i]);
    }
  }

  lemma NoCallsYet(events: seq<Event>, m: Marks)
    requires MarksFit(events, m)
    ensures CallsMatch(events, m, [], FRESH)
  {
  }

  lemma CallsGoOn(events: seq<Event>, m: Marks, o: seq<nat>, s: Scope, k: nat, lex: Lexeme, after: seq<nat>, t: Scope)
    requires k < |events| && CallsMatch(events, m, o, s) && (lex.CloseDelim? ==> o != [])
    requires CallsAfter(s, t, lex, events[k].anchor == SawTilde, m.reference[k], m.establishing[k])
    requires after == OpenersAfter(o, lex, k)
    ensures CallsMatch(events, m, after, t)
  {
    if lex.OpenDelim? {
      TildeAdded(events, o, k);
      CallsAdded(o, m.reference, k);
      CallsAdded(o, m.establishing, k);
    } else if lex.CloseDelim? {
      TildeDropped(events, o);
      CallsDropped(o, m.reference);
      CallsDropped(o, m.establishing);
    }
  }

  lemma CallsAdded(o: seq<nat>, marked: seq<bool>, k: nat)
    requires k < |marked| && forall m :: 0 <= m < |o| ==> o[m] < |marked|
    ensures CallDepths(o + [k], marked) == CallDepths(o, marked) + if marked[k] then [|o| + 1] else []
  {
    assert (o + [k])[..|o|] == o;
  }

  lemma TildeAdded(events: seq<Event>, o: seq<nat>, k: nat)
    requires k < |events| && forall m :: 0 <= m < |o| ==> o[m] < |events|
    ensures TildeFlags(events, o + [k]) == TildeFlags(events, o) + [events[k].anchor == SawTilde]
  {
    assert (o + [k])[..|o|] == o;
  }

  lemma TildeDropped(events: seq<Event>, o: seq<nat>)
    requires o != [] && forall m :: 0 <= m < |o| ==> o[m] < |events|
    ensures TildeFlags(events, DropLast(o)) == DropLast(TildeFlags(events, o))
  {
  }

  lemma CallsDropped(o: seq<nat>, marked: seq<bool>)
    requires o != [] && forall m :: 0 <= m < |o| ==> o[m] < |marked|
    ensures var depths := CallDepths(o, marked);
            CallDepths(DropLast(o), marked) == if Top(depths) == Some(|o|) then DropLast(depths) else depths
  {
    CallDepthsBelow(DropLast(o), marked);
  }

  lemma CloserMeetsOpener(events: seq<Event>, i: nat)
    requires 0 < i <= |events| && EventsDepth(0, events).Some? && Classify(events[i - 1].bytes).CloseDelim?
    ensures Openers(events, i - 1) != []
  {
    assert events == events[..i] + events[i..];
    EventsDepthConcat(0, events[..i], events[i..]);
    ShorterDepth(events, i);
    OpenersShape(events, i - 1);
    assert events[0..i - 1] == events[..i - 1] && events[0..i] == events[..i];
    OneMoreEvent(events, 0, i);
  }

  // ----- the pipeline around a lexeme -----

  /** A class that is named becomes the pipeline's own. */
  function NamedBody(b: Body, text: Name, schema: Schema): Body {
    if schema.HasClass(text) then b.(curClass := Some(text)) else b
  }

  /** A nested source begins a pipeline afresh; a `~` marks the one it is read in. */
  function OpenedBody(b: Body, nested: bool, tilde: bool): Body {
    if nested then Body(b.curClass, false, false) else b.(sawTilde := b.sawTilde || tilde)
  }

  /** The pipeline state before lexeme `i`, without any saving: a closer goes back to the first binder pipe of its own
      delimiter, the end of an establishing call leaves an explicit relation and no class, and a source that is read
      inside another delimiter begins a pipeline of its own. */
  ghost function BodyAt(events: seq<Event>, m: Marks, schema: Schema, i: nat): Body
    requires i <= |events| && |m.establishing| == |m.source| == |events| + 1
    decreases i
  {
    if i == 0 then Body(None, false, false)
    else
      var before, o := BodyAt(events, m, schema, i - 1), Openers(events, i - 1);
      if !Classify(events[i - 1].bytes).CloseDelim? then
        BodyAfter(before, events[i - 1], m.source[i - 1] && o != [], schema)
      else if o == [] || o[|o| - 1] >= i then before
      else
        var k := o[|o| - 1];
        ClosedBody(BodyAt(events, m, schema, BodyStart(events, k, i - 1)), m.establishing[k])
  }

  /** What a lexeme other than a closer makes of the pipeline state. */
  function BodyAfter(b: Body, e: Event, nested: bool, schema: Schema): Body {
    match Classify(e.bytes)
    case Identifier(text) => NamedBody(b, text, schema)
    case OpenDelim => OpenedBody(b, nested, e.anchor == SawTilde)
    case _ => b
  }

  /** The delimiter from `k` to `j` has a binder pipe at its own depth. */
  ghost predicate HasPipe(events: seq<Event>, k: nat, j: nat) {
    exists p: nat :: FirstPipe(events, k, p, j)
  }

  /** The first such pipe, or the closer when there is none. */
  ghost function BodyStart(events: seq<Event>, k: nat, j: nat): (p: nat)
    ensures p <= j && if HasPipe(events, k, j) then FirstPipe(events, k, p, j) else p == j
  {
    if HasPipe(events, k, j) then (var p: nat :| FirstPipe(events, k, p, j); p) else j
  }

  lemma AnchoredKeepsBody(s: Scope, text: Name, pre: State, schema: Schema)
    ensures BodyOf(Anchored(s, text, pre, schema).0) == BodyOf(s)
  {
  }

  lemma IdentMovesBody(s: Scope, e: Event, schema: Schema)
    requires Classify(e.bytes).Identifier?
    ensures BodyOf(Dispatch(s, e.bytes, e.anchor, schema)) == NamedBody(BodyOf(s), Classify(e.bytes).text, schema)
  {
    var text := Classify(e.bytes).text;
    AnchoredKeepsBody(Sourced(s, text, schema), text, e.anchor, schema);
  }

  lemma OpenerMovesBody(s: Scope, e: Event, schema: Schema)
    requires Classify(e.bytes).OpenDelim?
    ensures BodyOf(Dispatch(s, e.bytes, e.anchor, schema))
         == OpenedBody(BodyOf(s), s.lastIdent == Some(Ascii("all")) && s.depth > 0, e.anchor == SawTilde)
  {
  }

  lemma OthersKeepBody(s: Scope, e: Event, schema: Schema)
    requires var lex := Classify(e.bytes); !lex.Identifier? && !lex.OpenDelim? && !lex.CloseDelim?
    ensures BodyOf(Dispatch(s, e.bytes, e.anchor, schema)) == BodyOf(s)
  {
    ActedKeepsBody(s, Classify(e.bytes), e.anchor, schema);
  }

  lemma ActedKeepsBody(s: Scope, lex: Lexeme, pre: State, schema: Schema)
    requires !lex.Identifier? && !lex.OpenDelim? && !lex.CloseDelim?
    ensures BodyOf(Acted(s, lex, pre, schema).0) == BodyOf(s)
  {
    match lex
    case DotOp => DotKeepsBody(s);
    case ArrowOp => ArrowKeepsBody(s);
    case PipeOp => PipeKeepsBody(s, pre);
    case _ => PlainKeepsBody(s, lex, pre, schema);
  }

  lemma DotKeepsBody(s: Scope)
    ensures BodyOf(OnDot(s)) == BodyOf(s)
  {
  }

  lemma ArrowKeepsBody(s: Scope)
    ensures BodyOf(OnArrow(s)) == BodyOf(s)
  {
  }

  lemma PlainKeepsBody(s: Scope, lex: Lexeme, pre: State, schema: Schema)
    requires lex.Blank? || lex.StringLit? || lex.NumberLit? || lex.DateLit? || lex.DollarSign? || lex.CmpOp?
             || lex.CommaSep? || lex.OtherOp?
    ensures BodyOf(Acted(s, lex, pre, schema).0) == BodyOf(s)
  {
  }

  lemma PipeKeepsBody(s: Scope, pre: State)
    ensures BodyOf(OnPipe(s, pre)) == BodyOf(s)
  {
  }

  lemma BodyMoves(s: Scope, e: Event, nested: bool, schema: Schema)
    requires !Classify(e.bytes).CloseDelim?
    requires nested <==> s.lastIdent == Some(Ascii("all")) && s.depth > 0
    ensures BodyOf(Dispatch(s, e.bytes, e.anchor, schema)) == BodyAfter(BodyOf(s), e, nested, schema)
  {
    if Classify(e.bytes).Identifier? { IdentMovesBody(s, e, schema); }
    else if Classify(e.bytes).OpenDelim? { OpenerMovesBody(s, e, schema); }
    else { OthersKeepBody(s, e, schema); }
  }

  /** What a closer makes of the pipeline state. */
  lemma ClosedBodyAt(events: seq<Event>, m: Marks, schema: Schema, i: nat, k: nat)
    requires 0 < i <= |events| && |m.establishing| == |m.source| == |events| + 1
    requires Classify(events[i - 1].bytes).CloseDelim? && k < i
    requires Openers(events, i - 1) != [] && k == Top(Openers(events, i - 1)).value
    ensures BodyAt(events, m, schema, i)
         == ClosedBody(BodyAt(events, m, schema, BodyStart(events, k, i - 1)), m.establishing[k])
  {
  }

  /** What any other lexeme does to it, along a run. */
  lemma TraceBody(events: seq<Event>, m: Marks, schema: Schema, scopes: seq<Scope>, i: nat)
    requires Trace(events, schema, scopes) && MarksFit(events, m) && 0 < i <= |events|
    requires scopes[i - 1].depth == |Openers(events, i - 1)| && !Classify(events[i - 1].bytes).CloseDelim?
    ensures BodyOf(scopes[i])
         == BodyAfter(BodyOf(scopes[i - 1]), events[i - 1], m.source[i - 1] && Openers(events, i - 1) != [], schema)
  {
    NameIsBefore(events, schema, scopes, i - 1);
    assert MarkAt(events, m, i - 1);
    TraceStep(events, schema, scopes, i);
    BodyMoves(scopes[i - 1], events[i - 1], m.source[i - 1] && Openers(events, i - 1) != [], schema);
  }

  lemma PipedGoesBack(events: seq<Event>, schema: Schema, scopes: seq<Scope>, k: nat, p: nat, j: nat)
    requires Trace(events, schema, scopes) && EventsDepth(0, events).Some?
    requires Matched(events, k, j) && FirstPipe(events, k, p, j)
    ensures BodyOf(scopes[j + 1]) == ClosedBody(BodyOf(scopes[p]), OpensEstablishing(scopes[k]))
  {
    PipedCloseRestores(events, schema, k, p, j);
    TraceIsBefore(events, schema, scopes, k);
    TraceIsBefore(events, schema, scopes, p);
    TraceIsBefore(events, schema, scopes, j + 1);
  }

  lemma PipelessGoesBack(events: seq<Event>, schema: Schema, scopes: seq<Scope>, k: nat, j: nat)
    requires Trace(events, schema, scopes) && EventsDepth(0, events).Some?
    requires Matched(events, k, j) && NoPipeAt(0, 0, events[k + 1..j])
    ensures BodyOf(scopes[j + 1]) == ClosedBody(BodyOf(scopes[j]), OpensEstablishing(scopes[k]))
  {
    PipelessCloseKeeps(events, schema, k, j);
    TraceIsBefore(events, schema, scopes, k);
    TraceIsBefore(events, schema, scopes, j);
    TraceIsBefore(events, schema, scopes, j + 1);
  }

  /** A closer takes the scope back to the first binder pipe of its delimiter. */
  lemma CloserGoesBack(events: seq<Event>, schema: Schema, scopes: seq<Scope>, k: nat, j: nat)
    requires Trace(events, schema, scopes) && EventsDepth(0, events).Some? && Matched(events, k, j)
    ensures BodyOf(scopes[j + 1])
         == ClosedBody(BodyOf(scopes[BodyStart(events, k, j)]), OpensEstablishing(scopes[k]))
  {
    EveryRegionIsCovered(events, k, j);
    if HasPipe(events, k, j) {
      PipedGoesBack(events, schema, scopes, k, BodyStart(events, k, j), j);
    } else {
      PipelessGoesBack(events, schema, scopes, k, j);
    }
  }

  lemma TraceCloses(events: seq<Event>, m: Marks, schema: Schema, scopes: seq<Scope>, k: nat, i: nat)
    requires Trace(events, schema, scopes) && MarksFit(events, m) && EventsDepth(0, events).Some?
    requires 0 < i <= |events| && Matched(events, k, i - 1)
    ensures BodyOf(scopes[i]) == ClosedBody(BodyOf(scopes[BodyStart(events, k, i - 1)]), m.establishing[k])
  {
    NameIsBefore(events, schema, scopes, k);
    assert MarkAt(events, m, k);
    NamedCalls(events, m, scopes[k], k);
    CloserGoesBack(events, schema, scopes, k, i - 1);
    assert scopes[i - 1 + 1] == scopes[i];
  }

  ghost predicate BodyFits(events: seq<Event>, m: Marks, schema: Schema, scopes: seq<Scope>, i: nat)
    requires i <= |events| && |m.establishing| == |m.source| == |events| + 1
  {
    i < |scopes| && BodyOf(scopes[i]) == BodyAt(events, m, schema, i)
  }

  lemma BodyCloses(events: seq<Event>, m: Marks, schema: Schema, scopes: seq<Scope>, i: nat, k: nat)
    requires Trace(events, schema, scopes) && MarksFit(events, m) && EventsDepth(0, events).Some?
    requires 0 < i <= |events| && Matched(events, k, i - 1)
    requires Openers(events, i - 1) != [] && k == Top(Openers(events, i - 1)).value
    requires BodyFits(events, m, schema, scopes, BodyStart(events, k, i - 1))
    ensures BodyFits(events, m, schema, scopes, i)
  {
    TraceCloses(events, m, schema, scopes, k, i);
    ClosedBodyAt(events, m, schema, i, k);
  }

  lemma BodyGoesOn(events: seq<Event>, m: Marks, schema: Schema, scopes: seq<Scope>, i: nat)
    requires Trace(events, schema, scopes) && MarksFit(events, m) && EventsDepth(0, events).Some?
    requires 0 < i <= |events| && !Classify(events[i - 1].bytes).CloseDelim?
    requires BodyFits(events, m, schema, scopes, i - 1)
    ensures BodyFits(events, m, schema, scopes, i)
  {
    CallsAreOpeners(events, m, schema, scopes, i - 1);
    TraceBody(events, m, schema, scopes, i);
  }

  lemma NoBodyYet(events: seq<Event>, m: Marks, schema: Schema, scopes: seq<Scope>)
    requires Trace(events, schema, scopes) && MarksFit(events, m)
    ensures BodyFits(events, m, schema, scopes, 0)
  {
    TraceStarts(events, schema, scopes);
  }

  /** The scope's pipeline state is the one read off the lexemes. */
  lemma {:induction false} BodyIsAt(events: seq<Event>, m: Marks, schema: Schema, scopes: seq<Scope>, i: nat)
    requires Trace(events, schema, scopes) && MarksFit(events, m) && EventsDepth(0, events).Some? && i <= |events|
    ensures BodyFits(events, m, schema, scopes, i)
    decreases i
  {
    if i == 0 {
      NoBodyYet(events, m, schema, scopes);
    } else {
      if Classify(events[i - 1].bytes).CloseDelim? {
        var k := CloserMatches(events, i);
        BodyIsAt(events, m, schema, scopes, BodyStart(events, k, i - 1));
        BodyCloses(events, m, schema, scopes, i, k);
      } else {
        BodyIsAt(events, m, schema, scopes, i - 1);
        BodyGoesOn(events, m, schema, scopes, i);
      }
    }
  }

  lemma CloserMatches(events: seq<Event>, i: nat) returns (k: nat)
    requires 0 < i <= |events| && EventsDepth(0, events).Some? && Classify(events[i - 1].bytes).CloseDelim?
    ensures Matched(events, k, i - 1) && Openers(events, i - 1) != [] && k == Top(Openers(events, i - 1)).value
  {
    CloserMeetsOpener(events, i);
    assert events == events[..i - 1] + events[i - 1..];
    EventsDepthConcat(0, events[..i - 1], events[i - 1..]);
    k := Top(Openers(events, i - 1)).value;
    InnermostIsLast(events, i - 1, k);
  }

  // ----- the recorded columns -----

  /** The innermost delimiter around lexeme `i` follows a `~`. */
  ghost predicate InTildeList(events: seq<Event>, i: nat) {
    exists k: nat :: Innermost(events, i, k) && events[k].anchor == SawTilde
  }

  /** A name is a column's right behind a `~`, and where a value begins directly inside a `~[...]`. */
  ghost predicate NamesColumn(events: seq<Event>, i: nat)
    requires i < |events|
  {
    || events[i].anchor == SawTilde
    || ((events[i].anchor == ExpectValue || events[i].anchor == ExpectValueReq) && InTildeList(events, i))
  }

  /** What lexeme `i` records. */
  ghost function ColumnOf(events: seq<Event>, i: nat): seq<seq<byte>>
    requires i < |events|
  {
    match Classify(events[i].bytes)
    case StringLit(content) => [content]
    case Identifier(text) => if NamesColumn(events, i) then [text] else []
    case _ => []
  }

  /** The columns recorded before lexeme `i`. */
  ghost function ColumnsAt(events: seq<Event>, i: nat): seq<seq<byte>>
    requires i <= |events|
  {
    if i == 0 then [] else ColumnsAt(events, i - 1) + ColumnOf(events, i - 1)
  }

  lemma IdentRecords(s: Scope, e: Event, schema: Schema)
    requires Classify(e.bytes).Identifier?
    ensures var open := Top(s.tildeOpen) == Some(true);
            Dispatch(s, e.bytes, e.anchor, schema).emitted
            == s.emitted + (if e.anchor == SawTilde || ((e.anchor == ExpectValue || e.anchor == ExpectValueReq) && open)
                            then [Classify(e.bytes).text] else [])
  {
    var text := Classify(e.bytes).text;
    var moved := Sourced(s, text, schema);
    Columns.AnchoredKeepsEmitted(moved, text, e.anchor, schema);
    AnchoredSameFrames(moved, text, e.anchor, schema);
  }

  lemma OthersRecord(s: Scope, e: Event, schema: Schema)
    requires !Classify(e.bytes).Identifier?
    ensures Dispatch(s, e.bytes, e.anchor, schema).emitted
         == s.emitted + match Classify(e.bytes) case StringLit(content) => [content] case _ => []
  {
    Columns.DispatchEmits(s, e, schema);
  }

  lemma TildeIsOpen(events: seq<Event>, i: nat, o: seq<nat>, s: Scope)
    requires i <= |events| && EventsDepth(0, events[..i]).Some? && o == Openers(events, i)
    requires (forall n :: 0 <= n < |o| ==> o[n] < |events|) && s.tildeOpen == TildeFlags(events, o)
    ensures Top(s.tildeOpen) == Some(true) <==> InTildeList(events, i)
  {
    if o != [] {
      InnermostIsLast(events, i, o[|o| - 1]);
      assert TildeFlags(events, o)[|TildeFlags(events, o)| - 1] == (events[o[|o| - 1]].anchor == SawTilde);
    }
    forall k: nat | Innermost(events, i, k) ensures o != [] && k == o[|o| - 1] { InnermostIsLast(events, i, k); }
  }

  lemma OneMoreColumn(events: seq<Event>, schema: Schema, scopes: seq<Scope>, i: nat)
    requires Trace(events, schema, scopes)
    requires i < |events| && EventsDepth(0, events).Some?
    ensures scopes[i + 1].emitted == scopes[i].emitted + ColumnOf(events, i)
  {
    CallsAreOpeners(events, MarksOf(events), schema, scopes, i);
    assert events == events[..i] + events[i..];
    EventsDepthConcat(0, events[..i], events[i..]);
    TildeIsOpen(events, i, Openers(events, i), scopes[i]);
    TraceNext(events, schema, scopes, i);
    ColumnRecorded(events, i, scopes[i], schema);
  }

  lemma ColumnRecorded(events: seq<Event>, i: nat, s: Scope, schema: Schema)
    requires i < |events| && (Top(s.tildeOpen) == Some(true) <==> InTildeList(events, i))
    ensures Dispatch(s, events[i].bytes, events[i].anchor, schema).emitted == s.emitted + ColumnOf(events, i)
  {
    if Classify(events[i].bytes).Identifier? {
      IdentRecords(s, events[i], schema);
    } else {
      OthersRecord(s, events[i], schema);
    }
  }

  lemma {:induction false} ColumnsAreAt(events: seq<Event>, schema: Schema, scopes: seq<Scope>, i: nat)
    requires Trace(events, schema, scopes)
    requires EventsDepth(0, events).Some? && i <= |events|
    ensures scopes[i].emitted == ColumnsAt(events, i)
  {
    TraceStarts(events, schema, scopes);
    if i > 0 {
      ColumnsAreAt(events, schema, scopes, i - 1);
      OneMoreColumn(events, schema, scopes, i - 1);
    }
  }

  // ----- whole runs -----

  lemma RunScope(tokens: seq<seq<byte>>, events: seq<Event>, schema: Schema)
    requires OfARun(events, tokens, schema)
    ensures EventsDepth(0, events).Some?
    ensures ObservedAll(FRESH, INITIAL, tokens, schema).(pending := None) == Before(events, schema, |events|)
  {
    RunEventsDepth(FRESH, INITIAL, tokens, schema);
    RunIsItsEvents(FRESH, INITIAL, tokens, schema);
    assert events[..|events|] == events && FRESH.(pending := None) == FRESH;
  }

  /** Over every run from the start of a stream, the columns recorded are exactly the contents of its strings and the
      names that stand right behind a `~` or where a value begins directly inside a `~[...]`, in order. */
  lemma RunRecords(tokens: seq<seq<byte>>, events: seq<Event>, schema: Schema)
    requires OfARun(events, tokens, schema)
    ensures ObservedAll(FRESH, INITIAL, tokens, schema).emitted == ColumnsAt(events, |events|)
  {
    RunScope(tokens, events, schema);
    var scopes := TraceOf(events, schema);
    TraceIsBefore(events, schema, scopes, |events|);
    ColumnsAreAt(events, schema, scopes, |events|);
  }

  /** An open delimiter before lexeme `i` belongs to a reference call, or to an establishing one. */
  ghost predicate InCall(events: seq<Event>, i: nat, reference: bool) {
    exists k: nat :: Unmatched(events, i, k) && CallsBy(events, k, reference)
  }

  ghost predicate CallsBy(events: seq<Event>, k: nat, reference: bool) {
    k <= |events| && if reference then ReferenceName(NameBefore(events, k)) else EstablishingName(NameBefore(events, k))
  }

  lemma {:induction false} CallsAmong(o: seq<nat>, marked: seq<bool>)
    requires forall m :: 0 <= m < |o| ==> o[m] < |marked|
    ensures CallDepths(o, marked) != [] <==> exists k :: k in o && marked[k]
    decreases |o|
  {
    if o != [] {
      var n := |o| - 1;
      var front := o[..n];
      CallsAmong(front, marked);
      assert o == front + [o[n]];
      if k: nat :| k in o && marked[k] {
        assert k in front || k == o[n];
      } else {
        assert !marked[o[n]];
        forall k | k in front ensures !marked[k] { assert k in o; }
      }
    }
  }

  lemma CallsAreOpen(events: seq<Event>, m: Marks, i: nat, reference: bool)
    requires i <= |events| && EventsDepth(0, events[..i]).Some? && MarksFit(events, m)
    requires forall n :: 0 <= n < |Openers(events, i)| ==> Openers(events, i)[n] < |events|
    ensures CallDepths(Openers(events, i), if reference then m.reference else m.establishing) != []
       <==> InCall(events, i, reference)
  {
    var marked := if reference then m.reference else m.establishing;
    CallsAmong(Openers(events, i), marked);
    forall k: nat | k < |events| ensures marked[k] <==> CallsBy(events, k, reference) { assert MarkAt(events, m, k); }
    forall k: nat ensures k in Openers(events, i) <==> Unmatched(events, i, k) { OpenersAreUnmatched(events, i, k); }
  }

  /** Where a value begins with no comparison before it, over every run from the start of a stream: a string must name
      a column if and only if some open delimiter is a reference call's, none is an establishing call's, and the
      pipeline around it is an explicit relation. */
  lemma ColumnRuleIff(tokens: seq<seq<byte>>, events: seq<Event>, schema: Schema, s: Scope, c: Config)
    requires OfARun(events, tokens, schema) && LeadsTo(tokens, s, c, schema)
    requires (c.state == ExpectValue || c.state == ExpectValueReq) && s.cmpPending.None?
    ensures Position(s, c.state).Column?
       <==> InCall(events, |events|, true) && !InCall(events, |events|, false)
            && BodyAt(events, MarksOf(events), schema, |events|).relExplicit
  {
    RunScope(tokens, events, schema);
    var scopes := TraceOf(events, schema);
    TraceIsBefore(events, schema, scopes, |events|);
    RuleBefore(events, schema, scopes, |events|);
    ValueRule(s, scopes[|events|], c.state);
  }

  lemma ValueRule(s: Scope, t: Scope, state: State)
    requires s.(pending := None) == t && (state == ExpectValue || state == ExpectValueReq) && s.cmpPending.None?
    ensures Position(s, state).Column? <==> t.refStack != [] && t.relExplicit && t.estStack == []
  {
  }

  lemma RuleBefore(events: seq<Event>, schema: Schema, scopes: seq<Scope>, i: nat)
    requires Trace(events, schema, scopes)
    requires i <= |events| && EventsDepth(0, events).Some?
    ensures var t := scopes[i];
            && (t.refStack != [] <==> InCall(events, i, true)) && (t.estStack != [] <==> InCall(events, i, false))
            && t.relExplicit == BodyAt(events, MarksOf(events), schema, i).relExplicit
  {
    var m := MarksOf(events);
    CallsAreOpeners(events, m, schema, scopes, i);
    assert events == events[..i] + events[i..];
    EventsDepthConcat(0, events[..i], events[i..]);
    CallsAreOpen(events, m, i, true);
    CallsAreOpen(events, m, i, false);
    BodyIsAt(events, m, schema, scopes, i);
  }
}
