/** Whole token runs as one list of lexemes, and what holds of any part of it. */
module WholeRuns {
  import opened Bytes
  import opened Automaton
  import opened Runs
  import opened Model
  import opened Lexemes
  import opened Scopes
  import opened Tokenization
  import opened Lockstep
  import opened Scoping
  import opened Quoting
  import Columns

  // ----- the lexemes of a run -----

  /** The lexemes a token run dispatches, in order. */
  ghost function RunEvents(s: Scope, c: Config, tokens: seq<seq<byte>>, schema: Schema): seq<Event>
    requires RunTokens(c, tokens).Some?
    decreases |tokens|
  {
    if tokens == [] then []
    else
      Flushed(Lexed(s, c, tokens[0]))
      + RunEvents(Observed(s, c, tokens[0], schema), Run(c, tokens[0]).value, tokens[1..], schema)
  }

  /** A token run moves the scope as its lexemes do. */
  lemma {:induction false} RunIsItsEvents(s: Scope, c: Config, tokens: seq<seq<byte>>, schema: Schema)
    requires RunTokens(c, tokens).Some?
    ensures ObservedAll(s, c, tokens, schema).(pending := None)
         == DispatchAll(s.(pending := None), RunEvents(s, c, tokens, schema), schema)
    decreases |tokens|
  {
    if tokens != [] {
      var here, t, d := Flushed(Lexed(s, c, tokens[0])), Observed(s, c, tokens[0], schema), Run(c, tokens[0]).value;
      ObservedFields(s, c, tokens[0], schema);
      RunIsItsEvents(t, d, tokens[1..], schema);
      DispatchAllConcat(s.(pending := None), here, RunEvents(t, d, tokens[1..], schema), schema);
    }
  }

  /** The lexemes of a run reach exactly the automaton's stack height. */
  lemma {:induction false} RunEventsDepth(s: Scope, c: Config, tokens: seq<seq<byte>>, schema: Schema)
    requires Locked(s, c) && RunTokens(c, tokens).Some?
    ensures EventsDepth(s.depth, RunEvents(s, c, tokens, schema)) == Some(|RunTokens(c, tokens).value.stack|)
    decreases |tokens|
  {
    if tokens != [] {
      var l := Lexed(s, c, tokens[0]);
      LockedIsLevel(s, c);
      FedAllKeepsLevel(s.depth, Resumed(s.pending, c), tokens[0]);
      FlushedLevel(s.depth, l);
      FedAllReaches(Resumed(s.pending, c), tokens[0]);
      ObservedKeepsLocked(s, c, tokens[0], schema);
      var t, d := Observed(s, c, tokens[0], schema), Run(c, tokens[0]).value;
      RunEventsDepth(t, d, tokens[1..], schema);
      EventsDepthConcat(s.depth, Flushed(l), RunEvents(t, d, tokens[1..], schema));
    }
  }

  // ----- matching delimiters -----

  /** Delimiters match within the list. */
  ghost predicate WellNested(events: seq<Event>) {
    EventsDepth(0, events) == Some(0)
  }

  /** The same list read from any depth. */
  lemma {:induction false} Lifted(k: nat, depth: nat, events: seq<Event>)
    requires EventsDepth(depth, events).Some?
    ensures EventsDepth(k + depth, events) == Some(k + EventsDepth(depth, events).value)
    ensures Above(k, k + depth, events)
    ensures NoPipeAt(k, k + depth, events) <==> NoPipeAt(0, depth, events)
    decreases |events|
  {
    if events != [] {
      Lifted(k, DepthAfter(depth, Classify(events[0].bytes)), events[1..]);
    }
  }

  /** Above a depth no pipe is read at it. */
  lemma {:induction false} AboveHasNoPipe(h: nat, depth: nat, events: seq<Event>)
    requires Above(h + 1, depth, events)
    ensures NoPipeAt(h, depth, events)
    decreases |events|
  {
    if events != [] {
      AboveHasNoPipe(h, DepthAfter(depth, Classify(events[0].bytes)), events[1..]);
    }
  }

  /** Lexeme `j` closes the delimiter that lexeme `i` opens. */
  ghost predicate Matched(events: seq<Event>, i: nat, j: nat) {
    && i < j < |events|
    && Classify(events[i].bytes).OpenDelim? && Classify(events[j].bytes).CloseDelim?
    && WellNested(events[i + 1..j])
  }

  lemma InnerShape(d: nat, inner: seq<Event>)
    requires WellNested(inner)
    ensures EventsDepth(d + 1, inner) == Some(d + 1) && Above(d, d + 1, inner) && NoPipeAt(d, d + 1, inner)
  {
    Lifted(1, 0, inner);
    Lifted(d, 1, inner);
    Lifted(d + 1, 0, inner);
    AboveHasNoPipe(d, d + 1, inner);
  }

  lemma RegionShape(d: nat, open: Event, inner: seq<Event>, close: Event)
    requires Classify(open.bytes).OpenDelim? && Classify(close.bytes).CloseDelim? && WellNested(inner)
    ensures var region := [open] + inner + [close];
            Above(d, d, region) && NoPipeAt(d, d, region) && EventsDepth(d, region) == Some(d)
  {
    InnerShape(d, inner);
    assert [close][1..] == [];
    StaysConcat(d, d + 1, inner, [close]);
    EventsDepthConcat(d + 1, inner, [close]);
    var region := [open] + inner + [close];
    assert region[0] == open && region[1..] == inner + [close];
  }

  /** The scope before lexeme `i`, from the start of a stream. */
  ghost function Before(events: seq<Event>, schema: Schema, i: nat): Scope
    requires i <= |events|
  {
    DispatchAll(FRESH, events[..i], schema)
  }

  /** The lexemes of a token run from the start of a stream. */
  ghost predicate OfARun(events: seq<Event>, tokens: seq<seq<byte>>, schema: Schema) {
    RunTokens(INITIAL, tokens).Some? && events == RunEvents(FRESH, INITIAL, tokens, schema)
  }

  lemma BeforeIsFramed(events: seq<Event>, schema: Schema, i: nat)
    requires EventsDepth(0, events).Some? && i <= |events|
    ensures Framed(Before(events, schema, i))
  {
    assert events == events[..i] + events[i..];
    EventsDepthConcat(0, events[..i], events[i..]);
    DispatchAllKeepsFramed(FRESH, events[..i], schema);
  }

  lemma BeforeAdds(events: seq<Event>, schema: Schema, i: nat, j: nat)
    requires i <= j <= |events|
    ensures Before(events, schema, j) == DispatchAll(Before(events, schema, i), events[i..j], schema)
  {
    assert events[..j] == events[..i] + events[i..j];
    DispatchAllConcat(FRESH, events[..i], events[i..j], schema);
  }

  lemma BeforeNext(events: seq<Event>, schema: Schema, i: nat)
    requires i < |events|
    ensures Before(events, schema, i + 1)
         == Dispatch(Before(events, schema, i), events[i].bytes, events[i].anchor, schema)
  {
    BeforeAdds(events, schema, i, i + 1);
    assert events[i..i + 1] == [events[i]];
    DispatchOne(Before(events, schema, i), events[i], schema);
  }

  predicate BindingsKept(u: Scope, t: Scope) {
    t.depth == u.depth && t.varClass == u.varClass && t.relationRowVars == u.relationRowVars
  }

  lemma RegionSteps(u: Scope, open: Event, inner: seq<Event>, close: Event, schema: Schema)
    ensures var inside := DispatchAll(Dispatch(u, open.bytes, open.anchor, schema), inner, schema);
            DispatchAll(u, [open] + inner + [close], schema) == Dispatch(inside, close.bytes, close.anchor, schema)
  {
    DispatchAllConcat(u, [open] + inner, [close], schema);
    DispatchAllConcat(u, [open], inner, schema);
    DispatchOne(u, open, schema);
    DispatchOne(DispatchAll(u, [open] + inner, schema), close, schema);
  }

  lemma RegionReturns(u: Scope, open: Event, inner: seq<Event>, close: Event, schema: Schema)
    requires Framed(u) && WellNested(inner)
    requires Classify(open.bytes).OpenDelim? && Classify(close.bytes).CloseDelim?
    ensures var o := Dispatch(u, open.bytes, open.anchor, schema);
            BindingsKept(u, Dispatch(DispatchAll(o, inner, schema), close.bytes, close.anchor, schema))
  {
    var region := [open] + inner + [close];
    RegionShape(u.depth, open, inner, close);
    DispatchAllKeepsFramed(u, region, schema);
    BindingsReturn(u, region, schema);
    RegionSteps(u, open, inner, close, schema);
  }

  /** Lexemes between a delimiter and its match stay inside and come back to their own depth. */
  lemma InsideRegion(s: Scope, u: Scope, events: seq<Event>, schema: Schema)
    requires Framed(u) && u.depth == s.depth + 1 && WellNested(events)
    ensures InRegion(s, u, events, schema)
  {
    Lifted(u.depth, 0, events);
    DispatchAllKeepsFramed(u, events, schema);
  }

  /** Lexeme `k` is the first binder pipe at the own depth of the region from `i` to `j`. */
  ghost predicate FirstPipe(events: seq<Event>, i: nat, k: nat, j: nat) {
    && i < k < j < |events| && IsBinderPipe(events[k])
    && WellNested(events[i + 1..k]) && NoPipeAt(0, 0, events[i + 1..k])
  }

  lemma AfterFirstPipe(events: seq<Event>, i: nat, k: nat, j: nat)
    requires Matched(events, i, j) && FirstPipe(events, i, k, j)
    ensures WellNested(events[k + 1..j])
  {
    assert events[i + 1..j] == events[i + 1..k] + ([events[k]] + events[k + 1..j]);
    EventsDepthConcat(0, events[i + 1..k], [events[k]] + events[k + 1..j]);
    assert ([events[k]] + events[k + 1..j])[1..] == events[k + 1..j];
  }

  lemma PipedRegion(s: Scope, open: Event, before: seq<Event>, pipe: Event, after: seq<Event>, close: Event,
                    schema: Schema)
    requires Framed(s) && Classify(open.bytes).OpenDelim? && Classify(close.bytes).CloseDelim?
    requires IsBinderPipe(pipe) && WellNested(before) && NoPipeAt(0, 0, before) && WellNested(after)
    ensures BodyRegion(s, open, before, pipe, after, close, schema)
  {
    OpenedRegion(s, open, schema);
    var o := Dispatch(s, open.bytes, open.anchor, schema);
    InsideRegion(s, o, before, schema);
    Lifted(o.depth, 0, before);
    var u := DispatchAll(o, before, schema);
    DispatchAllKeepsFramed(o, before, schema);
    DispatchKeepsFramed(u, pipe, schema);
    InsideRegion(s, Dispatch(u, pipe.bytes, pipe.anchor, schema), after, schema);
  }

  lemma DelimitersAndPipe(open: seq<byte>, pipe: seq<byte>, close: seq<byte>)
    requires open == [LPAREN] && pipe == [PIPE] && close == [RPAREN]
    ensures Classify(open).OpenDelim? && Classify(pipe).PipeOp? && Classify(close).CloseDelim?
  {
    assert !IsAsciiWs(open[0]) && !IsAsciiWs(pipe[0]) && !IsAsciiWs(close[0]);
  }

  /** The smallest region with a body: `(|)` after a finished value. */
  lemma PipedRegionExists(schema: Schema)
    ensures BodyRegion(FRESH, Event([LPAREN], AfterValue), [], Event([PIPE], AfterValue), [],
                       Event([RPAREN], AfterValue), schema)
  {
    DelimitersAndPipe([LPAREN], [PIPE], [RPAREN]);
    PipedRegion(FRESH, Event([LPAREN], AfterValue), [], Event([PIPE], AfterValue), [],
                Event([RPAREN], AfterValue), schema);
  }

  /** The scopes along a region of a run. */
  lemma AlongRegion(events: seq<Event>, schema: Schema, i: nat, k: nat)
    requires i < k <= |events|
    ensures var inside := Dispatch(Before(events, schema, i), events[i].bytes, events[i].anchor, schema);
            Before(events, schema, k) == DispatchAll(inside, events[i + 1..k], schema)
  {
    BeforeNext(events, schema, i);
    BeforeAdds(events, schema, i + 1, k);
  }

  /** Anywhere in any run, from an opening delimiter to its match every variable binding and every
      relation-row variable ends as it began, wherever the tokens begin and end. */
  lemma RunRestoresBindings(tokens: seq<seq<byte>>, events: seq<Event>, schema: Schema, i: nat, j: nat)
    requires OfARun(events, tokens, schema) && Matched(events, i, j)
    ensures BindingsKept(Before(events, schema, i), Before(events, schema, j + 1))
  {
    RunEventsDepth(FRESH, INITIAL, tokens, schema);
    MatchRestoresBindings(events, schema, i, j);
  }

  lemma MatchRestoresBindings(events: seq<Event>, schema: Schema, i: nat, j: nat)
    requires EventsDepth(0, events).Some? && Matched(events, i, j)
    ensures BindingsKept(Before(events, schema, i), Before(events, schema, j + 1))
  {
    BeforeIsFramed(events, schema, i);
    AlongRegion(events, schema, i, j);
    BeforeNext(events, schema, j);
    RegionReturns(Before(events, schema, i), events[i], events[i + 1..j], events[j], schema);
  }

  /** Anywhere in any run, a delimiter whose own depth binds: its close brings the pipeline state back to
      what it was at the first binder pipe, or marks the end of an establishing call. */
  lemma RunRestoresBody(tokens: seq<seq<byte>>, events: seq<Event>, schema: Schema, i: nat, k: nat, j: nat)
    requires OfARun(events, tokens, schema)
    requires Matched(events, i, j) && FirstPipe(events, i, k, j)
    ensures BodyOf(Before(events, schema, j + 1))
         == ClosedBody(BodyOf(Before(events, schema, k)), OpensEstablishing(Before(events, schema, i)))
  {
    RunEventsDepth(FRESH, INITIAL, tokens, schema);
    PipedCloseRestores(events, schema, i, k, j);
  }

  lemma PipedCloseRestores(events: seq<Event>, schema: Schema, i: nat, k: nat, j: nat)
    requires EventsDepth(0, events).Some? && Matched(events, i, j) && FirstPipe(events, i, k, j)
    ensures BodyOf(Before(events, schema, j + 1))
         == ClosedBody(BodyOf(Before(events, schema, k)), OpensEstablishing(Before(events, schema, i)))
  {
    AfterFirstPipe(events, i, k, j);
    BeforeIsFramed(events, schema, i);
    AlongRegion(events, schema, i, k);
    AlongRegion(events, schema, k, j);
    BeforeNext(events, schema, j);
    var s := Before(events, schema, i);
    PipedRegion(s, events[i], events[i + 1..k], events[k], events[k + 1..j], events[j], schema);
    BodyReturns(s, events[i], events[i + 1..k], events[k], events[k + 1..j], events[j], schema);
  }

  lemma PipelessRegion(s: Scope, open: Event, inner: seq<Event>, close: Event, schema: Schema)
    requires Framed(s) && Classify(open.bytes).OpenDelim? && Classify(close.bytes).CloseDelim?
    requires WellNested(inner) && NoPipeAt(0, 0, inner)
    ensures BodylessRegion(s, open, inner, close, schema)
  {
    OpenedRegion(s, open, schema);
    var o := Dispatch(s, open.bytes, open.anchor, schema);
    InsideRegion(s, o, inner, schema);
    Lifted(o.depth, 0, inner);
  }

  /** The smallest region without one: `()` after a finished value. */
  lemma PipelessRegionExists(schema: Schema)
    ensures BodylessRegion(FRESH, Event([LPAREN], AfterValue), [], Event([RPAREN], AfterValue), schema)
  {
    DelimitersAndPipe([LPAREN], [PIPE], [RPAREN]);
    PipelessRegion(FRESH, Event([LPAREN], AfterValue), [], Event([RPAREN], AfterValue), schema);
  }

  /** Anywhere in any run, a delimiter whose own depth binds nothing: its close keeps the pipeline state it
      meets, or marks the end of an establishing call. */
  lemma RunKeepsBody(tokens: seq<seq<byte>>, events: seq<Event>, schema: Schema, i: nat, j: nat)
    requires OfARun(events, tokens, schema)
    requires Matched(events, i, j) && NoPipeAt(0, 0, events[i + 1..j])
    ensures BodyOf(Before(events, schema, j + 1))
         == ClosedBody(BodyOf(Before(events, schema, j)), OpensEstablishing(Before(events, schema, i)))
  {
    RunEventsDepth(FRESH, INITIAL, tokens, schema);
    PipelessCloseKeeps(events, schema, i, j);
  }

  lemma PipelessCloseKeeps(events: seq<Event>, schema: Schema, i: nat, j: nat)
    requires EventsDepth(0, events).Some? && Matched(events, i, j) && NoPipeAt(0, 0, events[i + 1..j])
    ensures BodyOf(Before(events, schema, j + 1))
         == ClosedBody(BodyOf(Before(events, schema, j)), OpensEstablishing(Before(events, schema, i)))
  {
    var s := Before(events, schema, i);
    BeforeIsFramed(events, schema, i);
    AlongRegion(events, schema, i, j);
    BeforeNext(events, schema, j);
    PipelessRegion(s, events[i], events[i + 1..j], events[j], schema);
    BodylessRegionCloses(s, events[i], events[i + 1..j], events[j], schema);
  }

  lemma PipeStep(front: seq<Event>, e: Event)
    requires NoPipeAt(0, 0, front) && EventsDepth(0, front + [e]).Some?
    ensures EventsDepth(0, front).Some?
    ensures NoPipeAt(0, 0, front + [e]) || (IsBinderPipe(e) && WellNested(front))
  {
    EventsDepthConcat(0, front, [e]);
    assert [e][1..] == [];
    Lifted(0, 0, front);
    if !(IsBinderPipe(e) && WellNested(front)) {
      StaysConcat(0, 0, front, [e]);
    }
  }

  lemma InsideUpTo(events: seq<Event>, i: nat, m: nat, j: nat)
    requires i < m < j < |events| && WellNested(events[i + 1..j])
    ensures events[i + 1..m + 1] == events[i + 1..m] + [events[m]]
    ensures EventsDepth(0, events[i + 1..m + 1]).Some?
  {
    assert events[i + 1..j] == events[i + 1..m + 1] + events[m + 1..j];
    EventsDepthConcat(0, events[i + 1..m + 1], events[m + 1..j]);
  }

  /** A region has a first binder pipe at its own depth, or none. */
  lemma {:induction false} PipeOrNot(events: seq<Event>, i: nat, j: nat, m: nat)
    requires Matched(events, i, j) && i < m <= j && NoPipeAt(0, 0, events[i + 1..m])
    ensures NoPipeAt(0, 0, events[i + 1..j]) || exists k :: FirstPipe(events, i, k, j)
    decreases j - m
  {
    if m < j {
      InsideUpTo(events, i, m, j);
      PipeStep(events[i + 1..m], events[m]);
      if NoPipeAt(0, 0, events[i + 1..m + 1]) {
        PipeOrNot(events, i, j, m + 1);
      } else {
        assert FirstPipe(events, i, m, j);
      }
    }
  }

  /** The two cases of a delimited region cover every one. */
  lemma EveryRegionIsCovered(events: seq<Event>, i: nat, j: nat)
    requires Matched(events, i, j)
    ensures NoPipeAt(0, 0, events[i + 1..j]) || exists k :: FirstPipe(events, i, k, j)
  {
    assert events[i + 1..i + 1] == [];
    PipeOrNot(events, i, j, i + 1);
  }

  // ----- the recorded columns -----

  lemma {:induction false} RunIsFaithful(s: Scope, c: Config, tokens: seq<seq<byte>>, schema: Schema)
    requires PendingFits(s, c) && RunTokens(c, tokens).Some?
    ensures AllFaithful(RunEvents(s, c, tokens, schema))
    decreases |tokens|
  {
    if tokens != [] {
      RecordedStringsAreFaithful(s, c, tokens[0], schema);
      RunIsFaithful(Observed(s, c, tokens[0], schema), Run(c, tokens[0]).value, tokens[1..], schema);
    }
  }

  /** The lexeme that recorded a column: a string that is its quoting, or the name itself. */
  ghost predicate Records(e: Event, column: seq<byte>) {
    (Classify(e.bytes).StringLit? && e.bytes == Quote(column)) || Classify(e.bytes) == Identifier(column)
  }

  lemma {:induction false} EventsRecord(s: Scope, events: seq<Event>, schema: Schema)
    requires AllFaithful(events)
    ensures var t := DispatchAll(s, events, schema);
            && s.emitted <= t.emitted
            && (forall column :: column in t.emitted ==>
                  column in s.emitted || exists e :: e in events && Records(e, column))
            && (forall e :: e in events && Classify(e.bytes).StringLit? ==> Classify(e.bytes).content in t.emitted)
    decreases |events|
  {
    if events != [] {
      var e := events[0];
      assert Faithful(e);
      Columns.DispatchEmits(s, e, schema);
      var t := Dispatch(s, e.bytes, e.anchor, schema);
      assert AllFaithful(events[1..]) by {
        forall i | 0 <= i < |events[1..]| ensures Faithful(events[1..][i]) { assert Faithful(events[i + 1]); }
      }
      EventsRecord(t, events[1..], schema);
      forall column | column in DispatchAll(s, events, schema).emitted && column !in s.emitted
        ensures exists e :: e in events && Records(e, column)
      {
        if column in t.emitted {
          assert e in events && Records(e, column);
        } else {
          var later :| later in events[1..] && Records(later, column);
          assert later in events;
        }
      }
      if Classify(e.bytes).StringLit? { assert t.emitted[|s.emitted|] == Classify(e.bytes).content; }
    }
  }

  /** Over any run from the start of a stream, the recorded columns are what was read: each string lexeme's
      content is recorded, and each column is the content of a string lexeme that is its quoting, or a name. */
  lemma RecordedColumnsAreRead(tokens: seq<seq<byte>>, schema: Schema)
    requires RunTokens(INITIAL, tokens).Some?
    ensures var events := RunEvents(FRESH, INITIAL, tokens, schema);
            var emitted := ObservedAll(FRESH, INITIAL, tokens, schema).emitted;
            && AllFaithful(events)
            && (forall column :: column in emitted ==> exists e :: e in events && Records(e, column))
            && (forall e :: e in events && Classify(e.bytes).StringLit? ==> Classify(e.bytes).content in emitted)
  {
    RunIsFaithful(FRESH, INITIAL, tokens, schema);
    RunIsItsEvents(FRESH, INITIAL, tokens, schema);
    EventsRecord(FRESH, RunEvents(FRESH, INITIAL, tokens, schema), schema);
  }
}
