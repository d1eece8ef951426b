/** Lexical scoping: what a delimited region of the stream gives back when it closes. */
module Scoping {
  import opened Bytes
  import opened Automaton
  import Transitions
  import opened Runs
  import opened Model
  import opened Lexemes
  import opened Scopes
  import Tokenization
  import opened Lockstep

  // ----- runs of lexemes that stay at or above a depth -----

  ghost predicate Above(h: nat, depth: nat, events: seq<Event>)
    decreases |events|
  {
    && depth >= h
    && (events != [] ==>
          var lex := Classify(events[0].bytes);
          (lex.CloseDelim? ==> depth > h) && Above(h, DepthAfter(depth, lex), events[1..]))
  }

  /** A pipe other than the one that opens the query. */
  predicate IsBinderPipe(e: Event) {
    Classify(e.bytes).PipeOp? && !IsOpeningPipe(e.anchor)
  }

  /** No binder pipe is read at depth `h` itself. */
  ghost predicate NoPipeAt(h: nat, depth: nat, events: seq<Event>)
    decreases |events|
  {
    events != [] ==>
      var lex := Classify(events[0].bytes);
      (IsBinderPipe(events[0]) ==> depth != h) && NoPipeAt(h, DepthAfter(depth, lex), events[1..])
  }

  // ----- variable bindings -----

  datatype Bindings = Bindings(vars: map<Name, Option<Name>>, rows: set<Name>)

  /** The bindings once every save deeper than `h` is undone, innermost first. */
  function Unwound(b: Bindings, saves: seq<BinderSave>, h: nat): Bindings
    decreases |saves|
  {
    if saves != [] && Top(saves).value.depth > h then
      var save := Top(saves).value;
      Unwound(Bindings(Unbound(b.vars, save), Unrowed(b.rows, save)), DropLast(saves), h)
    else b
  }

  function BindingsOf(s: Scope): Bindings {
    Bindings(s.varClass, s.relationRowVars)
  }

  function UnwoundTo(s: Scope, h: nat): Bindings {
    Unwound(BindingsOf(s), s.binderSaves, h)
  }

  /** Undoing the save a binder takes gives back the bindings before it. */
  lemma BinderUndone(s: Scope, name: Name)
    ensures var save := BinderSave(s.depth, name, Get(s.varClass, name), name in s.relationRowVars);
            && Unbound(Bound(s, name).varClass, save) == s.varClass
            && Unrowed(Bound(s, name).relationRowVars, save) == s.relationRowVars
  {
  }

  lemma BoundReads(s: Scope, t: Scope, name: Name)
    requires s.parenReceiver == t.parenReceiver && s.relExplicit == t.relExplicit && s.sawTilde == t.sawTilde
    requires BindingsOf(s) == BindingsOf(t)
    ensures BindingsOf(Bound(s, name)) == BindingsOf(Bound(t, name)) && Bound(t, name).binderSaves == t.binderSaves
  {
  }

  lemma PipeKeepsUnwound(s: Scope, pre: State, h: nat)
    requires s.depth > h
    ensures UnwoundTo(OnPipe(s, pre), h) == UnwoundTo(s, h)
  {
    if !IsOpeningPipe(pre) && s.lambdaFirstIdent.Some? && s.lambdaFirstIdent.value != [] {
      var name := s.lambdaFirstIdent.value;
      BoundReads(s, BodyBegun(s), name);
      BinderUndone(s, name);
      assert DropLast(BodyBegun(s).binderSaves) == s.binderSaves;
    }
  }

  lemma {:induction false} RestoringKeepsUnwound(s: Scope, h: nat)
    requires s.depth > h
    ensures UnwoundTo(BindersRestored(s), h) == UnwoundTo(s, h)
    decreases |s.binderSaves|
  {
    if s.binderSaves != [] && Top(s.binderSaves).value.depth == s.depth {
      RestoringKeepsUnwound(BinderPopped(s), h);
    }
  }

  lemma CloseKeepsUnwound(s: Scope, h: nat)
    requires Framed(s) && s.depth > h
    ensures UnwoundTo(OnClose(s), h) == UnwoundTo(s, h)
  {
    RestoringKeepsUnwound(s, h);
    BindersRestoredShape(s);
    BodiesRestoredShape(BindersRestored(s));
  }

  lemma OpenKeepsUnwound(s: Scope, pre: State, h: nat)
    ensures UnwoundTo(OnOpen(s, pre), h) == UnwoundTo(s, h)
  {
  }

  lemma ActedKeepsUnwound(s: Scope, lex: Lexeme, pre: State, schema: Schema, h: nat)
    requires Framed(s) && s.depth >= h
    requires lex.CloseDelim? || (lex.PipeOp? && !IsOpeningPipe(pre)) ==> s.depth > h
    ensures UnwoundTo(Acted(s, lex, pre, schema).0, h) == UnwoundTo(s, h)
  {
    match lex
    case OpenDelim => OpenKeepsUnwound(s, pre, h);
    case CloseDelim => CloseKeepsUnwound(s, h);
    case PipeOp => if !IsOpeningPipe(pre) { PipeKeepsUnwound(s, pre, h); }
    case Identifier(text) => IdentSameFrames(s, text, pre, schema);
    case _ => OthersSameFrames(s, lex, pre, schema);
  }

  lemma {:induction false} RunKeepsUnwound(s: Scope, events: seq<Event>, schema: Schema, h: nat)
    requires Framed(s) && Above(h, s.depth, events) && NoPipeAt(h, s.depth, events)
    ensures var t := DispatchAll(s, events, schema); Framed(t) && t.depth >= h && UnwoundTo(t, h) == UnwoundTo(s, h)
    decreases |events|
  {
    if events != [] {
      var e := events[0];
      ActedKeepsUnwound(s, Classify(e.bytes), e.anchor, schema, h);
      DispatchKeepsFramed(s, e, schema);
      RunKeepsUnwound(Dispatch(s, e.bytes, e.anchor, schema), events[1..], schema, h);
    }
  }

  /** A run that leaves depth `h`, comes back to it, and binds nothing at `h` itself leaves every variable
      binding and every relation-row variable exactly as it found them. */
  lemma BindingsReturn(s: Scope, events: seq<Event>, schema: Schema)
    requires Framed(s) && Above(s.depth, s.depth, events) && NoPipeAt(s.depth, s.depth, events)
    requires DispatchAll(s, events, schema).depth == s.depth
    ensures var t := DispatchAll(s, events, schema);
            t.varClass == s.varClass && t.relationRowVars == s.relationRowVars
  {
    RunKeepsUnwound(s, events, schema, s.depth);
  }

  // ----- calls still open -----

  /** The part of a rising stack at or below `h`. */
  function Upto(depths: seq<nat>, h: nat): seq<nat> {
    if depths == [] then []
    else if Top(depths).value > h then Upto(DropLast(depths), h)
    else depths
  }

  lemma UptoOfOpen(depths: seq<nat>, h: nat, d: nat)
    requires d > h
    ensures Upto(depths + [d], h) == Upto(depths, h)
  {
    assert DropLast(depths + [d]) == depths;
  }

  predicate SameBelow(s: Scope, t: Scope, h: nat) {
    && Upto(s.estStack, h) == Upto(t.estStack, h)
    && Upto(s.refStack, h) == Upto(t.refStack, h)
    && h <= |s.parenReceiver| && h <= |t.parenReceiver| && s.parenReceiver[..h] == t.parenReceiver[..h]
    && h <= |s.tildeOpen| && h <= |t.tildeOpen| && s.tildeOpen[..h] == t.tildeOpen[..h]
  }

  lemma CloseSameBelow(s: Scope, h: nat)
    requires Framed(s) && s.depth > h
    ensures SameBelow(OnClose(s), s, h)
  {
    BindersRestoredShape(s);
    BodiesRestoredShape(BindersRestored(s));
  }

  lemma OpenSameBelow(s: Scope, pre: State, h: nat)
    requires Framed(s) && s.depth >= h
    ensures SameBelow(OnOpen(s, pre), s, h)
  {
    UptoOfOpen(s.estStack, h, s.depth + 1);
    UptoOfOpen(s.refStack, h, s.depth + 1);
  }

  lemma ActedSameBelow(s: Scope, lex: Lexeme, pre: State, schema: Schema, h: nat)
    requires Framed(s) && s.depth >= h && (lex.CloseDelim? ==> s.depth > h)
    ensures SameBelow(Acted(s, lex, pre, schema).0, s, h)
  {
    match lex
    case OpenDelim => OpenSameBelow(s, pre, h);
    case CloseDelim => CloseSameBelow(s, h);
    case PipeOp => PipeAddsSaves(s, pre);
    case Identifier(text) => IdentSameFrames(s, text, pre, schema);
    case _ => OthersSameFrames(s, lex, pre, schema);
  }

  lemma {:induction false} RunSameBelow(s: Scope, events: seq<Event>, schema: Schema, h: nat)
    requires Framed(s) && Above(h, s.depth, events)
    ensures var t := DispatchAll(s, events, schema); Framed(t) && t.depth >= h && SameBelow(t, s, h)
    decreases |events|
  {
    if events != [] {
      var e := events[0];
      ActedSameBelow(s, Classify(e.bytes), e.anchor, schema, h);
      DispatchKeepsFramed(s, e, schema);
      RunSameBelow(Dispatch(s, e.bytes, e.anchor, schema), events[1..], schema, h);
    }
  }

  lemma UptoAll(depths: seq<nat>, h: nat)
    requires Rising(depths, h)
    ensures Upto(depths, h) == depths
  {
  }

  lemma SameBelowAtDepth(s: Scope, t: Scope)
    requires Framed(s) && Framed(t) && t.depth == s.depth && SameBelow(t, s, s.depth)
    ensures t.estStack == s.estStack && t.refStack == s.refStack
    ensures t.parenReceiver == s.parenReceiver && t.tildeOpen == s.tildeOpen
  {
    UptoAll(s.estStack, s.depth);
    UptoAll(t.estStack, s.depth);
    UptoAll(s.refStack, s.depth);
    UptoAll(t.refStack, s.depth);
    assert s.parenReceiver[..s.depth] == s.parenReceiver && t.parenReceiver[..s.depth] == t.parenReceiver;
    assert s.tildeOpen[..s.depth] == s.tildeOpen && t.tildeOpen[..s.depth] == t.tildeOpen;
  }

  /** A run that comes back to its depth finds the same calls open around it. */
  lemma CallsReturn(s: Scope, events: seq<Event>, schema: Schema)
    requires Framed(s) && Above(s.depth, s.depth, events)
    requires DispatchAll(s, events, schema).depth == s.depth
    ensures var t := DispatchAll(s, events, schema);
            && Framed(t)
            && t.estStack == s.estStack && t.refStack == s.refStack
            && t.parenReceiver == s.parenReceiver && t.tildeOpen == s.tildeOpen
  {
    RunSameBelow(s, events, schema, s.depth);
    SameBelowAtDepth(s, DispatchAll(s, events, schema));
  }

  // ----- the enclosing pipeline -----

  /** The pipeline state a lambda body saves. */
  datatype Body = Body(curClass: Option<Name>, relExplicit: bool, sawTilde: bool)

  function BodyOf(s: Scope): Body {
    Body(s.curClass, s.relExplicit, s.sawTilde)
  }

  function SavedBody(save: ScopeSave): Body {
    Body(save.prevCurClass, save.prevRelExplicit, save.prevSawTilde)
  }

  /** The `k`-th body save is the outermost one of depth `d`. */
  ghost predicate Outermost(saves: seq<ScopeSave>, k: nat, d: nat) {
    && k < |saves| && saves[k].depth == d
    && (forall i :: 0 <= i < k ==> saves[i].depth < d)
  }

  lemma {:induction false} RestoringBodies(s: Scope, k: nat)
    requires BodiesFit(s.scopeSaves, s.depth) && Outermost(s.scopeSaves, k, s.depth)
    ensures BodyOf(BodiesRestored(s)) == SavedBody(s.scopeSaves[k])
    ensures BodiesRestored(s).scopeSaves == s.scopeSaves[..k]
    decreases |s.scopeSaves|
  {
    var rest := BodyPopped(s);
    if k < |s.scopeSaves| - 1 {
      RestoringBodies(rest, k);
    } else {
      assert rest.scopeSaves == s.scopeSaves[..k];
    }
  }

  /** What closing a delimiter does to the pipeline state: the outermost body's snapshot when a body was
      opened there, and the establishing call's mark on top of it. */
  function ClosedBody(body: Body, establishing: bool): Body {
    if establishing then Body(None, true, body.sawTilde) else body
  }

  lemma CloseRestoresOutermost(s: Scope, k: nat)
    requires Framed(s) && s.depth > 0 && Outermost(s.scopeSaves, k, s.depth)
    ensures BodyOf(OnClose(s)) == ClosedBody(SavedBody(s.scopeSaves[k]), Top(s.estStack) == Some(s.depth))
    ensures OnClose(s).scopeSaves == s.scopeSaves[..k]
  {
    BindersRestoredShape(s);
    BodiesRestoredShape(BindersRestored(s));
    RestoringBodies(BindersRestored(s), k);
  }

  lemma CloseWithoutBody(s: Scope)
    requires Framed(s) && s.depth > 0 && (forall i :: 0 <= i < |s.scopeSaves| ==> s.scopeSaves[i].depth < s.depth)
    ensures BodyOf(OnClose(s)) == ClosedBody(BodyOf(s), Top(s.estStack) == Some(s.depth))
  {
    BindersRestoredShape(s);
  }

  lemma OpenKeepsSaves(s: Scope, pre: State)
    ensures OnOpen(s, pre).scopeSaves == s.scopeSaves
  {
  }

  lemma CloseKeepsOutermost(s: Scope, k: nat, d: nat)
    requires Framed(s) && s.depth > d && Outermost(s.scopeSaves, k, d)
    ensures var t := OnClose(s); Outermost(t.scopeSaves, k, d) && t.scopeSaves[..k + 1] == s.scopeSaves[..k + 1]
  {
    BindersRestoredShape(s);
    BodiesRestoredShape(BindersRestored(s));
  }

  lemma ActedKeepsOutermost(s: Scope, lex: Lexeme, pre: State, schema: Schema, k: nat, d: nat)
    requires Framed(s) && s.depth >= d && (lex.CloseDelim? ==> s.depth > d) && Outermost(s.scopeSaves, k, d)
    ensures var t := Acted(s, lex, pre, schema).0;
            Outermost(t.scopeSaves, k, d) && t.scopeSaves[..k + 1] == s.scopeSaves[..k + 1]
  {
    match lex
    case OpenDelim => OpenKeepsSaves(s, pre);
    case CloseDelim => CloseKeepsOutermost(s, k, d);
    case PipeOp => PipeKeepsOutermost(s, pre, k, d);
    case Identifier(text) => IdentSameFrames(s, text, pre, schema);
    case _ => OthersSameFrames(s, lex, pre, schema);
  }

  lemma PipeKeepsOutermost(s: Scope, pre: State, k: nat, d: nat)
    requires Outermost(s.scopeSaves, k, d) && s.depth >= d
    ensures var t := OnPipe(s, pre); Outermost(t.scopeSaves, k, d) && t.scopeSaves[..k + 1] == s.scopeSaves[..k + 1]
  {
    PipeAddsSaves(s, pre);
  }

  lemma {:induction false} RunKeepsOutermost(s: Scope, events: seq<Event>, schema: Schema, k: nat, d: nat)
    requires Framed(s) && Above(d, s.depth, events) && Outermost(s.scopeSaves, k, d)
    ensures var t := DispatchAll(s, events, schema);
            Framed(t) && Outermost(t.scopeSaves, k, d) && t.scopeSaves[k] == s.scopeSaves[k]
    decreases |events|
  {
    if events != [] {
      var e := events[0];
      ActedKeepsOutermost(s, Classify(e.bytes), e.anchor, schema, k, d);
      DispatchKeepsFramed(s, e, schema);
      var t := Dispatch(s, e.bytes, e.anchor, schema);
      assert t.scopeSaves[k] == t.scopeSaves[..k + 1][k] == s.scopeSaves[..k + 1][k];
      RunKeepsOutermost(t, events[1..], schema, k, d);
    }
  }

  /** Whether the region `s` is about to open is the argument list of an establishing call. */
  predicate OpensEstablishing(s: Scope) {
    s.lastIdent.Some? && IsEstablishing(s.lastIdent.value)
  }

  /** No body of depth `d` has been saved. */
  ghost predicate NoBodyAt(s: Scope, d: nat) {
    forall i :: 0 <= i < |s.scopeSaves| ==> s.scopeSaves[i].depth < d
  }

  lemma OpenedRegion(s: Scope, open: Event, schema: Schema)
    requires Framed(s) && Classify(open.bytes).OpenDelim?
    ensures var o := Dispatch(s, open.bytes, open.anchor, schema);
            && Framed(o) && o.depth == s.depth + 1 && NoBodyAt(o, o.depth)
            && (Top(o.estStack) == Some(o.depth) <==> OpensEstablishing(s))
  {
    DispatchKeepsFramed(s, open, schema);
  }

  lemma SavesAtOwnDepth(s: Scope, d: nat)
    requires Framed(s) && s.depth == d && NoBodyAt(s, d)
    ensures forall pre | !IsOpeningPipe(pre) ::
              Outermost(OnPipe(s, pre).scopeSaves, |s.scopeSaves|, d)
              && SavedBody(OnPipe(s, pre).scopeSaves[|s.scopeSaves|]) == BodyOf(s)
  {
  }

  /** No save has exactly depth `d`. */
  ghost predicate SkipsDepth(s: Scope, d: nat) {
    forall i :: 0 <= i < |s.scopeSaves| ==> s.scopeSaves[i].depth != d
  }

  lemma CloseSkipsDepth(s: Scope, d: nat)
    requires Framed(s) && SkipsDepth(s, d)
    ensures SkipsDepth(OnClose(s), d)
  {
    BindersRestoredShape(s);
    BodiesRestoredShape(BindersRestored(s));
  }

  lemma ActedSkipsDepth(s: Scope, lex: Lexeme, pre: State, schema: Schema, d: nat)
    requires Framed(s) && SkipsDepth(s, d) && (lex.PipeOp? && !IsOpeningPipe(pre) ==> s.depth != d)
    ensures SkipsDepth(Acted(s, lex, pre, schema).0, d)
  {
    match lex
    case OpenDelim => OpenKeepsSaves(s, pre);
    case CloseDelim => CloseSkipsDepth(s, d);
    case PipeOp => PipeSkipsDepth(s, pre, d);
    case Identifier(text) => IdentSameFrames(s, text, pre, schema);
    case _ => OthersSameFrames(s, lex, pre, schema);
  }

  lemma PipeSkipsDepth(s: Scope, pre: State, d: nat)
    requires SkipsDepth(s, d) && (!IsOpeningPipe(pre) ==> s.depth != d)
    ensures SkipsDepth(OnPipe(s, pre), d)
  {
    PipeAddsSaves(s, pre);
  }

  /** While no pipe is read at depth `d`, no body is saved there. */
  lemma {:induction false} RunSkipsDepth(s: Scope, events: seq<Event>, schema: Schema, d: nat)
    requires Framed(s) && Above(d, s.depth, events) && NoPipeAt(d, s.depth, events) && SkipsDepth(s, d)
    ensures SkipsDepth(DispatchAll(s, events, schema), d)
    decreases |events|
  {
    if events != [] {
      var e := events[0];
      ActedSkipsDepth(s, Classify(e.bytes), e.anchor, schema, d);
      DispatchKeepsFramed(s, e, schema);
      RunSkipsDepth(Dispatch(s, e.bytes, e.anchor, schema), events[1..], schema, d);
    }
  }

  lemma NoPipeNoBody(o: Scope, events: seq<Event>, schema: Schema)
    requires Framed(o) && NoBodyAt(o, o.depth)
    requires Above(o.depth, o.depth, events) && NoPipeAt(o.depth, o.depth, events)
    requires DispatchAll(o, events, schema).depth == o.depth
    ensures NoBodyAt(DispatchAll(o, events, schema), o.depth)
  {
    CallsReturn(o, events, schema);
    RunSkipsDepth(o, events, schema, o.depth);
    SkippedIsBelow(DispatchAll(o, events, schema));
  }

  lemma SkippedIsBelow(t: Scope)
    requires Framed(t) && SkipsDepth(t, t.depth)
    ensures NoBodyAt(t, t.depth)
  {
  }

  lemma PipeBegins(u: Scope, pipe: Event, schema: Schema)
    requires Framed(u) && IsBinderPipe(pipe) && NoBodyAt(u, u.depth)
    ensures var v := Dispatch(u, pipe.bytes, pipe.anchor, schema);
            && Outermost(v.scopeSaves, |u.scopeSaves|, u.depth) && SavedBody(v.scopeSaves[|u.scopeSaves|]) == BodyOf(u)
            && v.estStack == u.estStack && v.depth == u.depth
  {
    SavesAtOwnDepth(u, u.depth);
    PipeAddsSaves(u, pipe.anchor);
  }

  lemma CloseEvent(t: Scope, close: Event, k: nat, schema: Schema)
    requires Framed(t) && t.depth > 0 && Classify(close.bytes).CloseDelim? && Outermost(t.scopeSaves, k, t.depth)
    ensures BodyOf(Dispatch(t, close.bytes, close.anchor, schema))
         == ClosedBody(SavedBody(t.scopeSaves[k]), Top(t.estStack) == Some(t.depth))
  {
    CloseRestoresOutermost(t, k);
  }

  lemma CloseEventBodyless(t: Scope, close: Event, schema: Schema)
    requires Framed(t) && t.depth > 0 && Classify(close.bytes).CloseDelim? && NoBodyAt(t, t.depth)
    ensures BodyOf(Dispatch(t, close.bytes, close.anchor, schema))
         == ClosedBody(BodyOf(t), Top(t.estStack) == Some(t.depth))
  {
    CloseWithoutBody(t);
  }

  /** A list of lexemes inside a region opened from `s`: it starts and ends at the region's own depth. */
  ghost predicate InRegion(s: Scope, u: Scope, events: seq<Event>, schema: Schema) {
    u.depth == s.depth + 1 && Above(u.depth, u.depth, events) && DispatchAll(u, events, schema).depth == u.depth
  }

  /** From an opening delimiter to its match, with a first binder pipe at the delimiter's own depth. */
  ghost predicate BodyRegion(s: Scope, open: Event, before: seq<Event>, pipe: Event, after: seq<Event>, close: Event,
                             schema: Schema) {
    && Framed(s) && Classify(open.bytes).OpenDelim? && Classify(close.bytes).CloseDelim?
    && IsBinderPipe(pipe)
    && var o := Dispatch(s, open.bytes, open.anchor, schema);
       var u := DispatchAll(o, before, schema);
       && InRegion(s, o, before, schema) && NoPipeAt(o.depth, o.depth, before)
       && InRegion(s, Dispatch(u, pipe.bytes, pipe.anchor, schema), after, schema)
  }

  /** From an opening delimiter to its match, with no pipe at the delimiter's own depth. */
  ghost predicate BodylessRegion(s: Scope, open: Event, inner: seq<Event>, close: Event, schema: Schema) {
    && Framed(s) && Classify(open.bytes).OpenDelim? && Classify(close.bytes).CloseDelim?
    && var o := Dispatch(s, open.bytes, open.anchor, schema);
       InRegion(s, o, inner, schema) && NoPipeAt(o.depth, o.depth, inner)
  }

  /** At the close of a delimiter the pipeline state returns to the snapshot at the first binder pipe of
      that delimiter's own depth, unless the close ends an establishing call, which leaves a relation row. */
  lemma BodyReturns(s: Scope, open: Event, before: seq<Event>, pipe: Event, after: seq<Event>, close: Event,
                    schema: Schema)
    requires BodyRegion(s, open, before, pipe, after, close, schema)
    ensures var o := Dispatch(s, open.bytes, open.anchor, schema);
            var u := DispatchAll(o, before, schema);
            var t := DispatchAll(Dispatch(u, pipe.bytes, pipe.anchor, schema), after, schema);
            BodyOf(Dispatch(t, close.bytes, close.anchor, schema)) == ClosedBody(BodyOf(u), OpensEstablishing(s))
  {
    OpenedRegion(s, open, schema);
    var o := Dispatch(s, open.bytes, open.anchor, schema);
    var u := DispatchAll(o, before, schema);
    CallsReturn(o, before, schema);
    NoPipeNoBody(o, before, schema);
    DispatchKeepsFramed(u, pipe, schema);
    PipeBegins(u, pipe, schema);
    var v := Dispatch(u, pipe.bytes, pipe.anchor, schema);
    RunKeepsOutermost(v, after, schema, |u.scopeSaves|, u.depth);
    CallsReturn(v, after, schema);
    CloseEvent(DispatchAll(v, after, schema), close, |u.scopeSaves|, schema);
  }

  /** With no pipe at the delimiter's own depth, its close keeps the pipeline state it meets, and marks it
      when it ends an establishing call. */
  lemma BodylessRegionCloses(s: Scope, open: Event, inner: seq<Event>, close: Event, schema: Schema)
    requires BodylessRegion(s, open, inner, close, schema)
    ensures var t := DispatchAll(Dispatch(s, open.bytes, open.anchor, schema), inner, schema);
            BodyOf(Dispatch(t, close.bytes, close.anchor, schema)) == ClosedBody(BodyOf(t), OpensEstablishing(s))
  {
    OpenedRegion(s, open, schema);
    var o := Dispatch(s, open.bytes, open.anchor, schema);
    CallsReturn(o, inner, schema);
    NoPipeNoBody(o, inner, schema);
    CloseEventBodyless(DispatchAll(o, inner, schema), close, schema);
  }

  // ----- from lexemes to bytes and tokens -----

  /** A structural gap that stays at or above `h` and holds no pipe at `h`. */
  predicate GapStays(h: nat, depth: nat, gap: seq<byte>)
    decreases |gap|
  {
    && depth >= h
    && (gap != [] ==>
          && (gap[0] == PIPE || IsCloser(gap[0]) ==> depth > h)
          && GapStays(h, Stepped(depth, gap[0]), gap[1..]))
  }

  /** The depth behind a structural byte. */
  function Stepped(depth: nat, b: byte): nat {
    if IsOpener(b) then depth + 1 else if IsCloser(b) && depth > 0 then depth - 1 else depth
  }

  lemma {:induction false} GapStaysSnoc(h: nat, depth: nat, gap: seq<byte>, b: byte)
    requires GapStays(h, depth, gap) && GapDepth(depth, gap).Some?
    requires var d := GapDepth(depth, gap).value; GapStays(h, d, [b])
    ensures GapStays(h, depth, gap + [b])
    decreases |gap|
  {
    if gap == [] {
      assert gap + [b] == [b];
    } else {
      assert (gap + [b])[0] == gap[0] && (gap + [b])[1..] == gap[1..] + [b];
      GapStaysSnoc(h, Stepped(depth, gap[0]), gap[1..], b);
    }
  }

  lemma {:induction false} PlainGapStays(h: nat, depth: nat, plain: seq<byte>, rest: seq<byte>)
    requires Plain(plain) && GapStays(h, depth, plain + rest)
    ensures GapStays(h, depth, rest)
    decreases |plain|
  {
    if plain == [] {
      assert plain + rest == rest;
    } else {
      assert (plain + rest)[0] == plain[0] && (plain + rest)[1..] == plain[1..] + rest;
      PlainGapStays(h, depth, plain[1..], rest);
    }
  }

  lemma ClassifiedPipe(bytes: seq<byte>)
    ensures Classify(bytes).PipeOp? <==> bytes == [PIPE]
  {
    if bytes == [PIPE] { assert !IsAsciiWs(bytes[0]); }
  }

  lemma {:induction false} GapEventsStay(h: nat, depth: nat, gap: seq<byte>, anchor: State)
    requires GapStays(h, depth, gap)
    ensures Above(h, depth, GapEvents(gap, anchor)) && NoPipeAt(h, depth, GapEvents(gap, anchor))
    decreases |gap|
  {
    if gap != [] {
      var n := GapToken(gap);
      var first := gap[..n];
      assert gap == first + gap[n..];
      GapTokenShape(gap);
      ClassifiedDelimiter(first);
      ClassifiedPipe(first);
      if IsOpener(gap[0]) {
        GapEventsStay(h, depth + 1, gap[n..], anchor);
      } else if IsCloser(gap[0]) {
        GapEventsStay(h, depth - 1, gap[n..], anchor);
      } else {
        PlainGapStays(h, depth, first, gap[n..]);
        GapEventsStay(h, depth, gap[n..], anchor);
      }
      if !IsAsciiWs(gap[0]) {
        var events := GapEvents(gap, anchor);
        assert events[0] == Event(first, anchor) && events[1..] == GapEvents(gap[n..], anchor);
      }
    }
  }

  lemma {:induction false} StaysConcat(h: nat, depth: nat, es: seq<Event>, fs: seq<Event>)
    requires Above(h, depth, es) && NoPipeAt(h, depth, es) && EventsDepth(depth, es).Some?
    requires var d := EventsDepth(depth, es).value; Above(h, d, fs) && NoPipeAt(h, d, fs)
    ensures Above(h, depth, es + fs) && NoPipeAt(h, depth, es + fs)
    decreases |es|
  {
    if es == [] {
      assert es + fs == fs;
    } else {
      assert (es + fs)[0] == es[0] && (es + fs)[1..] == es[1..] + fs;
      StaysConcat(h, DepthAfter(depth, Classify(es[0].bytes)), es[1..], fs);
    }
  }

  /** A byte run whose stack never sinks below `h`, and that reads no pipe outside strings at `h` itself. */
  ghost predicate Sheltered(h: nat, c: Config, bytes: seq<byte>)
    requires Run(c, bytes).Some?
    decreases |bytes|
  {
    && |c.stack| >= h
    && (bytes != [] ==>
          && (bytes[0] == PIPE && c.state != InStrLit(false) ==> |c.stack| > h)
          && Sheltered(h, Advanced(c, bytes[0]).value, bytes[1..]))
  }

  ghost predicate StaysLevel(h: nat, depth: nat, l: Lexing) {
    && Level(depth, l)
    && Above(h, depth, l.events) && NoPipeAt(h, depth, l.events)
    && (LexemeKind(l.config.state).None? ==> GapStays(h, EventsDepth(depth, l.events).value, l.seg))
  }

  lemma OneByteStays(h: nat, c: Config, b: byte)
    requires Advanced(c, b).Some? && |c.stack| >= h && |Advanced(c, b).value.stack| >= h
    requires b == PIPE && c.state != InStrLit(false) ==> |c.stack| > h
    requires LexemeKind(Advanced(c, b).value.state).None?
    ensures GapStays(h, |c.stack|, [b])
  {
    Transitions.GapByte(c.state, Top(c.stack), b);
    Transitions.StepMoves(c.state, Top(c.stack), b);
    assert [b][1..] == [];
  }

  lemma LexemeEventStays(h: nat, depth: nat, seg: seq<byte>, anchor: State)
    requires OpensPlainly(seg) && depth >= h
    ensures Above(h, depth, [Event(seg, anchor)]) && NoPipeAt(h, depth, [Event(seg, anchor)])
  {
    ClassifiedDelimiter(seg);
    ClassifiedPipe(seg);
    assert [Event(seg, anchor)][1..] == [];
  }

  lemma FedStaysLevel(h: nat, depth: nat, l: Lexing, b: byte)
    requires StaysLevel(h, depth, l) && Advanced(l.config, b).Some?
    requires |l.config.stack| >= h && |Advanced(l.config, b).value.stack| >= h
    requires b == PIPE && l.config.state != InStrLit(false) ==> |l.config.stack| > h
    ensures StaysLevel(h, depth, Fed(l, b))
  {
    FedKeepsLevel(depth, l, b);
    var next := Advanced(l.config, b).value;
    if LexemeKind(next.state).None? { OneByteStays(h, l.config, b); }
    var d := EventsDepth(depth, l.events).value;
    if LexemeKind(l.config.state).None? {
      if LexemeKind(next.state).Some? {
        GapEventsStay(h, d, l.seg, l.anchor);
        StaysConcat(h, depth, l.events, GapEvents(l.seg, l.anchor));
      } else {
        GapStaysSnoc(h, d, l.seg, b);
      }
    } else if LexemeKind(next.state) != LexemeKind(l.config.state) {
      LexemeEventStays(h, d, l.seg, l.anchor);
      LexemeEventDepth(d, l.seg, l.anchor);
      EventsDepthConcat(depth, l.events, [Event(l.seg, l.anchor)]);
      StaysConcat(h, depth, l.events, [Event(l.seg, l.anchor)]);
      if LexemeKind(next.state).Some? { Transitions.StepTurns(l.config.state, Top(l.config.stack), b); }
    }
  }

  lemma {:induction false} FedAllStaysLevel(h: nat, depth: nat, l: Lexing, bytes: seq<byte>)
    requires StaysLevel(h, depth, l) && Run(l.config, bytes).Some? && Sheltered(h, l.config, bytes)
    ensures StaysLevel(h, depth, FedAll(l, bytes))
    decreases |bytes|
  {
    if bytes != [] {
      var next := Advanced(l.config, bytes[0]).value;
      assert Sheltered(h, next, bytes[1..]);
      FedStaysLevel(h, depth, l, bytes[0]);
      FedAllStaysLevel(h, depth, Fed(l, bytes[0]), bytes[1..]);
    }
  }

  lemma FlushedStays(h: nat, depth: nat, l: Lexing)
    requires StaysLevel(h, depth, l)
    ensures Above(h, depth, Flushed(l)) && NoPipeAt(h, depth, Flushed(l))
  {
    if LexemeKind(l.config.state).None? {
      GapEventsStay(h, EventsDepth(depth, l.events).value, l.seg, l.anchor);
      StaysConcat(h, depth, l.events, GapEvents(l.seg, l.anchor));
    }
  }

  lemma TokenKeepsUnwound(h: nat, s: Scope, c: Config, bytes: seq<byte>, schema: Schema)
    requires Locked(s, c) && Run(c, bytes).Some? && Sheltered(h, c, bytes)
    ensures UnwoundTo(Observed(s, c, bytes, schema), h) == UnwoundTo(s, h)
  {
    LockedIsLevel(s, c);
    assert |c.stack| >= h;
    assert StaysLevel(h, s.depth, Resumed(s.pending, c));
    FedAllStaysLevel(h, s.depth, Resumed(s.pending, c), bytes);
    FlushedStays(h, s.depth, Lexed(s, c, bytes));
    RunKeepsUnwound(s.(pending := None), Flushed(Lexed(s, c, bytes)), schema, h);
    Tokenization.ObservedFields(s, c, bytes, schema);
  }

  /** Every token of a run is sheltered. */
  ghost predicate ShelteredTokens(h: nat, c: Config, tokens: seq<seq<byte>>)
    requires RunTokens(c, tokens).Some?
    decreases |tokens|
  {
    tokens != [] ==> Sheltered(h, c, tokens[0]) && ShelteredTokens(h, Run(c, tokens[0]).value, tokens[1..])
  }

  lemma {:induction false} TokensKeepUnwound(h: nat, s: Scope, c: Config, tokens: seq<seq<byte>>, schema: Schema)
    requires Locked(s, c) && RunTokens(c, tokens).Some? && ShelteredTokens(h, c, tokens)
    ensures UnwoundTo(ObservedAll(s, c, tokens, schema), h) == UnwoundTo(s, h)
    decreases |tokens|
  {
    if tokens != [] {
      TokenKeepsUnwound(h, s, c, tokens[0], schema);
      ObservedKeepsLocked(s, c, tokens[0], schema);
      TokensKeepUnwound(h, Observed(s, c, tokens[0], schema), Run(c, tokens[0]).value, tokens[1..], schema);
    }
  }

  lemma NothingToUnwind(s: Scope)
    requires Framed(s)
    ensures UnwoundTo(s, s.depth) == BindingsOf(s)
  {
  }

  /** However the stream is tokenized, a region that opens above the current stack height and closes back
      to it leaves every variable binding and relation-row variable as it found them. */
  lemma RegionRestoresBindings(s: Scope, c: Config, tokens: seq<seq<byte>>, schema: Schema)
    requires Locked(s, c) && RunTokens(c, tokens).Some? && ShelteredTokens(|c.stack|, c, tokens)
    requires |RunTokens(c, tokens).value.stack| == |c.stack|
    ensures var t := ObservedAll(s, c, tokens, schema);
            t.varClass == s.varClass && t.relationRowVars == s.relationRowVars
  {
    var t := ObservedAll(s, c, tokens, schema);
    TokensKeepUnwound(|c.stack|, s, c, tokens, schema);
    RunsKeepLocked(s, c, tokens, schema);
    NothingToUnwind(s);
    NothingToUnwind(t);
  }
}
