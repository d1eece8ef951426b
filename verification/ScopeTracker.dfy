/** The mutable scope tracker: each handler refines its transition on the scope value. */
module Tracker {
  import opened Bytes
  import opened Automaton
  import opened Runs
  import opened Model
  import opened Lexemes
  import opened Scopes
  import opened Tokenization
  import PdaDriver

  class ScopeTracker {
    var pending: Option<Pending>
    var curClass: Option<Name>
    var varClass: map<Name, Option<Name>>
    var pendingRefvar: Option<Name>
    var dotBase: Option<Name>
    var navCursor: Option<Name>
    var lastResolved: Option<TypeClass>
    var lastNavClass: Option<Name>
    var cmpPending: Option<TypeClass>
    var lambdaFirstIdent: Option<Name>
    var pendingArrowReceiver: Option<Option<Name>>
    var parenReceiver: seq<Option<Name>>
    var estStack: seq<nat>
    var refStack: seq<nat>
    var depth: nat
    var lastIdent: Option<Name>
    var relExplicit: bool
    var sawTilde: bool
    var tildeOpen: seq<bool>
    var relationRowVars: set<Name>
    var binderSaves: seq<BinderSave>
    var scopeSaves: seq<ScopeSave>
    var dotIsColumn: bool
    var emitted: seq<seq<byte>>

    function View(): Scope
      reads this
    {
      Scope(pending, curClass, varClass, pendingRefvar, dotBase, navCursor, lastResolved, lastNavClass, cmpPending,
            lambdaFirstIdent, pendingArrowReceiver, parenReceiver, estStack, refStack, depth, lastIdent, relExplicit,
            sawTilde, tildeOpen, relationRowVars, binderSaves, scopeSaves, dotIsColumn, emitted)
    }

    constructor ()
      ensures View() == FRESH
    {
      pending, curClass, varClass, pendingRefvar, dotBase, navCursor := None, None, map[], None, None, None;
      lastResolved, lastNavClass, cmpPending, lambdaFirstIdent := None, None, None, None;
      pendingArrowReceiver, parenReceiver, estStack, refStack, depth := None, [], [], [], 0;
      lastIdent, relExplicit, sawTilde, tildeOpen, relationRowVars := None, false, false, [], {};
      binderSaves, scopeSaves, dotIsColumn, emitted := [], [], false, [];
    }

    /** Move the navigation to what a member resolved to. */
    method Follow(found: Option<Resolved>) returns (now: Option<TypeClass>)
      modifies `navCursor, `lastNavClass, `dotBase
      ensures dotBase == None && navCursor == lastNavClass
      ensures navCursor == if found.Some? && found.value.ty.Class? then Some(found.value.ty.path) else None
      ensures now == if found.Some? && found.value.ty.Primitive? then Some(TypeClassOf(found.value.ty.prim)) else None
    {
      now := None;
      dotBase := None;
      match found {
        case Some(Resolved(Class(path), _)) =>
          navCursor := Some(path);
          lastNavClass := Some(path);
        case Some(Resolved(Primitive(prim), _)) =>
          now := Some(TypeClassOf(prim));
          navCursor := None;
          lastNavClass := None;
        case _ =>
          navCursor := None;
          lastNavClass := None;
      }
    }

    /** A column access ends the navigation. */
    method EndAtColumn()
      modifies `dotIsColumn, `navCursor, `lastNavClass
      ensures !dotIsColumn && navCursor == None && lastNavClass == None
    {
      dotIsColumn := false;
      navCursor := None;
      lastNavClass := None;
    }

    method ResolveStep(ident: Name, schema: Schema) returns (now: Option<TypeClass>)
      modifies `dotIsColumn, `navCursor, `lastNavClass, `dotBase
      ensures (View(), now) == MemberResolved(old(View()), ident, schema)
    {
      now := None;
      if dotIsColumn {
        EndAtColumn();
      } else if dotBase.Some? {
        var found := ResolveMember(schema, dotBase.value, ident);
        now := Follow(found);
      }
    }

    method NoteSource(text: Name, schema: Schema)
      modifies `curClass
      ensures View() == Sourced(old(View()), text, schema)
    {
      if schema.HasClass(text) {
        curClass := Some(text);
      }
    }

    method NoteAnchored(text: Name, pre: State, schema: Schema) returns (now: Option<TypeClass>)
      modifies `pendingRefvar, `lambdaFirstIdent, `dotIsColumn, `navCursor, `lastNavClass, `dotBase
      ensures (View(), now) == Anchored(old(View()), text, pre, schema)
    {
      now := None;
      if pre == AfterDollar {
        NoteReference(text);
      } else if pre == AfterDot {
        now := ResolveStep(text, schema);
      } else if AtValue(pre) || ((pre == AfterColon || pre == AfterColonWs) && !schema.HasClass(text)) {
        NoteCandidate(text);
      }
    }

    /** A variable is referred to. */
    method NoteReference(text: Name)
      modifies `pendingRefvar
      ensures View() == old(View()).(pendingRefvar := Some(text))
    {
      pendingRefvar := Some(text);
    }

    /** A name that a pipe may make a binder. */
    method NoteCandidate(text: Name)
      modifies `lambdaFirstIdent
      ensures View() == old(View()).(lambdaFirstIdent := Some(text))
    {
      lambdaFirstIdent := Some(text);
    }

    method NoteColumnName(text: Name, pre: State)
      modifies `emitted
      ensures View() == ColumnNamed(old(View()), text, pre)
    {
      if pre == SawTilde || (AtValue(pre) && Top(tildeOpen) == Some(true)) {
        emitted := emitted + [text];
      }
    }

    method OnIdentifier(text: Name, pre: State, schema: Schema) returns (now: Option<TypeClass>)
      modifies this
      ensures (View(), now) == OnIdent(old(View()), text, pre, schema)
    {
      NoteSource(text, schema);
      now := NoteAnchored(text, pre, schema);
      NoteColumnName(text, pre);
      lastIdent := Some(text);
    }

    method OnDotOp()
      modifies this
      ensures View() == OnDot(old(View()))
    {
      dotIsColumn := false;
      if pendingRefvar.Some? {
        var v := pendingRefvar.value;
        pendingRefvar := None;
        if v in relationRowVars {
          dotIsColumn := true;
          dotBase := None;
        } else {
          dotBase := Flatten(Get(varClass, v));
        }
      } else if navCursor.Some? {
        dotBase := navCursor;
      } else {
        dotBase := None;
      }
    }

    method OnArrowOp()
      modifies this
      ensures View() == OnArrow(old(View()))
    {
      var receiver := if lastNavClass.Some? then lastNavClass else curClass;
      lastNavClass := None;
      pendingArrowReceiver := Some(receiver);
      pendingRefvar := None;
      navCursor := None;
      lastIdent := None;
    }

    /** Bind `name` for the lambda body that begins here. */
    method BindName(name: Name)
      modifies `varClass, `relationRowVars
      ensures View() == Bound(old(View()), name)
    {
      var receiver := Flatten(Top(parenReceiver));
      if receiver.None? && relExplicit && sawTilde {
        varClass := varClass - {name};
        relationRowVars := relationRowVars + {name};
      } else {
        relationRowVars := relationRowVars - {name};
        varClass := varClass[name := receiver];
      }
    }

    /** Save the pipeline state at a binder pipe, and take the binder candidate with what it shadows. */
    method BeginBody()
      modifies `scopeSaves, `lambdaFirstIdent, `binderSaves
      ensures View() == BodyBegun(old(View()))
    {
      scopeSaves := scopeSaves + [ScopeSave(depth, curClass, relExplicit, sawTilde)];
      var name := lambdaFirstIdent;
      lambdaFirstIdent := None;
      if name.Some? && name.value != [] {
        binderSaves := binderSaves
          + [BinderSave(depth, name.value, Get(varClass, name.value), name.value in relationRowVars)];
      }
    }

    method OnPipeOp(pre: State)
      modifies this
      ensures View() == OnPipe(old(View()), pre)
    {
      if !IsOpeningPipe(pre) {
        var name := lambdaFirstIdent;
        BeginBody();
        if name.Some? && name.value != [] {
          BindName(name.value);
        }
      }
    }

    /** The delimiter itself: depth, tilde flag, and the calls it opens. */
    method PushDelimiter(isTilde: bool, called: Option<Name>)
      modifies `depth, `tildeOpen, `sawTilde, `relExplicit, `estStack, `refStack
      ensures depth == old(depth) + 1 && tildeOpen == old(tildeOpen) + [isTilde]
      ensures estStack == if called.Some? &&
              IsEstablishing(called.value) then old(estStack) + [depth] else old(estStack)
      ensures refStack == if called.Some? && IsReference(called.value) then old(refStack) + [depth] else old(refStack)
      ensures var nested := called.Some? && IsSourceMethod(called.value) && depth >= NESTED_SOURCE_MIN_DEPTH;
              && sawTilde == ((old(sawTilde) || isTilde) && !nested)
              && relExplicit == (old(relExplicit) && !nested)
    {
      depth := depth + 1;
      sawTilde := sawTilde || isTilde;
      tildeOpen := tildeOpen + [isTilde];
      if called.Some? {
        var name := called.value;
        if IsEstablishing(name) {
          estStack := estStack + [depth];
        }
        if IsReference(name) {
          refStack := refStack + [depth];
        }
        if IsSourceMethod(name) && depth >= NESTED_SOURCE_MIN_DEPTH {
          relExplicit := false;
          sawTilde := false;
        }
      }
    }

    /** The receiver of the delimiter's lambda arguments. */
    method PushReceiver()
      modifies `pendingArrowReceiver, `parenReceiver, `lambdaFirstIdent, `lastIdent
      ensures pendingArrowReceiver == None && lambdaFirstIdent == None && lastIdent == None
      ensures parenReceiver == old(parenReceiver)
                + [if old(pendingArrowReceiver).Some? then old(pendingArrowReceiver).value else curClass]
    {
      var receiver := if pendingArrowReceiver.Some? then pendingArrowReceiver.value else curClass;
      pendingArrowReceiver := None;
      parenReceiver := parenReceiver + [receiver];
      lambdaFirstIdent := None;
      lastIdent := None;
    }

    method OnOpenDelim(pre: State)
      modifies this
      ensures View() == OnOpen(old(View()), pre)
    {
      PushDelimiter(pre == SawTilde, lastIdent);
      PushReceiver();
    }

    method PopBinder()
      requires binderSaves != []
      modifies `binderSaves, `varClass, `relationRowVars
      ensures View() == BinderPopped(old(View()))
    {
      var save := Top(binderSaves).value;
      binderSaves := DropLast(binderSaves);
      match save.prevClass {
        case Some(c) => varClass := varClass[save.name := c];
        case None => varClass := varClass - {save.name};
      }
      if save.prevRelationRow {
        relationRowVars := relationRowVars + {save.name};
      } else {
        relationRowVars := relationRowVars - {save.name};
      }
    }

    method RestoreBinders()
      modifies this
      ensures View() == BindersRestored(old(View()))
    {
      ghost var target := BindersRestored(View());
      while binderSaves != [] && Top(binderSaves).value.depth == depth
        invariant BindersRestored(View()) == target
        decreases |binderSaves|
      {
        PopBinder();
      }
    }

    method PopBody()
      requires scopeSaves != []
      modifies `scopeSaves, `curClass, `relExplicit, `sawTilde
      ensures scopeSaves == DropLast(old(scopeSaves))
      ensures var save := Top(old(scopeSaves)).value;
              curClass == save.prevCurClass && relExplicit == save.prevRelExplicit && sawTilde == save.prevSawTilde
    {
      var save := Top(scopeSaves).value;
      scopeSaves := DropLast(scopeSaves);
      curClass := save.prevCurClass;
      relExplicit := save.prevRelExplicit;
      sawTilde := save.prevSawTilde;
    }

    method LeaveBody()
      requires scopeSaves != []
      modifies this
      ensures View() == BodyPopped(old(View()))
    {
      PopBody();
    }

    method RestoreBodies()
      modifies this
      ensures View() == BodiesRestored(old(View()))
    {
      ghost var target := BodiesRestored(View());
      while scopeSaves != [] && Top(scopeSaves).value.depth == depth
        invariant BodiesRestored(View()) == target
        decreases |scopeSaves|
      {
        LeaveBody();
      }
    }

    /** The delimiter itself is closed: its flags, and the calls that end with it. */
    method PopDelimiter()
      modifies `tildeOpen, `refStack, `estStack, `relExplicit, `curClass, `parenReceiver, `depth, `pendingArrowReceiver
      ensures tildeOpen == DropLast(old(tildeOpen)) && parenReceiver == DropLast(old(parenReceiver))
      ensures refStack == if Top(old(refStack)) == Some(old(depth)) then DropLast(old(refStack)) else old(refStack)
      ensures var establishing := Top(old(estStack)) == Some(old(depth));
              && estStack == (if establishing then DropLast(old(estStack)) else old(estStack))
              && relExplicit == (old(relExplicit) || establishing)
              && curClass == (if establishing then None else old(curClass))
      ensures depth == (if old(depth) == 0 then 0 else old(depth) - 1) && pendingArrowReceiver == None
    {
      tildeOpen := DropLast(tildeOpen);
      if Top(refStack) == Some(depth) {
        refStack := DropLast(refStack);
      }
      if Top(estStack) == Some(depth) {
        estStack := DropLast(estStack);
        relExplicit := true;
        curClass := None;
      }
      parenReceiver := DropLast(parenReceiver);
      depth := if depth == 0 then 0 else depth - 1;
      pendingArrowReceiver := None;
    }

    method CloseDelimiter()
      modifies this
      ensures View() == DelimiterPopped(old(View()))
    {
      PopDelimiter();
    }

    method OnCloseDelim()
      modifies this
      ensures View() == OnClose(old(View()))
    {
      RestoreBinders();
      RestoreBodies();
      CloseDelimiter();
    }

    /** The operand arming lives for one lexeme. */
    method SettleOperand(now: Option<TypeClass>, isCmp: bool)
      modifies `lastResolved, `cmpPending
      ensures lastResolved == now && cmpPending == if isCmp then old(cmpPending) else None
    {
      lastResolved := now;
      if !isCmp {
        cmpPending := None;
      }
    }

    /** Apply one whole lexeme that opened at `pre`. */
    method DispatchToken(bytes: seq<byte>, pre: State, schema: Schema)
      modifies this
      ensures View() == Dispatch(old(View()), bytes, pre, schema)
    {
      var lex := Classify(bytes);
      if !lex.Blank? {
        var now := Act(lex, pre, schema);
        SettleOperand(now, lex.CmpOp?);
      }
    }

    method Act(lex: Lexeme, pre: State, schema: Schema) returns (now: Option<TypeClass>)
      modifies this
      ensures (View(), now) == Acted(old(View()), lex, pre, schema)
    {
      now := None;
      match lex {
        case Identifier(text) =>
          now := OnIdentifier(text, pre, schema);
        case DotOp =>
          OnDotOp();
        case ArrowOp =>
          OnArrowOp();
        case PipeOp =>
          OnPipeOp(pre);
        case OpenDelim =>
          OnOpenDelim(pre);
        case CloseDelim =>
          OnCloseDelim();
        case CmpOp =>
          ArmOperand();
        case CommaSep =>
          NoteComma();
        case StringLit(content) =>
          NoteString(content);
        case DollarSign | NumberLit | DateLit | OtherOp =>
          ForgetMethod();
        case Blank =>
      }
    }

    method NoteString(content: seq<byte>)
      modifies `emitted, `lastIdent
      ensures View() == old(View()).(emitted := old(emitted) + [content], lastIdent := None)
    {
      emitted := emitted + [content];
      lastIdent := None;
    }

    method NoteComma()
      modifies `lambdaFirstIdent, `lastIdent
      ensures View() == old(View()).(lambdaFirstIdent := None, lastIdent := None)
    {
      lambdaFirstIdent := None;
      lastIdent := None;
    }

    method ForgetMethod()
      modifies `lastIdent
      ensures View() == old(View()).(lastIdent := None)
    {
      lastIdent := None;
    }

    method ArmOperand()
      modifies `cmpPending
      ensures View() == if old(lastResolved).Some? then old(View()).(cmpPending := old(lastResolved)) else old(View())
    {
      if lastResolved.Some? {
        cmpPending := lastResolved;
      }
    }

    lemma FirstOfGap(s: Scope, gap: seq<byte>, anchor: State, schema: Schema)
      requires gap != [] && !IsAsciiWs(gap[0])
      ensures var n := GapToken(gap);
              DispatchAll(s, GapEvents(gap, anchor), schema)
              == DispatchAll(Dispatch(s, gap[..n], anchor, schema), GapEvents(gap[n..], anchor), schema)
    {
      var events := GapEvents(gap, anchor);
      assert events[0] == Event(gap[..GapToken(gap)], anchor) && events[1..] == GapEvents(gap[GapToken(gap)..], anchor);
    }

    /** The length of the identifier run at the head. */
    method CountIdent(bytes: seq<byte>) returns (n: nat)
      ensures n == IdentRun(bytes)
    {
      n := 0;
      while n < |bytes| && IsIdentTail(bytes[n])
        invariant 0 <= n <= |bytes|
        invariant n + IdentRun(bytes[n..]) == IdentRun(bytes)
      {
        n := n + 1;
      }
    }

    /** Split a structural gap into its tokens and dispatch each from the gap's anchor. */
    method FlushGap(gap: seq<byte>, anchor: State, schema: Schema)
      modifies this
      ensures View() == DispatchAll(old(View()), GapEvents(gap, anchor), schema)
    {
      var rest := gap;
      while rest != []
        invariant DispatchAll(View(), GapEvents(rest, anchor), schema)
               == DispatchAll(old(View()), GapEvents(gap, anchor), schema)
        decreases |rest|
      {
        var n := 1;
        if IsAsciiWs(rest[0]) {
        } else {
          if |rest| > 1 && IsTwoByteOp(rest[0], rest[1]) {
            n := 2;
          } else if IsIdentStart(rest[0]) {
            n := CountIdent(rest);
          }
          FirstOfGap(View(), rest, anchor, schema);
          DispatchToken(rest[..n], anchor, schema);
        }
        rest := rest[n..];
      }
    }

    /** Dispatch a closed lexeme, prepending the cross-token buffer when it continues one. */
    method EmitLexeme(seg: seq<byte>, anchor: State, continuing: bool, schema: Schema)
      modifies this
      ensures continuing && old(pending).Some? ==>
                View() == Dispatch(old(View()).(pending := None), old(pending).value.buf + seg,
                        old(pending).value.anchor, schema)
      ensures !(continuing && old(pending).Some?) ==> View() == Dispatch(old(View()), seg, anchor, schema)
    {
      if continuing && pending.Some? {
        var done := pending.value;
        pending := None;
        DispatchToken(done.buf + seg, done.anchor, schema);
        return;
      }
      DispatchToken(seg, anchor, schema);
    }

    /** Buffer a lexeme still open at the token's end. */
    method BufferTrailing(kind: LexKind, seg: seq<byte>, anchor: State, continuing: bool)
      modifies this
      ensures continuing && old(pending).Some? ==>
                View() == old(View()).(pending := Some(old(pending).value.(buf := old(pending).value.buf + seg)))
      ensures continuing && old(pending).None? ==> View() == old(View())
      ensures !continuing ==>
                View() == old(View()).(pending := Some(Pending(kind, seg, anchor, Stamp(old(View()), anchor))))
    {
      if continuing {
        if pending.Some? {
          pending := Some(pending.value.(buf := pending.value.buf + seg));
        }
        return;
      }
      var pos := OpeningPosition(View(), anchor);
      pending := Some(Pending(kind, seg, anchor, if pos.ReValue? then Unconstrained else pos));
    }

    /** The tracker has dispatched exactly the lexemes closed so far, and holds a pending lexeme only while the
        segment in hand continues it. */
    ghost predicate Tracks(s: Scope, c: Config, l: Lexing, seg: seq<byte>, continuing: bool, schema: Schema)
      reads this
    {
      && View().(pending := None) == DispatchAll(s.(pending := None), l.events, schema)
      && (continuing <==> Continues(s.pending, c) && l.events == [])
      && pending == (if continuing then s.pending else None)
      && (continuing ==> l.anchor == s.pending.value.anchor)
      && l.seg == (if continuing then s.pending.value.buf else []) + seg
    }

    /** Close the open lexeme and start a segment at `b`. */
    method CloseSegment(ghost s: Scope, ghost c: Config, ghost l: Lexing, seg: seq<byte>, continuing: bool,
                        anchor: State, schema: Schema)
      requires Tracks(s, c, l, seg, continuing, schema) && l.anchor == anchor
      modifies this
      ensures View() == DispatchAll(s.(pending := None), l.events + [Event(l.seg, l.anchor)], schema)
      ensures pending == None
    {
      ghost var before := View().(pending := None);
      EmitLexeme(seg, anchor, continuing, schema);
      assert View() == Dispatch(before, l.seg, l.anchor, schema);
      DispatchAllConcat(s.(pending := None), l.events, [Event(l.seg, l.anchor)], schema);
      DispatchKeepsPending(before, l.seg, l.anchor, schema);
      assert [Event(l.seg, l.anchor)][1..] == [];
    }

    /** Flush the gap before a lexeme. */
    method CloseGap(ghost s: Scope, ghost c: Config, ghost l: Lexing, seg: seq<byte>, anchor: State, schema: Schema)
      requires Tracks(s, c, l, seg, false, schema) && l.anchor == anchor
      modifies this
      ensures View() == DispatchAll(s.(pending := None), l.events + GapEvents(l.seg, l.anchor), schema)
      ensures pending == None
    {
      assert l.seg == seg;
      FlushGap(seg, anchor, schema);
      DispatchAllConcat(s.(pending := None), l.events, GapEvents(l.seg, l.anchor), schema);
      DispatchAllKeepsPending(s.(pending := None), l.events + GapEvents(l.seg, l.anchor), schema);
    }

    /** Decide whether the first segment continues the pending lexeme; flush one it does not continue. */
    method Begin(c: Config, schema: Schema) returns (continuing: bool, anchor: State)
      modifies this
      ensures continuing <==> Continues(old(pending), c)
      ensures anchor == Resumed(old(pending), c).anchor
      ensures Tracks(old(View()), c, Resumed(old(pending), c), [], continuing, schema)
    {
      continuing := pending.Some? && LexemeKind(c.state) == Some(pending.value.kind);
      anchor := if continuing then pending.value.anchor else c.state;
      if !continuing && pending.Some? {
        var done := pending.value;
        pending := None;
        DispatchToken(done.buf, done.anchor, schema);
        DispatchKeepsPending(old(View()).(pending := None), done.buf, done.anchor, schema);
        assert [Event(done.buf, done.anchor)][1..] == [];
      }
    }

    /** One byte moved the automaton from `before` to `after`: close the segment it ends, if any. */
    method Segment(ghost s: Scope, ghost c: Config, ghost l: Lexing, ghost b: byte, before: State, after: State,
                   seg: seq<byte>, continuing: bool, anchor: State, schema: Schema)
      returns (goesOn: bool, newAnchor: State, reopened: bool)
      requires Tracks(s, c, l, seg, continuing, schema) && l.anchor == anchor && l.config.state == before
      requires Advanced(l.config, b).Some? && Advanced(l.config, b).value.state == after
      requires continuing ==> LexemeKind(before).Some?
      modifies this
      ensures Tracks(s, c, Fed(l, b), (if reopened then [] else seg) + [b], goesOn, schema)
      ensures newAnchor == Fed(l, b).anchor && (goesOn ==> LexemeKind(after).Some?)
    {
      var prevKind, curKind := LexemeKind(before), LexemeKind(after);
      goesOn, newAnchor, reopened := continuing, anchor, false;
      if prevKind.Some? && curKind != prevKind {
        CloseSegment(s, c, l, seg, continuing, anchor, schema);
        goesOn, newAnchor, reopened := false, before, true;
      } else if prevKind.None? && curKind.Some? {
        CloseGap(s, c, l, seg, anchor, schema);
        goesOn, newAnchor, reopened := false, before, true;
        assert Continues(s.pending, c) ==> l.events != [];
      }
    }

    /** The trailing segment: an open lexeme is buffered, a structural gap is dispatched. */
    method Finish(ghost s: Scope, ghost c: Config, ghost l: Lexing, state: State, seg: seq<byte>, anchor: State,
                  continuing: bool, schema: Schema)
      requires Tracks(s, c, l, seg, continuing, schema) && l.anchor == anchor && l.config.state == state
      requires continuing ==> LexemeKind(state).Some?
      modifies this
      ensures View().(pending := None) == DispatchAll(s.(pending := None), Flushed(l), schema)
      ensures pending == PendingAfter(View().(pending := s.pending), l, Continues(s.pending, c))
    {
      match LexemeKind(state) {
        case Some(kind) =>
          assert [] + seg == seg;
          BufferTrailing(kind, seg, anchor, continuing);
        case None =>
          CloseGap(s, c, l, seg, anchor, schema);
      }
    }

    /** Re-drive the automaton by one byte that L1 has already admitted. */
    static method Stepped(state: State, stack: seq<Frame>, b: byte) returns (next: State, rest: seq<Frame>)
      requires Advanced(Config(state, stack), b).Some?
      ensures Some(Config(next, rest)) == Advanced(Config(state, stack), b)
    {
      rest := stack;
      match StepOf(state, Top(stack), b) {
        case Next(t) =>
          next := t;
        case Push(frame, t) =>
          rest := stack + [frame];
          next := t;
        case Pop(t) =>
          rest := DropLast(stack);
          next := t;
        case Dead =>
          assert false;
      }
    }

    /** One byte: move the automaton, and close the segment the byte ends, if any. */
    method Feed(ghost s: Scope, ghost c: Config, ghost l: Lexing, ghost next: Lexing, b: byte, here: Config,
                seg: seq<byte>, continuing: bool, anchor: State, schema: Schema)
      returns (there: Config, goesOn: bool, newAnchor: State, reopened: bool)
      requires l.config == here && Advanced(here, b).Some? && next == Fed(l, b)
      requires Tracks(s, c, l, seg, continuing, schema) && l.anchor == anchor
      requires continuing ==> LexemeKind(here.state).Some?
      modifies this
      ensures next.config == there && next.anchor == newAnchor
      ensures Tracks(s, c, next, if reopened then [b] else seg + [b], goesOn, schema)
      ensures goesOn ==> LexemeKind(there.state).Some?
    {
      var state, stack := Stepped(here.state, here.stack, b);
      there := Config(state, stack);
      goesOn, newAnchor, reopened := Segment(s, c, l, b, here.state, state, seg, continuing, anchor, schema);
      assert [] + [b] == [b];
    }

    /** The tracker has followed the first `i` bytes, the open segment beginning at `segStart`. */
    ghost predicate WalkedTo(s: Scope, c: Config, bytes: seq<byte>, i: nat, segStart: nat, l: Lexing, continuing: bool,
                             schema: Schema)
      reads this
    {
      && segStart <= i <= |bytes|
      && LexedUpTo(Resumed(s.pending, c), bytes, i, l)
      && Tracks(s, c, l, bytes[segStart..i], continuing, schema)
      && (continuing ==> LexemeKind(l.config.state).Some?)
    }

    /** Follow one more byte. */
    method WalkByte(ghost s: Scope, bytes: seq<byte>, ghost c: Config, i: nat, segStart: nat, ghost l: Lexing,
                    here: Config, continuing: bool, anchor: State, schema: Schema)
      returns (ghost next: Lexing, there: Config, start: nat, goesOn: bool, newAnchor: State)
      requires Run(c, bytes).Some? && i < |bytes| && l.config == here && l.anchor == anchor
      requires WalkedTo(s, c, bytes, i, segStart, l, continuing, schema)
      modifies this
      ensures WalkedTo(s, c, bytes, i + 1, start, next, goesOn, schema)
      ensures next.config == there && next.anchor == newAnchor
    {
      next := NextByte(Resumed(s.pending, c), bytes, i, l);
      var reopened;
      there, goesOn, newAnchor, reopened :=
        Feed(s, c, l, next, bytes[i], here, bytes[segStart..i], continuing, anchor, schema);
      SegmentGrows(bytes, segStart, i, reopened);
      start := if reopened then i else segStart;
    }

    /** Walk the token's bytes, closing every lexeme and gap that ends inside it. */
    method Walk(ghost s: Scope, bytes: seq<byte>, c: Config, first: bool, firstAnchor: State, schema: Schema)
      returns (state: State, segStart: nat, anchor: State, continuing: bool)
      requires Run(c, bytes).Some? && Tracks(s, c, Resumed(s.pending, c), [], first, schema)
      requires firstAnchor == Resumed(s.pending, c).anchor
      modifies this
      ensures var l := Lexed(s, c, bytes);
              && segStart <= |bytes| && l.config.state == state && l.anchor == anchor
              && Tracks(s, c, l, bytes[segStart..], continuing, schema)
              && (continuing ==> LexemeKind(state).Some?)
    {
      var here := c;
      continuing, anchor, segStart := first, firstAnchor, 0;
      ghost var l := Resumed(s.pending, c);
      LexedNone(l, bytes);
      var i := 0;
      while i < |bytes|
        invariant i <= |bytes| && WalkedTo(s, c, bytes, i, segStart, l, continuing, schema)
        invariant l.config == here && l.anchor == anchor
      {
        l, here, segStart, continuing, anchor :=
          WalkByte(s, bytes, c, i, segStart, l, here, continuing, anchor, schema);
        i := i + 1;
      }
      LexedWhole(Resumed(s.pending, c), bytes, i, l);
      SliceWhole(bytes, segStart);
      state := here.state;
    }

    method NavOfVar(v: Name) returns (target: Option<L2Position>)
      ensures target == NavFromVar(View(), v)
    {
      target := NavFromVar(View(), v);
    }

    method NavOfMember(member: Name, schema: Schema) returns (target: Option<L2Position>)
      ensures target == NavFromMember(View(), member, schema)
    {
      if dotBase.None? { return None; }
      var found := ResolveMember(schema, dotBase.value, member);
      match found {
        case Some(Resolved(Class(path), _)) =>
          target := Some(Member(path));
        case _ =>
          target := None;
      }
    }

    /** The target a fused `.name` token would navigate to. */
    method FusedNav(schema: Schema) returns (target: Option<L2Position>)
      ensures target == FusedNavPosition(View(), schema)
    {
      if pending.Some? {
        var p := pending.value;
        if p.kind != Ident || !IsUtf8(p.buf) { return None; }
        match p.anchor {
          case AfterDollar =>
            target := NavOfVar(p.buf);
          case AfterDot =>
            target := NavOfMember(p.buf, schema);
          case _ =>
            target := None;
        }
      } else if pendingRefvar.Some? {
        target := NavOfVar(pendingRefvar.value);
      } else {
        target := if navCursor.Some? then Some(Member(navCursor.value)) else None;
      }
    }

    /** Advance the scope by one committed token, given the automaton's configuration before it. */
    method Observe(bytes: seq<byte>, c: Config, schema: Schema)
      requires Run(c, bytes).Some?
      modifies this
      ensures View() == Observed(old(View()), c, bytes, schema)
    {
      ghost var s := View();
      var first, firstAnchor := Begin(c, schema);
      var state, segStart, anchor, continuing := Walk(s, bytes, c, first, firstAnchor, schema);
      Finish(s, c, Lexed(s, c, bytes), state, bytes[segStart..], anchor, continuing, schema);
      ObservedIsDetermined(s, c, bytes, schema, View());
    }
  }

  lemma SegmentGrows(bytes: seq<byte>, from: nat, i: nat, reopened: bool)
    requires from <= i < |bytes|
    ensures var start := if reopened then i else from;
            bytes[start..i + 1] == if reopened then [bytes[i]] else bytes[from..i] + [bytes[i]]
  {
  }

  lemma SliceWhole(bytes: seq<byte>, from: nat)
    requires from <= |bytes|
    ensures bytes[..|bytes|] == bytes && bytes[from..|bytes|] == bytes[from..]
  {
  }

  lemma ObservedIsDetermined(s: Scope, c: Config, bytes: seq<byte>, schema: Schema, t: Scope)
    requires Run(c, bytes).Some?
    requires t.(pending := None) == DispatchAll(s.(pending := None), Flushed(Lexed(s, c, bytes)), schema)
    requires t.pending == PendingAfter(t.(pending := s.pending), Lexed(s, c, bytes), Continues(s.pending, c))
    ensures t == Observed(s, c, bytes, schema)
  {
    ObservedFields(s, c, bytes, schema);
    var u := Observed(s, c, bytes, schema);
    assert t.(pending := s.pending) == u.(pending := s.pending);
  }

  /** `l` is the lexing of the first `i` bytes from `start`. */
  ghost predicate LexedUpTo(start: Lexing, bytes: seq<byte>, i: nat, l: Lexing) {
    i <= |bytes| && Run(start.config, bytes[..i]).Some? && l == FedAll(start, bytes[..i])
  }

  lemma LexedNone(start: Lexing, bytes: seq<byte>)
    ensures LexedUpTo(start, bytes, 0, start) && bytes[0..0] == []
  {
    assert bytes[..0] == [];
  }

  lemma LexedWhole(start: Lexing, bytes: seq<byte>, i: nat, l: Lexing)
    requires LexedUpTo(start, bytes, i, l) && i == |bytes|
    ensures Run(start.config, bytes).Some? && l == FedAll(start, bytes)
  {
    assert bytes[..i] == bytes;
  }

  lemma NextByte(start: Lexing, bytes: seq<byte>, i: nat, l: Lexing) returns (next: Lexing)
    requires i < |bytes| && Run(start.config, bytes).Some? && LexedUpTo(start, bytes, i, l)
    ensures Advanced(l.config, bytes[i]).Some? && next == Fed(l, bytes[i])
    ensures LexedUpTo(start, bytes, i + 1, next)
  {
    FedAllReaches(start, bytes[..i]);
    PdaDriver.RunPrefix(start.config, bytes, i);
    next := Fed(l, bytes[i]);
    assert bytes[..i + 1] == bytes[..i] + [bytes[i]];
    FedAllConcat(start, bytes[..i], [bytes[i]]);
    assert [bytes[i]][1..] == [];
  }
}
