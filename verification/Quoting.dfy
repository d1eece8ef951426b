/** Every string lexeme the tracker dispatches is the quoting of the content it records. */
module Quoting {
  import opened Bytes
  import opened Automaton
  import Transitions
  import opened Runs
  import Model
  import opened Lexemes
  import opened Scopes
  import Tokenization

  lemma {:induction false} StringRunSnoc(escaped: bool, body: seq<byte>, b: byte)
    ensures StringRun(escaped, body + [b])
         == match StringRun(escaped, body)
            case None => None
            case Some(e) => StringRun(e, [b])
    decreases |body|
  {
    if body == [] {
      assert body + [b] == [b];
    } else {
      assert (body + [b])[0] == body[0] && (body + [b])[1..] == body[1..] + [b];
      match StepOf(InStrLit(escaped), None, body[0])
      case Next(InStrLit(next)) => StringRunSnoc(next, body[1..], b);
      case _ =>
    }
  }

  /** A byte that keeps the automaton inside a string is read the same whatever lies on the stack. */
  lemma StringStep(escaped: bool, top: Option<Frame>, b: byte)
    requires StepOf(InStrLit(escaped), top, b) != Dead && StepOf(InStrLit(escaped), top, b).state.InStrLit?
    ensures StringRun(escaped, [b]) == Some(StepOf(InStrLit(escaped), top, b).state.escaped)
  {
    assert [b][1..] == [];
  }

  /** An open string segment starts with its quote and is read inside the string up to the current state;
      no other segment starts with a quote. */
  ghost predicate StringFits(state: State, seg: seq<byte>) {
    match LexemeKind(state)
    case Some(Str) => seg != [] && seg[0] == QUOTE && state.InStrLit? &&
        StringRun(false, seg[1..]) == Some(state.escaped)
    case Some(_) => seg != [] && seg[0] != QUOTE
    case None => QUOTE !in seg
  }

  predicate Faithful(e: Event) {
    Classify(e.bytes).StringLit? ==> e.bytes == Quote(Classify(e.bytes).content)
  }

  ghost predicate AllFaithful(events: seq<Event>) {
    forall i :: 0 <= i < |events| ==> Faithful(events[i])
  }

  lemma StringNeedsQuote(bytes: seq<byte>)
    requires Classify(bytes).StringLit?
    ensures bytes != [] && bytes[0] == QUOTE && Classify(bytes).content == Unquote(bytes)
  {
  }

  lemma {:induction false} GapIsFaithful(gap: seq<byte>, anchor: State)
    requires QUOTE !in gap
    ensures AllFaithful(GapEvents(gap, anchor))
    decreases |gap|
  {
    if gap != [] {
      var n := GapToken(gap);
      GapIsFaithful(gap[n..], anchor);
      if Classify(gap[..n]).StringLit? { StringNeedsQuote(gap[..n]); }
    }
  }

  lemma ClosedLexemeIsFaithful(state: State, top: Option<Frame>, b: byte, seg: seq<byte>, anchor: State)
    requires StringFits(state, seg) && LexemeKind(state).Some?
    requires StepOf(state, top, b) != Dead && LexemeKind(StepOf(state, top, b).state) != LexemeKind(state)
    ensures Faithful(Event(seg, anchor))
  {
    if Classify(seg).StringLit? {
      StringNeedsQuote(seg);
      ClosedStringIsQuoted(seg);
    }
  }

  lemma FedFits(l: Lexing, b: byte)
    requires StringFits(l.config.state, l.seg) && Advanced(l.config, b).Some?
    ensures StringFits(Fed(l, b).config.state, Fed(l, b).seg)
  {
    var s, top := l.config.state, Top(l.config.stack);
    var t := StepOf(s, top, b).state;
    if LexemeKind(s) == Some(Str) && LexemeKind(t) == Some(Str) {
      StringStep(s.escaped, top, b);
      StringRunSnoc(false, l.seg[1..], b);
      assert (l.seg + [b])[1..] == l.seg[1..] + [b];
    } else if LexemeKind(s) == Some(Str) {
      Transitions.StepMoves(s, top, b);
      Transitions.StepTurns(s, top, b);
    } else {
      Transitions.StepTurns(s, top, b);
      assert [b][1..] == [];
    }
  }

  lemma FedFaithful(l: Lexing, b: byte)
    requires StringFits(l.config.state, l.seg) && AllFaithful(l.events) && Advanced(l.config, b).Some?
    ensures AllFaithful(Fed(l, b).events)
  {
    var t := Advanced(l.config, b).value.state;
    if LexemeKind(l.config.state).Some? {
      if LexemeKind(t) != LexemeKind(l.config.state) {
        ClosedLexemeIsFaithful(l.config.state, Top(l.config.stack), b, l.seg, l.anchor);
      }
    } else if LexemeKind(t).Some? {
      GapIsFaithful(l.seg, l.anchor);
    }
  }

  lemma {:induction false} FedAllFaithful(l: Lexing, bytes: seq<byte>)
    requires StringFits(l.config.state, l.seg) && AllFaithful(l.events) && Run(l.config, bytes).Some?
    ensures var m := FedAll(l, bytes); StringFits(m.config.state, m.seg) && AllFaithful(m.events)
    decreases |bytes|
  {
    if bytes != [] {
      FedFits(l, bytes[0]);
      FedFaithful(l, bytes[0]);
      FedAllFaithful(Fed(l, bytes[0]), bytes[1..]);
    }
  }

  /** The pending buffer fits the string the automaton is inside. */
  ghost predicate PendingFits(s: Scope, c: Config) {
    Tokenization.InStep(s, c) && (s.pending.Some? ==> StringFits(c.state, s.pending.value.buf))
  }

  /** Over any run, every string a token dispatches is recorded as content whose quoting is exactly the
      bytes that were read, so recorded columns and the column names narrowed against never disagree. */
  lemma RecordedStringsAreFaithful(s: Scope, c: Config, bytes: seq<byte>, schema: Model.Schema)
    requires PendingFits(s, c) && Run(c, bytes).Some?
    ensures AllFaithful(Flushed(Lexed(s, c, bytes)))
    ensures PendingFits(Observed(s, c, bytes, schema), Run(c, bytes).value)
  {
    var l := Lexed(s, c, bytes);
    FedAllFaithful(Resumed(s.pending, c), bytes);
    if LexemeKind(l.config.state).None? { GapIsFaithful(l.seg, l.anchor); }
    Tokenization.ObservedFields(s, c, bytes, schema);
    Tokenization.ObservedInStep(s, c, bytes, schema);
  }
}
