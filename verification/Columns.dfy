/** The recorded columns: which lexemes append to them, and that nothing else touches them. */
module Columns {
  import opened Bytes
  import Automaton
  import Runs
  import opened Model
  import opened Lexemes
  import opened Scopes
  import Tokenization

  lemma RestoringKeepsEmitted(s: Scope)
    ensures BindersRestored(s).emitted == s.emitted && BodiesRestored(s).emitted == s.emitted
    decreases |s.binderSaves| + |s.scopeSaves|
  {
  }

  lemma CloseKeepsEmitted(s: Scope)
    ensures OnClose(s).emitted == s.emitted
  {
    RestoringKeepsEmitted(s);
    RestoringKeepsEmitted(BindersRestored(s));
  }

  lemma AnchoredKeepsEmitted(s: Scope, text: Name, pre: Automaton.State, schema: Schema)
    ensures Anchored(s, text, pre, schema).0.emitted == s.emitted
  {
  }

  lemma IdentEmits(s: Scope, text: Name, pre: Automaton.State, schema: Schema)
    ensures var t := OnIdent(s, text, pre, schema).0; t.emitted == s.emitted || t.emitted == s.emitted + [text]
  {
    AnchoredKeepsEmitted(Sourced(s, text, schema), text, pre, schema);
  }

  /** What a lexeme may record: a string its content, an identifier its name. */
  function Recorded(e: Event): Option<seq<byte>> {
    match Classify(e.bytes)
    case StringLit(content) => Some(content)
    case Identifier(text) => Some(text)
    case _ => None
  }

  /** A lexeme appends what it records or nothing; a string always appends its content. */
  lemma DispatchEmits(s: Scope, e: Event, schema: Schema)
    ensures var t := Dispatch(s, e.bytes, e.anchor, schema);
            && (t.emitted == s.emitted || (Recorded(e).Some? && t.emitted == s.emitted + [Recorded(e).value]))
            && (Classify(e.bytes).StringLit? ==> t.emitted == s.emitted + [Recorded(e).value])
  {
    match Classify(e.bytes)
    case Identifier(text) => IdentEmits(s, text, e.anchor, schema);
    case CloseDelim => CloseKeepsEmitted(s);
    case _ =>
  }

  lemma {:induction false} DispatchAllGrowsEmitted(s: Scope, events: seq<Event>, schema: Schema)
    ensures s.emitted <= DispatchAll(s, events, schema).emitted
    decreases |events|
  {
    if events != [] {
      DispatchEmits(s, events[0], schema);
      DispatchAllGrowsEmitted(Dispatch(s, events[0].bytes, events[0].anchor, schema), events[1..], schema);
    }
  }

  /** Columns are only ever appended. */
  lemma ObservedGrowsEmitted(s: Scope, c: Runs.Config, bytes: seq<byte>, schema: Schema)
    requires Runs.Run(c, bytes).Some?
    ensures s.emitted <= Observed(s, c, bytes, schema).emitted
  {
    Tokenization.ObservedFields(s, c, bytes, schema);
    DispatchAllGrowsEmitted(s.(pending := None), Flushed(Lexed(s, c, bytes)), schema);
  }
}
