/** Which columns a relation row offers behind its dot, in the mask, over every run. */
module RowColumns {
  import opened Bytes
  import opened Automaton
  import opened Runs
  import opened Model
  import opened Compiled
  import opened Lexemes
  import opened Scopes
  import opened Lockstep
  import opened WholeRuns
  import opened Navigation
  import opened Sessions
  import DotMasks
  import opened Positions
  import opened Lexical

  /** The variable just read is a relation row. */
  predicate AtRow(s: Scope) {
    && s.pending.Some? && s.pending.value.kind == Ident && s.pending.value.anchor == AfterDollar
    && s.pending.value.buf in s.relationRowVars
  }

  lemma RowIsTarget(s: Scope, c: Config, schema: Schema)
    requires DotMasks.OnTrack(s, c) && AtRow(s)
    ensures FusedNavPosition(s, schema) == Some(RelationColumn)
  {
    IdentIsIdentifier(s.pending.value.buf);
  }

  /** Behind a relation row and a dot, over every run from the start of a stream: a live token that could be part of a
      name is in the mask exactly when it begins or ends a column the run has recorded. */
  lemma RowsOfferTheColumns(tokens: seq<seq<byte>>, events: seq<Event>, schema: Schema, s: Scope, c: Config,
                            vocab: Vocab, id: nat)
    requires OfARun(events, tokens, schema) && LeadsTo(tokens, s, c, schema) && AtRow(s)
    requires Advanced(c, DOT) == Some(Config(AfterDot, c.stack))
    ensures Run(c, [DOT]) == Some(Config(AfterDot, c.stack))
    ensures var d, t := Config(AfterDot, c.stack), Observed(s, c, [DOT], schema);
            id < vocab.Len() && vocab.tokens[id] != [] && Run(d, vocab.tokens[id]).Some? ==>
              (id in L2Mask(d, t, schema, vocab)
               <==> (IsIdentTail(vocab.tokens[id][0]) ==>
                       SpellsOneOf((set x | x in ColumnsAt(events, |events|)), vocab.tokens[id])))
  {
    DotMasks.EveryRunIsOnTrack(tokens, schema);
    RowIsTarget(s, c, schema);
    DotLeads(s, c, schema);
    RunRecords(tokens, events, schema);
    var d, t := Config(AfterDot, c.stack), Observed(s, c, [DOT], schema);
    RowRule(t);
    if id < vocab.Len() && vocab.tokens[id] != [] && Run(d, vocab.tokens[id]).Some? {
      ObservedKeepsLocked(s, c, [DOT], schema);
      RowMask(d, t, schema, vocab, id);
    }
  }

  lemma RowRule(t: Scope)
    requires Position(t, AfterDot) == RelationColumn
    ensures t.dotIsColumn
  {
  }

  /** So a name that the run has recorded may be read there, from its first fragment on. */
  lemma RecordedNamesAreOffered(tokens: seq<seq<byte>>, events: seq<Event>, schema: Schema, s: Scope, c: Config,
                                vocab: Vocab, i: nat, id: nat)
    requires OfARun(events, tokens, schema) && LeadsTo(tokens, s, c, schema) && AtRow(s)
    requires Advanced(c, DOT) == Some(Config(AfterDot, c.stack))
    requires i < |events| && Classify(events[i].bytes).Identifier? && NamesColumn(events, i)
    requires id < vocab.Len() && vocab.tokens[id] != [] && vocab.tokens[id] <= Classify(events[i].bytes).text
    requires Run(Config(AfterDot, c.stack), vocab.tokens[id]).Some?
    ensures Run(c, [DOT]) == Some(Config(AfterDot, c.stack))
    ensures id in L2Mask(Config(AfterDot, c.stack), Observed(s, c, [DOT], schema), schema, vocab)
  {
    RowsOfferTheColumns(tokens, events, schema, s, c, vocab, id);
    ColumnStays(events, i, |events|);
    PrefixSpells(ColumnsAt(events, |events|), Classify(events[i].bytes).text, vocab.tokens[id]);
  }

  lemma PrefixSpells(columns: seq<seq<byte>>, name: Name, token: seq<byte>)
    requires name in columns && token <= name
    ensures SpellsOneOf((set x | x in columns), token)
  {
    var names := set x | x in columns;
    assert name in names && token <= name;
    assert SpellsOneOf(names, token);
  }

  lemma {:induction false} ColumnStays(events: seq<Event>, i: nat, j: nat)
    requires i < j <= |events| && Classify(events[i].bytes).Identifier? && NamesColumn(events, i)
    ensures Classify(events[i].bytes).text in ColumnsAt(events, j)
    decreases j
  {
    if i < j - 1 {
      ColumnStays(events, i, j - 1);
    } else {
      assert ColumnOf(events, i) == [Classify(events[i].bytes).text];
    }
  }
}
