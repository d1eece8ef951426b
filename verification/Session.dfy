/** The decode session: automaton, mask, and schema overlay driven token by token. */
module Sessions {
  import opened Bytes
  import Automaton
  import opened Runs
  import opened BitMasks
  import opened PdaDriver
  import opened Compiled
  import Decoding
  import opened Model
  import opened Scopes
  import opened Lockstep
  import Columns
  import Tracker
  import opened Narrowing

  // ----- the mask of a session -----

  ghost function MeetWith(mask: set<nat>, kept: Option<set<nat>>): set<nat> {
    match kept case Some(k) => mask * k case None => mask
  }

  /** The schema mask, computed afresh: the syntactic mask met with the legal set of the position, and with
      the fused set when a dot would navigate. */
  ghost function L2Mask(c: Config, s: Scope, schema: Schema, vocab: Vocab): set<nat> {
    var narrowed := MeetWith(L1Mask(c, vocab), NarrowSet(Position(s, c.state), NarrowPrefix(s), s.emitted, schema,
            vocab));
    match FusedNavPosition(s, schema)
    case Some(pos) => MeetWith(narrowed, FusedSet(pos, s.emitted, schema, vocab))
    case None => narrowed
  }

  /** The overlay only narrows, and leaves the end-of-stream bit to the automaton. */
  lemma OverlayOnlyNarrows(c: Config, s: Scope, schema: Schema, vocab: Vocab)
    ensures L2Mask(c, s, schema, vocab) <= L1Mask(c, vocab)
    ensures vocab.EosBit() in L2Mask(c, s, schema, vocab) <==> Accepting(c)
  {
    LegalSetsKeepEos(Position(s, c.state), NarrowPrefix(s), s.emitted, schema, vocab);
    if FusedNavPosition(s, schema).Some? {
      LegalSetsKeepEos(FusedNavPosition(s, schema).value, [], s.emitted, schema, vocab);
    }
  }

  /** Over a token run in lockstep, the fused pass clears a token only when its dot is a real navigation. */
  lemma FusedPassClearsNavigationsOnly(c: Config, s: Scope, schema: Schema, vocab: Vocab, id: nat)
    requires Locked(s, c) && id in L1Mask(c, vocab) && id < vocab.Len()
    requires FusedNavPosition(s, schema).Some?
    requires var kept := FusedSet(FusedNavPosition(s, schema).value, s.emitted, schema, vocab);
             kept.Some? && id !in kept.value
    ensures vocab.tokens[id] != [] && vocab.tokens[id][0] == DOT
    ensures Advanced(c, DOT) == Some(Config(Automaton.AfterDot, c.stack))
  {
    FusedTargetNavigates(s, c, schema, vocab.tokens[id]);
  }

  datatype TokenResult = Admitted | UnexpectedEos | UnknownToken | InadmissibleToken

  class DecoderSession {
    const grammar: CompiledGrammar
    const schema: Option<Schema>
    const mask: BitMask
    const narrowBuf: BitMask
    const cache: NarrowCache
    var pda: Pda
    var offset: nat
    var tracker: Tracker.ScopeTracker
    /** The bytes consumed since the last reset. */
    ghost var consumed: seq<byte>
    /** Whether the stream was driven by tokens alone under a schema, so that the tracker saw all of it. */
    ghost var tracked: bool

    ghost function Owned(): set<object>
      reads this
    {
      {this, pda, mask, narrowBuf, cache, tracker}
    }

    /** The two masks are separate and span the vocabulary. */
    ghost predicate Sized()
      reads mask, narrowBuf, grammar
    {
      && grammar.Valid()
      && mask != narrowBuf
      && mask.Valid() && mask.len == grammar.vocab.MaskLen()
      && narrowBuf.Valid() && narrowBuf.len == grammar.vocab.MaskLen()
    }

    ghost predicate Valid()
      reads this, pda, mask, narrowBuf, cache, tracker, grammar
    {
      && Sized()
      && Run(INITIAL, consumed) == Some(pda.Config())
      && offset == |consumed|
      && (schema.Some? ==> Guided(schema.value))
    }

    /** The memo belongs to the columns seen so far, and a tracker that saw the whole stream is in step with it. */
    ghost predicate Guided(model: Schema)
      reads `tracker, `pda, `tracked, tracker, pda, cache, grammar
    {
      && cache.Valid(tracker.View().emitted, model, grammar.vocab)
      && (tracked ==> Locked(tracker.View(), pda.Config()))
    }

    /** The mask the session must report. */
    ghost function Mask(): set<nat>
      reads this, pda, tracker
    {
      match schema
      case None => L1Mask(pda.Config(), grammar.vocab)
      case Some(model) => L2Mask(pda.Config(), tracker.View(), model, grammar.vocab)
    }

    constructor (grammar: CompiledGrammar, schema: Option<Schema>)
      requires grammar.Valid()
      ensures Valid() && fresh(Owned())
      ensures this.grammar == grammar && this.schema == schema
      ensures consumed == [] && pda.Config() == INITIAL && tracker.View() == FRESH && tracked
    {
      this.grammar := grammar;
      this.schema := schema;
      mask := new BitMask(grammar.vocab.MaskLen());
      narrowBuf := new BitMask(grammar.vocab.MaskLen());
      cache := new NarrowCache();
      pda := new Pda();
      offset := 0;
      tracker := new Tracker.ScopeTracker();
      consumed := [];
      tracked := true;
      new;
      FreshIsLocked();
      assert Sized();
    }

    /** Before the first token the tracker is in step with the automaton. */
    lemma FreshIsLocked()
      ensures Locked(FRESH, INITIAL)
    {
    }

    /** Re-probe the deferred ids against the live stack. */
    method Reprobe(deferred: seq<nat>)
      requires mask.Valid() && mask.len == grammar.vocab.MaskLen() && pda.stack != []
      requires forall id :: id in deferred ==> id < grammar.vocab.Len()
      modifies mask
      ensures mask.Valid() && mask.Ids() == old(mask.Ids()) + Reprobed(deferred, pda.Config(), grammar.vocab)
    {
      var i := 0;
      while i < |deferred|
        invariant 0 <= i <= |deferred|
        invariant mask.Valid() && mask.Ids() == old(mask.Ids()) + Reprobed(deferred[..i], pda.Config(), grammar.vocab)
      {
        var id := deferred[i];
        assert id in deferred;
        var bytes := grammar.vocab.Lookup(id);
        var admitted := pda.Admits(if bytes.Some? then bytes.value else []);
        if admitted {
          mask.Set(id);
        }
        ReprobedNext(deferred, i, pda.Config(), grammar.vocab);
        i := i + 1;
      }
      assert deferred[..i] == deferred;
    }

    /** The syntactic part: the cached survivors, the re-probed deferred ids, and the end-of-stream bit. */
    method FillL1Mask()
      requires Valid()
      modifies mask, grammar
      ensures Valid() && mask.Ids() == L1Mask(pda.Config(), grammar.vocab)
    {
      var cached := grammar.CachedAt(pda.state);
      CopiedIds(mask.Value(), cached.indep);
      mask.CopyFrom(cached.indep);
      CachedMaskIsBruteForce(cached, pda.Config(), grammar.vocab);
      if pda.stack != [] {
        Reprobe(cached.deferred);
      }
      MarkEos();
    }

    /** The end-of-stream bit is completeness. */
    method MarkEos()
      requires mask.Valid() && mask.len == grammar.vocab.MaskLen()
      modifies mask
      ensures mask.Valid()
      ensures mask.Ids() == if Accepting(pda.Config()) then old(mask.Ids()) + {grammar.vocab.EosBit()}
                            else old(mask.Ids()) - {grammar.vocab.EosBit()}
    {
      var complete := pda.IsAccepting();
      if complete {
        mask.Set(grammar.vocab.EosBit());
      } else {
        mask.Clear(grammar.vocab.EosBit());
      }
    }

    lemma ReprobedNext(deferred: seq<nat>, i: nat, c: Config, vocab: Vocab)
      requires i < |deferred| && c.stack != [] && deferred[i] < vocab.Len()
      ensures Reprobed(deferred[..i + 1], c, vocab)
           == Reprobed(deferred[..i], c, vocab) + if Run(c, vocab.tokens[deferred[i]]).Some? then {deferred[i]} else {}
    {
      assert deferred[..i + 1] == deferred[..i] + [deferred[i]];
    }

    /** The legal next-token set. */
    method AllowedMask()
      requires Valid()
      modifies mask, narrowBuf, cache, grammar
      ensures Valid()
      ensures mask.Ids() == old(Mask())
    {
      FillL1Mask();
      if schema.Some? {
        var model, vocab := schema.value, grammar.vocab;
        ghost var c, s := pda.Config(), tracker.View();
        var pos := Position(tracker.View(), pda.state);
        var applied := NarrowInto(narrowBuf, cache, model, pos, NarrowPrefix(tracker.View()), tracker.emitted, vocab);
        if applied {
          MetIds(mask.Value(), narrowBuf.Value());
          mask.Intersect(narrowBuf.Value());
        }
        var fused := tracker.FusedNav(model);
        if fused.Some? {
          applied := NarrowFusedInto(narrowBuf, cache, model, fused.value, tracker.emitted, vocab);
          if applied {
            MetIds(mask.Value(), narrowBuf.Value());
            mask.Intersect(narrowBuf.Value());
          }
        }
      }
    }

    /** What the reported mask means in any session state: without a schema a bit is set exactly when the
        token extends the consumed text to a completable one; a schema only clears bits; the end-of-stream
        bit is completeness either way. */
    lemma MaskMeaning(id: nat)
      requires Valid() && id < grammar.vocab.Len()
      ensures id in Mask() ==> exists w :: Accepted(consumed + grammar.vocab.tokens[id] + w)
      ensures schema.None? ==> (id in Mask() <==> exists w :: Accepted(consumed + grammar.vocab.tokens[id] + w))
      ensures grammar.vocab.EosBit() in Mask() <==> Accepted(consumed)
    {
      Decoding.MaskBitIffCompletable(consumed, pda.Config(), grammar.vocab, id);
      if schema.Some? {
        OverlayOnlyNarrows(pda.Config(), tracker.View(), schema.value, grammar.vocab);
      }
    }

    /** Advance by one whole token, or reject it leaving the session untouched. Only the syntax is checked. */
    method AcceptToken(id: nat) returns (result: TokenResult)
      requires Valid()
      modifies this, tracker
      ensures Valid() && tracker == old(tracker)
      ensures result == Admitted <==> id in L1Mask(old(pda.Config()), grammar.vocab)
      ensures result == UnexpectedEos <==> id == grammar.vocab.EosBit() && !Accepting(old(pda.Config()))
      ensures result == UnknownToken <==> id > grammar.vocab.EosBit()
      ensures result == Admitted && id < grammar.vocab.Len() ==>
                && fresh(pda)
                && consumed == old(consumed) + grammar.vocab.tokens[id]
                && Run(old(pda.Config()), grammar.vocab.tokens[id]) == Some(pda.Config())
                && tracked == (old(tracked) && schema.Some?)
                && tracker.View() == if schema.None? then old(tracker.View())
                     else Observed(old(tracker.View()), old(pda.Config()), grammar.vocab.tokens[id], schema.value)
      ensures !(result == Admitted && id < grammar.vocab.Len()) ==>
                && pda == old(pda) && offset == old(offset) && consumed == old(consumed) && tracked == old(tracked)
                && tracker.View() == old(tracker.View())
    {
      if id == grammar.vocab.EosBit() {
        var complete := pda.IsAccepting();
        return if complete then Admitted else UnexpectedEos;
      }
      var found := grammar.vocab.Lookup(id);
      if found.None? { return UnknownToken; }
      var probe := Probed(found.value);
      if probe == null { return InadmissibleToken; }
      Commit(probe, found.value);
      return Admitted;
    }

    /** Move the tracker over the token from the configuration before it. */
    method Track(bytes: seq<byte>, model: Schema)
      requires Run(pda.Config(), bytes).Some? && cache.Valid(tracker.View().emitted, model, grammar.vocab)
      modifies tracker
      ensures tracker.View() == Observed(old(tracker.View()), pda.Config(), bytes, model)
      ensures cache.Valid(tracker.View().emitted, model, grammar.vocab)
      ensures old(Locked(tracker.View(), pda.Config())) ==> Locked(tracker.View(), Run(pda.Config(), bytes).value)
    {
      ghost var s, c := tracker.View(), pda.Config();
      Columns.ObservedGrowsEmitted(s, c, bytes, model);
      cache.SurvivesAppend(s.emitted, Observed(s, c, bytes, model).emitted, model, grammar.vocab);
      if Locked(s, c) { ObservedKeepsLocked(s, c, bytes, model); }
      tracker.Observe(bytes, pda.Config(), model);
    }

    /** Commit an admitted token. */
    method Commit(probe: Pda, bytes: seq<byte>)
      requires Valid() && Run(pda.Config(), bytes) == Some(probe.Config())
      modifies this, tracker
      ensures Valid() && pda == probe && tracker == old(tracker)
      ensures consumed == old(consumed) + bytes && tracked == (old(tracked) && schema.Some?)
      ensures tracker.View() == if schema.None? then old(tracker.View())
                else Observed(old(tracker.View()), old(pda.Config()), bytes, schema.value)
    {
      RunConcat(INITIAL, consumed, bytes);
      if schema.Some? {
        Track(bytes, schema.value);
      }
      Adopt(probe, bytes);
    }

    /** Go on from the probe, behind the token. */
    method Adopt(probe: Pda, bytes: seq<byte>)
      requires Sized() && offset == |consumed| && Run(INITIAL, consumed + bytes) == Some(probe.Config())
      requires schema.Some? ==>
                 && cache.Valid(tracker.View().emitted, schema.value, grammar.vocab)
                 && (tracked ==> Locked(tracker.View(), probe.Config()))
      modifies `pda, `offset, `consumed, `tracked
      ensures Valid() && pda == probe
      ensures consumed == old(consumed) + bytes && tracked == (old(tracked) && schema.Some?)
    {
      tracked := tracked && schema.Some?;
      consumed := consumed + bytes;
      pda := probe;
      offset := offset + |bytes|;
    }

    /** Fold a token through a clone of the automaton; `null` when a byte dies. */
    method Probed(bytes: seq<byte>) returns (probe: Pda?)
      ensures probe == null <==> Run(pda.Config(), bytes).None?
      ensures probe != null ==> fresh(probe) && Run(pda.Config(), bytes) == Some(probe.Config())
    {
      var clone := new Pda.Clone(pda);
      var i := 0;
      while i < |bytes|
        invariant 0 <= i <= |bytes|
        invariant fresh(clone) && Run(pda.Config(), bytes[..i]) == Some(clone.Config())
      {
        RunPrefix(pda.Config(), bytes, i);
        var ok := clone.Advance(bytes[i]);
        if !ok { return null; }
        i := i + 1;
      }
      assert bytes[..i] == bytes;
      return clone;
    }

    /** Advance by one byte; the tracker does not see it. */
    method AcceptByte(b: byte) returns (ok: bool)
      requires Valid()
      modifies this, pda
      ensures Valid() && pda == old(pda) && tracker == old(tracker)
      ensures ok <==> Advanced(old(pda.Config()), b).Some?
      ensures consumed == if ok then old(consumed) + [b] else old(consumed)
      ensures !ok ==> pda.Config() == old(pda.Config()) && offset == old(offset)
    {
      ok := pda.Advance(b);
      if ok {
        RunSnoc(INITIAL, consumed, b);
        consumed := consumed + [b];
        offset := offset + 1;
        tracked := false;
      }
    }

    method IsComplete() returns (r: bool)
      requires Valid()
      ensures r <==> Accepted(consumed)
    {
      r := pda.IsAccepting();
    }

    /** Return to a fresh stream; the column memo goes with the stream it was keyed on. */
    method Reset()
      requires Valid()
      modifies this, pda, cache
      ensures Valid() && fresh(tracker) && pda == old(pda)
      ensures consumed == [] && pda.Config() == INITIAL && tracker.View() == FRESH && tracked
    {
      pda.Reset();
      offset := 0;
      tracker := new Tracker.ScopeTracker();
      cache.Clear();
      consumed := [];
      tracked := true;
      FreshIsLocked();
      assert Sized();
    }
  }
}
