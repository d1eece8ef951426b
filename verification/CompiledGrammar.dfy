/** A vocabulary and its lazy per-state token partition. */
module Compiled {
  import opened Bytes
  import opened Automaton
  import opened Runs
  import BitMasks
  import opened PdaDriver

  /** Token id to raw bytes; the host's own end-of-stream id is carried but never consulted. */
  datatype Vocab = Vocab(tokens: seq<seq<byte>>, eos: nat) {
    function Len(): nat {
      |tokens|
    }

    function Lookup(id: nat): Option<seq<byte>> {
      if id < |tokens| then Some(tokens[id]) else None
    }

    /** The reserved end-of-stream bit: one past the last token. */
    function EosBit(): nat {
      |tokens|
    }

    function MaskLen(): nat {
      EosBit() + 1
    }
  }

  /** Ids are 32-bit; a table of this size is converted to them without truncation. */
  const ID_LIMIT: nat := 0x1_0000_0000

  datatype Cached = Cached(indep: BitMasks.MaskValue, deferred: seq<nat>)

  ghost function ProbeAt(s: State, token: seq<byte>): Probe {
    ProbeOf(Config(s, []), token)
  }

  /** `cached` splits the vocabulary at `s` by the replay over an empty stack. */
  ghost predicate IsPartition(cached: Cached, s: State, vocab: Vocab) {
    && cached.indep.len == vocab.MaskLen() && cached.indep.WellSized() && cached.indep.Clean()
    && (forall id: nat :: id in cached.indep.Ids() <==> id < vocab.Len() && ProbeAt(s, vocab.tokens[id]).alive)
    && (forall id: nat :: id in cached.deferred <==> id < vocab.Len() && ProbeAt(s, vocab.tokens[id]).consultedAmbient)
  }

  /** The tokens whose bytes survive from `c`. */
  ghost function Survivors(c: Config, vocab: Vocab): (ids: set<nat>)
    ensures forall id: nat :: id in ids <==> id < vocab.Len() && Run(c, vocab.tokens[id]).Some?
  {
    set id | 0 <= id < vocab.Len() && Run(c, vocab.tokens[id]).Some?
  }

  /** The syntactic mask: surviving tokens, and the end-of-stream bit when the stream is complete. */
  ghost function L1Mask(c: Config, vocab: Vocab): set<nat> {
    Survivors(c, vocab) + if Accepting(c) then {vocab.EosBit()} else {}
  }

  /** The deferred ids a live stack admits on re-probe; an empty stack admits none. */
  ghost function Reprobed(deferred: seq<nat>, c: Config, vocab: Vocab): set<nat> {
    if c.stack == [] then {}
    else set id | id in deferred && id < vocab.Len() && Run(c, vocab.tokens[id]).Some?
  }

  /** The cached survivors plus the re-probed deferred ids are exactly the brute-force survivors. */
  lemma CachedMaskIsBruteForce(cached: Cached, c: Config, vocab: Vocab)
    requires IsPartition(cached, c.state, vocab)
    ensures cached.indep.Ids() + Reprobed(cached.deferred, c, vocab) == Survivors(c, vocab)
  {
    forall id: nat
      ensures id in cached.indep.Ids() + Reprobed(cached.deferred, c, vocab) <==> id in Survivors(c, vocab)
    {
      if id < vocab.Len() {
        ProbeDecides(c.state, c.stack, vocab.tokens[id]);
        ProbeAliveIsRun(Config(c.state, []), vocab.tokens[id]);
      }
    }
  }

  predicate LowIndex(s: State) {
    Index(s) < 24
  }

  lemma LowIndexIsDense(s: State, t: State)
    requires LowIndex(s) && Index(s) == Index(t)
    ensures s == t
  {
  }

  lemma HighIndexIsDense(s: State, t: State)
    requires !LowIndex(s) && Index(s) == Index(t)
    ensures s == t
  {
  }

  /** Every index belongs to one state. */
  lemma IndexIsDense(s: State, t: State)
    ensures Index(s) < STATE_COUNT
    ensures Index(s) == Index(t) ==> s == t
  {
    if Index(s) == Index(t) {
      if LowIndex(s) { LowIndexIsDense(s, t); } else { HighIndexIsDense(s, t); }
    }
  }

  /** Whatever the cache holds for `s` is the partition of `s`. */
  ghost predicate EntryFits(cache: seq<Option<Cached>>, s: State, vocab: Vocab) {
    && Index(s) < |cache|
    && (cache[Index(s)].Some? ==> IsPartition(cache[Index(s)].value, s, vocab))
  }

  /** Build a state's partition by replaying every token over an empty stack. */
  method Build(s: State, vocab: Vocab) returns (cached: Cached)
    ensures IsPartition(cached, s, vocab)
  {
    var base := new Pda.At(s);
    var indep := new BitMasks.BitMask(vocab.MaskLen());
    var deferred: seq<nat> := [];
    var id := 0;
    while id < vocab.Len()
      invariant 0 <= id <= vocab.Len()
      invariant base.Config() == Config(s, [])
      invariant indep.Valid() && indep.len == vocab.MaskLen()
      invariant forall k: nat :: k in indep.Ids() <==> k < id && ProbeAt(s, vocab.tokens[k]).alive
      invariant forall k: nat :: k in deferred <==> k < id && ProbeAt(s, vocab.tokens[k]).consultedAmbient
    {
      var probe := base.ProbeBytes(vocab.tokens[id]);
      ProbeAliveIsRun(Config(s, []), vocab.tokens[id]);
      if probe.consultedAmbient {
        deferred := deferred + [id];
      } else if probe.alive {
        indep.Set(id);
      }
      id := id + 1;
    }
    cached := Cached(indep.Value(), deferred);
  }

  class CompiledGrammar {
    const vocab: Vocab
    var cache: seq<Option<Cached>>

    ghost predicate Valid()
      reads this
    {
      && vocab.MaskLen() <= ID_LIMIT
      && |cache| == STATE_COUNT
      && forall s: State :: EntryFits(cache, s, vocab)
    }

    constructor (vocab: Vocab)
      requires vocab.MaskLen() <= ID_LIMIT
      ensures Valid() && this.vocab == vocab
    {
      this.vocab := vocab;
      cache := seq(STATE_COUNT, i => None);
      new;
      forall s: State ensures EntryFits(cache, s, vocab) {
        IndexIsDense(s, s);
      }
    }

    /** The partition of `s`, built on the first visit and reused after it. */
    method CachedAt(s: State) returns (cached: Cached)
      requires Valid()
      modifies this
      ensures Valid() && IsPartition(cached, s, vocab)
      ensures Index(s) < STATE_COUNT && cache == old(cache)[Index(s) := Some(cached)]
      ensures old(cache)[Index(s)].Some? ==> cache == old(cache)
    {
      assert EntryFits(cache, s, vocab);
      if cache[Index(s)].Some? {
        return cache[Index(s)].value;
      }
      cached := Fill(s);
    }

    /** First visit: build the state's partition into its cell. */
    method Fill(s: State) returns (cached: Cached)
      requires Valid()
      modifies this
      ensures Valid() && IsPartition(cached, s, vocab)
      ensures Index(s) < STATE_COUNT && cache == old(cache)[Index(s) := Some(cached)]
    {
      cached := Build(s, vocab);
      cache := EntryAdded(cache, s, cached, vocab);
    }
  }

  function EntryAdded(cache: seq<Option<Cached>>, s: State, built: Cached, ghost vocab: Vocab): (r: seq<Option<Cached>>)
    requires |cache| == STATE_COUNT
    requires forall t: State :: EntryFits(cache, t, vocab)
    requires IsPartition(built, s, vocab)
    ensures Index(s) < STATE_COUNT && r == cache[Index(s) := Some(built)]
    ensures forall t: State :: EntryFits(r, t, vocab)
  {
    IndexIsDense(s, s);
    var r := cache[Index(s) := Some(built)];
    assert forall t: State :: EntryFits(r, t, vocab) by {
      forall t: State ensures EntryFits(r, t, vocab) {
        IndexIsDense(s, t);
        IndexIsDense(t, t);
        assert EntryFits(cache, t, vocab);
      }
    }
    r
  }
}
