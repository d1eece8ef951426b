/** The tokenizer self-check: greedy segmentation of sample queries, driven through the mask. */
module SelfCheck {
  import opened Bytes
  import opened Runs
  import Completion
  import opened Compiled
  import opened Decoding
  import Sessions

  datatype Failure =
    | Unsegmentable(pos: nat)
    | DeadEnd(pos: nat, id: nat)
    | Incomplete(consumed: nat)

  datatype CheckError = CheckError(queryIndex: nat, failure: Failure)

  // ----- greedy segmentation -----

  /** `id` is a non-empty token that starts `rest`. */
  ghost predicate Covers(vocab: Vocab, rest: seq<byte>, id: nat) {
    id < vocab.Len() && vocab.tokens[id] != [] && vocab.tokens[id] <= rest
  }

  /** The covering token of greatest length, the lowest id among equals; no token when none covers. */
  ghost predicate IsLongest(vocab: Vocab, rest: seq<byte>, best: Option<nat>) {
    match best
    case None => forall k: nat :: !Covers(vocab, rest, k)
    case Some(id) =>
      && Covers(vocab, rest, id)
      && forall k: nat :: Covers(vocab, rest, k) && k != id ==>
           |vocab.tokens[k]| < |vocab.tokens[id]| || (vocab.tokens[k] == vocab.tokens[id] && id < k)
  }

  lemma LongestIsUnique(vocab: Vocab, rest: seq<byte>, a: Option<nat>, b: Option<nat>)
    requires IsLongest(vocab, rest, a) && IsLongest(vocab, rest, b)
    ensures a == b
  {
  }

  /** `ids` is the run of longest matches from the front of `rest`. */
  ghost predicate Greedy(vocab: Vocab, rest: seq<byte>, ids: seq<nat>)
    decreases |ids|
  {
    ids == [] || (IsLongest(vocab, rest, Some(ids[0])) && Greedy(vocab, rest[|vocab.tokens[ids[0]]|..], ids[1..]))
  }

  lemma {:induction false} GreedySpellsAPrefix(vocab: Vocab, rest: seq<byte>, ids: seq<nat>)
    requires Greedy(vocab, rest, ids)
    ensures InVocab(vocab, ids) && Spell(vocab, ids) <= rest
    decreases |ids|
  {
    if ids != [] {
      var token := vocab.tokens[ids[0]];
      GreedySpellsAPrefix(vocab, rest[|token|..], ids[1..]);
      assert forall i :: 0 < i < |ids| ==> ids[i] == ids[1..][i - 1];
    }
  }

  /** The greedy run that spells the first `pos` bytes of `query`. */
  ghost predicate GreedyTo(vocab: Vocab, query: seq<byte>, ids: seq<nat>, pos: nat) {
    && Greedy(vocab, query, ids) && InVocab(vocab, ids)
    && pos <= |query| && Spell(vocab, ids) == query[..pos]
  }

  /** Greedy segmentation reaches `pos`. */
  ghost predicate Reaches(vocab: Vocab, query: seq<byte>, pos: nat) {
    exists ids :: GreedyTo(vocab, query, ids, pos)
  }

  ghost predicate Segmentable(vocab: Vocab, query: seq<byte>) {
    Reaches(vocab, query, |query|)
  }

  lemma {:induction false} SpellSnoc(vocab: Vocab, ids: seq<nat>, id: nat)
    requires InVocab(vocab, ids) && id < vocab.Len()
    ensures InVocab(vocab, ids + [id])
    ensures Spell(vocab, ids + [id]) == Spell(vocab, ids) + vocab.tokens[id]
    decreases |ids|
  {
    var more := ids + [id];
    if ids == [] {
      assert more == [id] && more[1..] == [];
      assert Spell(vocab, more) == vocab.tokens[id] + Spell(vocab, []);
    } else {
      assert more[0] == ids[0] && more[1..] == ids[1..] + [id];
      SpellSnoc(vocab, ids[1..], id);
      Reassociated(vocab.tokens[ids[0]], Spell(vocab, ids[1..]), vocab.tokens[id]);
    }
  }

  lemma DroppedTwice(rest: seq<byte>, x: seq<byte>, y: seq<byte>)
    requires x + y <= rest
    ensures x <= rest && y <= rest[|x|..] && rest[|x|..][|y|..] == rest[|x + y|..]
  {
  }

  lemma {:induction false} GreedySnoc(vocab: Vocab, rest: seq<byte>, ids: seq<nat>, id: nat)
    requires Greedy(vocab, rest, ids) && InVocab(vocab, ids) && Spell(vocab, ids) <= rest
    requires IsLongest(vocab, rest[|Spell(vocab, ids)|..], Some(id))
    ensures Greedy(vocab, rest, ids + [id])
    decreases |ids|
  {
    var more := ids + [id];
    if ids == [] {
      assert rest[0..] == rest && more == [id] && more[1..] == [];
    } else {
      var token := vocab.tokens[ids[0]];
      DroppedTwice(rest, token, Spell(vocab, ids[1..]));
      assert more[0] == ids[0] && more[1..] == ids[1..] + [id];
      GreedySnoc(vocab, rest[|token|..], ids[1..], id);
    }
  }

  lemma ReachesNext(vocab: Vocab, query: seq<byte>, pos: nat, id: nat)
    requires Reaches(vocab, query, pos) && pos <= |query| && IsLongest(vocab, query[pos..], Some(id))
    ensures pos + |vocab.tokens[id]| <= |query|
    ensures query[..pos + |vocab.tokens[id]|] == query[..pos] + vocab.tokens[id]
    ensures Reaches(vocab, query, pos + |vocab.tokens[id]|)
  {
    var next := pos + |vocab.tokens[id]|;
    assert query[..next] == query[..pos] + vocab.tokens[id] by {
      assert query[pos..next] == vocab.tokens[id];
    }
    var ids :| GreedyTo(vocab, query, ids, pos);
    GreedySnoc(vocab, query, ids, id);
    SpellSnoc(vocab, ids, id);
    assert GreedyTo(vocab, query, ids + [id], next);
  }

  /** Two greedy runs of one query agree: one continues the other. */
  lemma {:induction false} GreedyRunsNest(vocab: Vocab, rest: seq<byte>, a: seq<nat>, b: seq<nat>)
    requires Greedy(vocab, rest, a) && Greedy(vocab, rest, b) && |a| <= |b|
    ensures a <= b
    decreases |a|
  {
    if a != [] {
      LongestIsUnique(vocab, rest, Some(a[0]), Some(b[0]));
      GreedyRunsNest(vocab, rest[|vocab.tokens[a[0]]|..], a[1..], b[1..]);
      assert a == [a[0]] + a[1..];
    }
  }

  lemma {:induction false} SpellGrows(vocab: Vocab, rest: seq<byte>, a: seq<nat>, b: seq<nat>)
    requires Greedy(vocab, rest, b) && InVocab(vocab, b) && a <= b && |a| < |b|
    ensures InVocab(vocab, a) && |Spell(vocab, a)| <= |rest|
    ensures IsLongest(vocab, rest[|Spell(vocab, a)|..], Some(b[|a|]))
    ensures |Spell(vocab, a)| + |vocab.tokens[b[|a|]]| <= |Spell(vocab, b)|
    decreases |a|
  {
    GreedySpellsAPrefix(vocab, rest, b);
    if a == [] {
      assert rest[0..] == rest;
    } else {
      var token := vocab.tokens[a[0]];
      var tail := Spell(vocab, b[1..]);
      SpellGrows(vocab, rest[|token|..], a[1..], b[1..]);
      assert rest[|token|..][|Spell(vocab, a[1..])|..] == rest[|Spell(vocab, a)|..];
    }
  }

  lemma SpellIsMonotone(vocab: Vocab, rest: seq<byte>, a: seq<nat>, b: seq<nat>)
    requires Greedy(vocab, rest, a) && Greedy(vocab, rest, b) && |a| <= |b|
    ensures InVocab(vocab, a) && InVocab(vocab, b) && |Spell(vocab, a)| <= |Spell(vocab, b)|
  {
    GreedyRunsNest(vocab, rest, a, b);
    GreedySpellsAPrefix(vocab, rest, b);
    if |a| < |b| {
      SpellGrows(vocab, rest, a, b);
    } else {
      assert a == b;
    }
  }

  /** Segmentation that passes `pos` takes the longest match there, and lands on or before any later stop. */
  lemma PassingTakesLongest(vocab: Vocab, query: seq<byte>, pos: nat, later: nat) returns (id: nat)
    requires Reaches(vocab, query, pos) && Reaches(vocab, query, later) && pos < later
    ensures pos <= |query| && IsLongest(vocab, query[pos..], Some(id))
    ensures pos + |vocab.tokens[id]| <= later
  {
    var a :| GreedyTo(vocab, query, a, pos);
    var b :| GreedyTo(vocab, query, b, later);
    if |b| <= |a| {
      SpellIsMonotone(vocab, query, b, a);
      assert false;
    }
    GreedyRunsNest(vocab, query, a, b);
    SpellGrows(vocab, query, a, b);
    id := b[|a|];
  }

  // ----- what a failure means -----

  ghost predicate Passes(vocab: Vocab, query: seq<byte>) {
    Segmentable(vocab, query) && Accepted(query)
  }

  /** The failure of `query`: where the greedy run of live tokens stops, and why. */
  ghost predicate FailsWith(vocab: Vocab, query: seq<byte>, failure: Failure) {
    match failure
    case Unsegmentable(pos) =>
      && pos < |query| && Reaches(vocab, query, pos) && Run(INITIAL, query[..pos]).Some?
      && IsLongest(vocab, query[pos..], None)
    case DeadEnd(pos, id) =>
      && pos < |query| && Reaches(vocab, query, pos) && Run(INITIAL, query[..pos]).Some?
      && IsLongest(vocab, query[pos..], Some(id))
      && Run(INITIAL, query[..pos] + vocab.tokens[id]).None?
    case Incomplete(consumed) =>
      && consumed == |query| && Segmentable(vocab, query)
      && Run(INITIAL, query).Some? && !Accepted(query)
  }

  /** How a query comes out of the check. */
  ghost predicate EndsWith(vocab: Vocab, query: seq<byte>, failure: Option<Failure>) {
    match failure
    case None => Passes(vocab, query)
    case Some(f) => FailsWith(vocab, query, f)
  }

  lemma LivePrefix(query: seq<byte>, pos: nat)
    requires pos <= |query| && Run(INITIAL, query).Some?
    ensures Run(INITIAL, query[..pos]).Some?
  {
    assert query == query[..pos] + query[pos..];
    RunConcat(INITIAL, query[..pos], query[pos..]);
  }

  /** A dead end is final: nothing that starts with the reported prefix and token is accepted. */
  lemma DeadEndIsFinal(vocab: Vocab, query: seq<byte>, pos: nat, id: nat)
    requires FailsWith(vocab, query, DeadEnd(pos, id))
    ensures id < vocab.Len() && query[..pos] + vocab.tokens[id] <= query
    ensures forall w :: !Accepted(query[..pos] + vocab.tokens[id] + w)
  {
    Completion.LiveIffCompletable(query[..pos] + vocab.tokens[id]);
    assert query == query[..pos] + query[pos..];
  }

  /** An incomplete query is a live prefix of some accepted one, and not accepted itself. */
  lemma IncompleteIsLive(vocab: Vocab, query: seq<byte>, consumed: nat)
    requires FailsWith(vocab, query, Incomplete(consumed))
    ensures !Accepted(query) && exists w :: w != [] && Accepted(query + w)
  {
    Completion.LiveIffCompletable(query);
    assert query + [] == query;
  }

  /** A query the automaton accepts can only be unsegmentable. */
  lemma AcceptedFailsUnsegmentable(vocab: Vocab, query: seq<byte>, failure: Failure)
    requires Accepted(query) && FailsWith(vocab, query, failure)
    ensures failure.Unsegmentable? && !Segmentable(vocab, query)
  {
    if failure.DeadEnd? {
      var next := query[..failure.pos] + vocab.tokens[failure.id];
      assert query == query[..failure.pos] + query[failure.pos..];
      assert next == query[..|next|];
      LivePrefix(query, |next|);
    } else if Segmentable(vocab, query) {
      var id := PassingTakesLongest(vocab, query, failure.pos, |query|);
      LongestIsUnique(vocab, query[failure.pos..], None, Some(id));
    }
  }

  /** Failing and passing exclude each other. */
  lemma FailingDoesNotPass(vocab: Vocab, query: seq<byte>, failure: Failure)
    requires FailsWith(vocab, query, failure)
    ensures !Passes(vocab, query)
  {
    if Accepted(query) {
      AcceptedFailsUnsegmentable(vocab, query, failure);
    }
  }

  /** Where a failure stops the run; nothing of the query is segmented and live past it. */
  ghost function StopOf(failure: Failure): nat {
    match failure
    case Unsegmentable(pos) => pos
    case DeadEnd(pos, _) => pos
    case Incomplete(consumed) => consumed
  }

  lemma StopIsLast(vocab: Vocab, query: seq<byte>, failure: Failure, later: nat)
    requires FailsWith(vocab, query, failure)
    requires Reaches(vocab, query, later) && later <= |query| && Run(INITIAL, query[..later]).Some?
    ensures later <= StopOf(failure)
  {
    var pos := StopOf(failure);
    if pos < later {
      var id := PassingTakesLongest(vocab, query, pos, later);
      match failure {
        case Unsegmentable(_) => LongestIsUnique(vocab, query[pos..], None, Some(id));
        case DeadEnd(_, dead) =>
          LongestIsUnique(vocab, query[pos..], Some(dead), Some(id));
          var next := query[..pos] + vocab.tokens[id];
          assert query == query[..pos] + query[pos..];
          assert next == query[..later][..|next|];
          LivePrefix(query[..later], |next|);
        case Incomplete(_) =>
      }
    }
  }

  /** A query fails in one way only: its index, position and token are determined. */
  lemma FailureIsUnique(vocab: Vocab, query: seq<byte>, a: Failure, b: Failure)
    requires FailsWith(vocab, query, a) && FailsWith(vocab, query, b)
    ensures a == b
  {
    assert query[..|query|] == query;
    StopIsLast(vocab, query, a, StopOf(b));
    StopIsLast(vocab, query, b, StopOf(a));
    if !a.Incomplete? && !b.Incomplete? {
      var best := (f: Failure) => match f case DeadEnd(_, id) => Some(id) case _ => None;
      LongestIsUnique(vocab, query[StopOf(a)..], best(a), best(b));
    }
  }

  // ----- the check -----

  /** The longest non-empty token that starts `remaining`. */
  method LongestMatch(vocab: Vocab, remaining: seq<byte>) returns (best: Option<nat>)
    ensures IsLongest(vocab, remaining, best)
  {
    best := None;
    var id: nat := 0;
    while id < vocab.Len()
      invariant 0 <= id <= vocab.Len()
      invariant best.None? ==> forall k :: 0 <= k < id ==> !Covers(vocab, remaining, k)
      invariant best.Some? ==>
        && best.value < id && Covers(vocab, remaining, best.value)
        && forall k :: 0 <= k < id && k != best.value && Covers(vocab, remaining, k) ==>
             || |vocab.tokens[k]| < |vocab.tokens[best.value]|
             || (|vocab.tokens[k]| == |vocab.tokens[best.value]| && best.value < k)
    {
      var token := vocab.tokens[id];
      if token != [] && token <= remaining && (best.None? || |token| > |vocab.tokens[best.value]|) {
        best := Some(id);
      }
      id := id + 1;
    }
  }

  /** What one turn of the segmentation decides. */
  /** The greedy segmentation has come to `pos`, with `rest` to go. */
  ghost predicate Arrived(vocab: Vocab, query: seq<byte>, pos: nat, rest: seq<byte>) {
    pos <= |query| && rest == query[pos..] && Reaches(vocab, query, pos)
  }

  lemma TurnDecides(vocab: Vocab, query: seq<byte>, pos: nat, rest: seq<byte>, best: Option<nat>)
    requires Arrived(vocab, query, pos, rest) && rest != [] && Run(INITIAL, query[..pos]).Some?
    requires IsLongest(vocab, rest, best)
    ensures best.None? ==> EndsWith(vocab, query, Some(Unsegmentable(pos)))
    ensures best.Some? ==>
              var token := vocab.tokens[best.value];
              && token != [] && |token| <= |rest|
              && Arrived(vocab, query, pos + |token|, rest[|token|..])
              && query[..pos] + token == query[..pos + |token|]
              && (Run(Run(INITIAL, query[..pos]).value, token).None? ==>
                    EndsWith(vocab, query, Some(DeadEnd(pos, best.value))))
  {
    if best.Some? {
      ReachesNext(vocab, query, pos, best.value);
      RunConcat(INITIAL, query[..pos], vocab.tokens[best.value]);
    }
  }

  lemma ReachesStart(vocab: Vocab, query: seq<byte>)
    ensures Arrived(vocab, query, 0, query) && query[..0] == []
  {
    assert GreedyTo(vocab, query, [], 0);
  }

  lemma EndDecides(vocab: Vocab, query: seq<byte>, consumed: nat)
    requires Arrived(vocab, query, consumed, []) && Run(INITIAL, query[..consumed]).Some?
    ensures query[..consumed] == query
    ensures EndsWith(vocab, query, if Accepted(query) then None else Some(Incomplete(consumed)))
  {
  }

  /** One turn of the greedy segmentation: the longest token at the head of `rest`, offered to the session. */
  method Turn(session: Sessions.DecoderSession, query: seq<byte>, consumed: nat, rest: seq<byte>)
    returns (failure: Option<Failure>, taken: nat)
    requires session.Valid() && session.schema == None
    requires Arrived(session.grammar.vocab, query, consumed, rest) && rest != []
    requires session.consumed == query[..consumed]
    modifies session.Owned(), session.grammar
    ensures session.Valid() && session.tracker == old(session.tracker)
    ensures session.pda == old(session.pda) || fresh(session.pda)
    ensures failure.Some? ==> EndsWith(session.grammar.vocab, query, failure)
    ensures failure.None? ==>
              && 0 < taken <= |rest|
              && Arrived(session.grammar.vocab, query, consumed + taken, rest[taken..])
              && session.consumed == query[..consumed + taken]
  {
    var vocab := session.grammar.vocab;
    var best := LongestMatch(vocab, rest);
    TurnDecides(vocab, query, consumed, rest, best);
    if best.None? { return Some(Unsegmentable(consumed)), 0; }
    var id, token := best.value, vocab.tokens[best.value];
    var allowed := Offered(session, id);
    if !allowed { return Some(DeadEnd(consumed, id)), 0; }
    return None, |token|;
  }

  /** Offer a token to the session: consult the mask, then commit what it allows. */
  method Offered(session: Sessions.DecoderSession, id: nat) returns (allowed: bool)
    requires session.Valid() && session.schema == None && id < session.grammar.vocab.Len()
    modifies session.Owned(), session.grammar
    ensures session.Valid() && session.tracker == old(session.tracker)
    ensures session.pda == old(session.pda) || fresh(session.pda)
    ensures allowed <==> Run(old(session.pda.Config()), session.grammar.vocab.tokens[id]).Some?
    ensures session.consumed == old(session.consumed) + if allowed then session.grammar.vocab.tokens[id] else []
  {
    session.AllowedMask();
    allowed := session.mask.Test(id);
    if allowed {
      var result := session.AcceptToken(id);
      if result != Sessions.Admitted {
        // What the mask allows is never refused.
        assert false;
      }
    }
  }

  /** Drive one sample through a fresh session. */
  method CheckSample(grammar: CompiledGrammar, query: seq<byte>) returns (failure: Option<Failure>)
    requires grammar.Valid()
    modifies grammar
    ensures grammar.Valid()
    ensures EndsWith(grammar.vocab, query, failure)
  {
    var vocab := grammar.vocab;
    var session := new Sessions.DecoderSession(grammar, None);
    var consumed: nat, rest := 0, query;
    ReachesStart(vocab, query);
    while rest != []
      invariant Arrived(vocab, query, consumed, rest)
      invariant session.grammar == grammar && session.schema == None && session.Valid()
      invariant fresh(session) && fresh(session.pda) && fresh(session.tracker)
      invariant fresh(session.mask) && fresh(session.narrowBuf) && fresh(session.cache)
      invariant session.consumed == query[..consumed]
      decreases |rest|
    {
      var taken;
      failure, taken := Turn(session, query, consumed, rest);
      if failure.Some? { return; }
      rest := rest[taken..];
      consumed := consumed + taken;
    }
    EndDecides(vocab, query, consumed);
    var complete := session.IsComplete();
    return if complete then None else Some(Incomplete(consumed));
  }

  /** The first failing sample and its failure, or nothing when every sample passes. */
  method SelfCheck(grammar: CompiledGrammar, samples: seq<seq<byte>>) returns (error: Option<CheckError>)
    requires grammar.Valid()
    modifies grammar
    ensures grammar.Valid()
    ensures error.None? <==> forall i :: 0 <= i < |samples| ==> Passes(grammar.vocab, samples[i])
    ensures error.Some? ==>
              var q := error.value.queryIndex;
              && q < |samples| && FailsWith(grammar.vocab, samples[q], error.value.failure)
              && forall i :: 0 <= i < q ==> Passes(grammar.vocab, samples[i])
  {
    var queryIndex: nat := 0;
    while queryIndex < |samples|
      invariant 0 <= queryIndex <= |samples| && grammar.Valid()
      invariant forall i :: 0 <= i < queryIndex ==> Passes(grammar.vocab, samples[i])
    {
      var failure := CheckSample(grammar, samples[queryIndex]);
      if failure.Some? {
        FailingDoesNotPass(grammar.vocab, samples[queryIndex], failure.value);
        return Some(CheckError(queryIndex, failure.value));
      }
      queryIndex := queryIndex + 1;
    }
    return None;
  }
}
