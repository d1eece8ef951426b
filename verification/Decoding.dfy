/** What sampling token by token from the syntactic mask produces. */
module Decoding {
  import opened Bytes
  import opened Runs
  import opened Completion
  import opened Compiled

  /** A token's mask bit is set exactly when its bytes extend the consumed text to a completable one;
      a shortest completion then costs the open frames and at most five bytes. */
  lemma MaskBitIffCompletable(consumed: seq<byte>, c: Config, vocab: Vocab, id: nat)
    requires Run(INITIAL, consumed) == Some(c) && id < vocab.Len()
    ensures id in L1Mask(c, vocab) <==> exists w :: Accepted(consumed + vocab.tokens[id] + w)
    ensures id in L1Mask(c, vocab) ==>
              exists d, w :: Run(c, vocab.tokens[id]) == Some(d) && Completes(consumed + vocab.tokens[id], w)
                          && |d.stack| <= |w| <= |d.stack| + 5
  {
    var token := vocab.tokens[id];
    RunConcat(INITIAL, consumed, token);
    LiveIffCompletable(consumed + token);
    if id in L1Mask(c, vocab) {
      var d := Run(c, token).value;
      var w := ShortestCompletion(consumed + token, d);
      assert Completes(consumed + token, w);
    }
  }

  /** The end-of-stream bit is set exactly when the consumed text is an accepted query. */
  lemma EosBitIffAccepted(consumed: seq<byte>, c: Config, vocab: Vocab)
    requires Run(INITIAL, consumed) == Some(c)
    ensures vocab.EosBit() in L1Mask(c, vocab) <==> Accepted(consumed)
  {
  }

  /** A live stream can end here or go on by one more byte. */
  lemma LiveStreamsGoOn(consumed: seq<byte>, c: Config)
    requires Run(INITIAL, consumed) == Some(c)
    ensures Accepted(consumed) || exists b :: Advanced(c, b).Some?
  {
    RunSound(INITIAL, consumed);
    ClosingAccepts(c);
    if Closing(c) == [] {
      assert Run(c, []) == Some(c);
    } else {
      assert Advanced(c, Closing(c)[0]).Some?;
    }
  }

  predicate InVocab(vocab: Vocab, ids: seq<nat>) {
    forall i :: 0 <= i < |ids| ==> ids[i] < vocab.Len()
  }

  /** The bytes a token run spells. */
  function Spell(vocab: Vocab, ids: seq<nat>): seq<byte>
    requires InVocab(vocab, ids)
  {
    if ids == [] then [] else vocab.tokens[ids[0]] + Spell(vocab, ids[1..])
  }

  /** Every id of the run was in the mask of the configuration its predecessors reached. */
  ghost predicate Sampled(c: Config, vocab: Vocab, ids: seq<nat>)
    requires InVocab(vocab, ids)
    decreases |ids|
  {
    ids == [] || (ids[0] in L1Mask(c, vocab) && Sampled(Run(c, vocab.tokens[ids[0]]).value, vocab, ids[1..]))
  }

  lemma {:induction false} SampledIffSpellsLive(c: Config, vocab: Vocab, ids: seq<nat>)
    requires InVocab(vocab, ids)
    ensures Sampled(c, vocab, ids) <==> Run(c, Spell(vocab, ids)).Some?
    decreases |ids|
  {
    if ids != [] {
      var token := vocab.tokens[ids[0]];
      RunConcat(c, token, Spell(vocab, ids[1..]));
      if Run(c, token).Some? {
        SampledIffSpellsLive(Run(c, token).value, vocab, ids[1..]);
      }
    }
  }

  /** A token run is sampled from successive masks and ended by an allowed end-of-stream bit. */
  ghost predicate Generated(vocab: Vocab, ids: seq<nat>)
    requires InVocab(vocab, ids)
  {
    && Sampled(INITIAL, vocab, ids)
    && Run(INITIAL, Spell(vocab, ids)).Some?
    && vocab.EosBit() in L1Mask(Run(INITIAL, Spell(vocab, ids)).value, vocab)
  }

  /** Valid by construction, both ways: the generated runs are the segmentations of accepted queries. */
  lemma GeneratedIffAccepted(vocab: Vocab, ids: seq<nat>)
    requires InVocab(vocab, ids)
    ensures Generated(vocab, ids) <==> Accepted(Spell(vocab, ids))
  {
    SampledIffSpellsLive(INITIAL, vocab, ids);
  }
}
