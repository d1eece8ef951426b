/** Every live configuration can be closed, and the shortest way to close it is known exactly. */
module Completion {
  import opened Bytes
  import opened Automaton
  import opened Transitions
  import opened Runs

  predicate Sound(c: Config) {
    TopFits(c.state, Top(c.stack))
  }

  lemma AdvancedSound(c: Config, b: byte)
    requires Sound(c) && Advanced(c, b).Some?
    ensures Sound(Advanced(c, b).value)
  {
    StepKeepsTopFits(c.state, Top(c.stack), b);
    if StepOf(c.state, Top(c.stack), b).Pop? {
      StepMoves(c.state, Top(c.stack), b);
    }
  }

  lemma {:induction false} RunSound(c: Config, bytes: seq<byte>)
    requires Sound(c) && Run(c, bytes).Some?
    ensures Sound(Run(c, bytes).value)
    decreases |bytes|
  {
    if bytes != [] {
      AdvancedSound(c, bytes[0]);
      RunSound(Advanced(c, bytes[0]).value, bytes[1..]);
    }
  }

  /** The length of a shortest completion. */
  function Owed(c: Config): nat {
    Need(c.state) + |c.stack|
  }

  lemma PayingAdvances(c: Config)
    requires Sound(c) && Need(c.state) > 0
    ensures var next := Advanced(c, Paying(c.state));
            next.Some? && Sound(next.value) && Owed(next.value) == Owed(c) - 1
  {
    PayingPays(c.state, Top(c.stack));
    AdvancedSound(c, Paying(c.state));
  }

  /** A completion: first finish the open value, then close the frames from the top down. */
  function Closing(c: Config): (w: seq<byte>)
    requires Sound(c)
    ensures |w| == Owed(c)
    decreases Owed(c)
  {
    if Need(c.state) > 0 then
      PayingAdvances(c);
      [Paying(c.state)] + Closing(Advanced(c, Paying(c.state)).value)
    else if c.stack != [] then
      [CloserOf(Top(c.stack).value)] + Closing(Config(AfterValue, DropLast(c.stack)))
    else []
  }

  lemma {:induction false} ClosingAccepts(c: Config)
    requires Sound(c)
    ensures var end := Run(c, Closing(c)); end.Some? && Accepting(end.value)
    decreases Owed(c)
  {
    if Need(c.state) > 0 {
      PayingAdvances(c);
      ClosingAccepts(Advanced(c, Paying(c.state)).value);
    } else if c.stack != [] {
      PaidStateCloses(c.state, Top(c.stack).value);
      ClosingAccepts(Config(AfterValue, DropLast(c.stack)));
    } else {
      ValueTerminalIffPaid(c.state);
    }
  }

  lemma {:induction false} NoShorterCompletion(c: Config, w: seq<byte>)
    requires Run(c, w).Some? && Accepting(Run(c, w).value)
    ensures |w| >= Owed(c)
    decreases |w|
  {
    if w == [] {
      ValueTerminalIsPaid(c.state);
    } else {
      NeedFallsByOne(c.state, Top(c.stack), w[0]);
      NoShorterCompletion(Advanced(c, w[0]).value, w[1..]);
    }
  }

  /** A byte string is a live prefix exactly when some continuation completes it to an accepted query. */
  lemma LiveIffCompletable(consumed: seq<byte>)
    ensures Run(INITIAL, consumed).Some? <==> exists w :: Accepted(consumed + w)
  {
    if Run(INITIAL, consumed).Some? {
      var c := Run(INITIAL, consumed).value;
      RunSound(INITIAL, consumed);
      ClosingAccepts(c);
      RunConcat(INITIAL, consumed, Closing(c));
      assert Accepted(consumed + Closing(c));
    }
    forall w | Accepted(consumed + w) ensures Run(INITIAL, consumed).Some? {
      RunConcat(INITIAL, consumed, w);
    }
  }

  predicate Completes(consumed: seq<byte>, w: seq<byte>) {
    Accepted(consumed + w)
  }

  lemma CompletionCosts(consumed: seq<byte>, w: seq<byte>)
    requires Run(INITIAL, consumed).Some? && Completes(consumed, w)
    ensures |w| >= Owed(Run(INITIAL, consumed).value)
  {
    RunConcat(INITIAL, consumed, w);
    NoShorterCompletion(Run(INITIAL, consumed).value, w);
  }

  lemma NeedIsAtMostFive(s: State)
    ensures Need(s) <= 5
  {
  }

  /** The shortest completion has exactly `Owed` bytes: never more than five beyond the open frames. */
  lemma ShortestCompletion(consumed: seq<byte>, c: Config) returns (shortest: seq<byte>)
    requires Run(INITIAL, consumed) == Some(c)
    ensures Completes(consumed, shortest) && |shortest| == Owed(c)
    ensures forall w :: Completes(consumed, w) ==> |shortest| <= |w|
    ensures |c.stack| <= |shortest| <= |c.stack| + 5
  {
    RunSound(INITIAL, consumed);
    shortest := Closing(c);
    ClosingAccepts(c);
    RunConcat(INITIAL, consumed, shortest);
    NeedIsAtMostFive(c.state);
    forall w | Completes(consumed, w) ensures |shortest| <= |w| {
      CompletionCosts(consumed, w);
    }
  }

  lemma LetIsRead(stack: seq<Frame>)
    ensures Advanced(Config(BlockStmt, stack), LOWER_L) == Some(Config(LetL, stack))
    ensures Advanced(Config(LetL, stack), LOWER_E) == Some(Config(LetLe, stack))
    ensures Advanced(Config(LetLe, stack), LOWER_T) == Some(Config(LetLet, stack))
    ensures Advanced(Config(LetLet, stack), SPACE) == Some(Config(ExpectBinder, stack))
  {
  }

  /** The five extra bytes are needed: `let ` at any block statement start leaves five more to pay. */
  lemma FiveExtraBytesAreNeeded(consumed: seq<byte>, stack: seq<Frame>)
    requires Run(INITIAL, consumed) == Some(Config(BlockStmt, stack))
    ensures Run(INITIAL, consumed + [LOWER_L] + [LOWER_E] + [LOWER_T] + [SPACE]) == Some(Config(ExpectBinder, stack))
    ensures Owed(Config(ExpectBinder, stack)) == |stack| + 5
  {
    LetIsRead(stack);
    RunSnoc(INITIAL, consumed, LOWER_L);
    RunSnoc(INITIAL, consumed + [LOWER_L], LOWER_E);
    RunSnoc(INITIAL, consumed + [LOWER_L] + [LOWER_E], LOWER_T);
    RunSnoc(INITIAL, consumed + [LOWER_L] + [LOWER_E] + [LOWER_T], SPACE);
  }

  lemma BlockStatementIsReachable()
    ensures Run(INITIAL, [LBRACE] + [PIPE]) == Some(Config(BlockStmt, [Brace]))
  {
    var block := Config(AfterBraceOpen, [Brace]);
    assert Advanced(INITIAL, LBRACE) == Some(block) by {
      assert [] + [Brace] == [Brace];
    }
    assert ([LBRACE] + [PIPE])[1..] == [PIPE];
    RunSnoc(block, [], PIPE);
    assert [] + [PIPE] == [PIPE];
  }

  /** And they are needed on a query: six bytes at least complete `{|let `, one of them the block's brace. */
  lemma FiveExtraBytesAreReached(w: seq<byte>)
    requires Completes([LBRACE] + [PIPE] + [LOWER_L] + [LOWER_E] + [LOWER_T] + [SPACE], w)
    ensures |w| >= 1 + 5
  {
    BlockStatementIsReachable();
    FiveExtraBytesAreNeeded([LBRACE] + [PIPE], [Brace]);
    CompletionCosts([LBRACE] + [PIPE] + [LOWER_L] + [LOWER_E] + [LOWER_T] + [SPACE], w);
  }
}
