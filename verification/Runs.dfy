/** Whole runs of the automaton: the driver over a state and a frame stack. */
module Runs {
  import opened Bytes
  import opened Automaton
  import Transitions

  datatype Config = Config(state: State, stack: seq<Frame>)

  const INITIAL: Config := Config(Start, [])

  function Top<T>(stack: seq<T>): Option<T> {
    if stack == [] then None else Some(stack[|stack| - 1])
  }

  /** `Vec::pop` without its result. */
  function DropLast<T>(stack: seq<T>): seq<T> {
    if stack == [] then [] else stack[..|stack| - 1]
  }

  function Moved(stack: seq<Frame>, next: Step): Option<Config> {
    match next
    case Next(s) => Some(Config(s, stack))
    case Push(f, s) => Some(Config(s, stack + [f]))
    case Pop(s) => Some(Config(s, DropLast(stack)))
    case Dead => None
  }

  function Advanced(c: Config, b: byte): Option<Config> {
    Moved(c.stack, StepOf(c.state, Top(c.stack), b))
  }

  /** The configuration after `bytes`, or `None` when a byte dies. */
  function Run(c: Config, bytes: seq<byte>): Option<Config>
    decreases |bytes|
  {
    if bytes == [] then Some(c)
    else match Advanced(c, bytes[0])
      case None => None
      case Some(next) => Run(next, bytes[1..])
  }

  predicate Accepting(c: Config) {
    c.stack == [] && Transitions.ValueTerminal(c.state)
  }

  /** The accepted language. */
  predicate Accepted(query: seq<byte>) {
    var end := Run(INITIAL, query);
    end.Some? && Accepting(end.value)
  }

  lemma {:induction false} RunConcat(c: Config, xs: seq<byte>, ys: seq<byte>)
    ensures Run(c, xs + ys) == match Run(c, xs) case None => None case Some(mid) => Run(mid, ys)
    decreases |xs|
  {
    if xs == [] {
      assert xs + ys == ys;
    } else {
      assert (xs + ys)[0] == xs[0] && (xs + ys)[1..] == xs[1..] + ys;
      if Advanced(c, xs[0]).Some? {
        RunConcat(Advanced(c, xs[0]).value, xs[1..], ys);
      }
    }
  }

  lemma RunSnoc(c: Config, xs: seq<byte>, b: byte)
    ensures Run(c, xs + [b]) == match Run(c, xs) case None => None case Some(mid) => Advanced(mid, b)
  {
    RunConcat(c, xs, [b]);
    if Run(c, xs).Some? {
      var mid := Run(c, xs).value;
      if Advanced(mid, b).Some? {
        assert [b][1..] == [];
        assert Run(Advanced(mid, b).value, []) == Some(Advanced(mid, b).value);
      }
    }
  }

  // ----- the frame rule over runs -----

  function Over(ambient: seq<Frame>, c: Config): Config {
    Config(c.state, ambient + c.stack)
  }

  lemma AdvancedOver(ambient: seq<Frame>, c: Config, b: byte)
    requires c.stack != [] || Advanced(c, b).Some?
    ensures Advanced(Over(ambient, c), b) == match Advanced(c,
            b) case None => None case Some(d) => Some(Over(ambient, d))
  {
    var next := StepOf(c.state, Top(c.stack), b);
    if c.stack != [] {
      assert Top(ambient + c.stack) == Top(c.stack);
      assert DropLast(ambient + c.stack) == ambient + DropLast(c.stack);
    } else {
      assert ambient + c.stack == ambient;
      if ambient != [] {
        Transitions.FrameRule(c.state, Top(ambient).value, b);
      } else if next.Pop? {
        Transitions.StepMoves(c.state, None, b);
      }
    }
    if next.Push? {
      assert ambient + c.stack + [next.frame] == ambient + (c.stack + [next.frame]);
    }
  }

  /** A run that survives over its own stack survives over any ambient stack beneath it. */
  lemma {:induction false} RunOver(ambient: seq<Frame>, c: Config, bytes: seq<byte>)
    requires Run(c, bytes).Some?
    ensures Run(Over(ambient, c), bytes) == Some(Over(ambient, Run(c, bytes).value))
    decreases |bytes|
  {
    if bytes != [] {
      AdvancedOver(ambient, c, bytes[0]);
      RunOver(ambient, Advanced(c, bytes[0]).value, bytes[1..]);
    }
  }
}
