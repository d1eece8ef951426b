/** The mutable driver over the transition function, and its two read-only replays. */
module PdaDriver {
  import opened Bytes
  import opened Automaton
  import opened Runs

  /** The verdict of a replay: whether it lived, and whether a death could have been avoided by a frame below. */
  datatype Probe = Probe(alive: bool, consultedAmbient: bool)

  const ALL_FRAMES: seq<Frame> := [Paren, Bracket, Brace, BraceLambda]

  /** Some frame beneath an empty stack would have kept `b` alive. */
  predicate SomeFrameSaves(s: State, b: byte) {
    exists f :: StepOf(s, Some(f), b) != Dead
  }

  class Pda {
    var state: State
    var stack: seq<Frame>

    function Config(): Config
      reads this
    {
      Runs.Config(state, stack)
    }

    constructor ()
      ensures Config() == INITIAL
    {
      state := Start;
      stack := [];
    }

    constructor At(s: State)
      ensures Config() == Runs.Config(s, [])
    {
      state := s;
      stack := [];
    }

    constructor Clone(other: Pda)
      ensures Config() == other.Config()
    {
      state := other.state;
      stack := other.stack;
    }

    /** Feed one byte; a rejected byte leaves the automaton as it was. */
    method Advance(b: byte) returns (ok: bool)
      modifies this
      ensures ok <==> Advanced(old(Config()), b).Some?
      ensures Config() == if ok then Advanced(old(Config()), b).value else old(Config())
    {
      var top := Top(stack);
      match StepOf(state, top, b) {
        case Next(next) =>
          state := next;
          return true;
        case Push(frame, next) =>
          stack := stack + [frame];
          state := next;
          return true;
        case Pop(next) =>
          stack := DropLast(stack);
          state := next;
          return true;
        case Dead =>
          return false;
      }
    }

    method IsAccepting() returns (r: bool)
      ensures r <==> Accepting(Config())
    {
      r := stack == [] && StepOf(state, None, SPACE) == Next(AfterValue);
    }

    method Reset()
      modifies this
      ensures Config() == INITIAL
    {
      state := Start;
      stack := [];
    }

    /** Whether replaying `bytes` from the live configuration keeps the automaton alive. */
    method Admits(bytes: seq<byte>) returns (alive: bool)
      ensures alive <==> Run(Config(), bytes).Some?
    {
      var s, scratch := state, stack;
      var i := 0;
      while i < |bytes|
        invariant 0 <= i <= |bytes|
        invariant Run(Config(), bytes[..i]) == Some(Runs.Config(s, scratch))
      {
        RunPrefix(Config(), bytes, i);
        match StepOf(s, Top(scratch), bytes[i]) {
          case Next(next) =>
            s := next;
          case Push(frame, next) =>
            scratch := scratch + [frame];
            s := next;
          case Pop(next) =>
            scratch := DropLast(scratch);
            s := next;
          case Dead =>
            return false;
        }
        i := i + 1;
      }
      assert bytes[..i] == bytes;
      return true;
    }

    /** `Admits` with the classification the per-state partition needs. */
    method ProbeBytes(bytes: seq<byte>) returns (probe: Probe)
      ensures probe == ProbeOf(Config(), bytes)
    {
      var s, scratch := state, stack;
      var i := 0;
      while i < |bytes|
        invariant 0 <= i <= |bytes|
        invariant ProbeOf(Config(), bytes) == ProbeOf(Runs.Config(s, scratch), bytes[i..])
      {
        match StepOf(s, Top(scratch), bytes[i]) {
          case Next(next) =>
            s := next;
          case Push(frame, next) =>
            scratch := scratch + [frame];
            s := next;
          case Pop(next) =>
            scratch := DropLast(scratch);
            s := next;
          case Dead =>
            var saved := false;
            var f := 0;
            while f < 4
              invariant 0 <= f <= 4
              invariant saved <==> exists g :: 0 <= g < f && StepOf(s, Some(ALL_FRAMES[g]), bytes[i]) != Dead
            {
              saved := saved || StepOf(s, Some(ALL_FRAMES[f]), bytes[i]) != Dead;
              f := f + 1;
            }
            AllFramesListed(s, bytes[i]);
            return Probe(false, scratch == [] && saved);
        }
        i := i + 1;
      }
      return Probe(true, false);
    }
  }

  lemma RunPrefix(c: Config, bytes: seq<byte>, i: nat)
    requires i < |bytes| && Run(c, bytes[..i]).Some?
    ensures Run(c, bytes[..i + 1]) == Advanced(Run(c, bytes[..i]).value, bytes[i])
    ensures Advanced(Run(c, bytes[..i]).value, bytes[i]).None? ==> Run(c, bytes).None?
  {
    RunSnoc(c, bytes[..i], bytes[i]);
    assert bytes[..i + 1] == bytes[..i] + [bytes[i]];
    assert bytes == bytes[..i + 1] + bytes[i + 1..];
    RunConcat(c, bytes[..i + 1], bytes[i + 1..]);
  }

  lemma AllFramesListed(s: State, b: byte)
    ensures SomeFrameSaves(s, b) <==> exists g :: 0 <= g < 4 && StepOf(s, Some(ALL_FRAMES[g]), b) != Dead
  {
    if SomeFrameSaves(s, b) {
      var f :| StepOf(s, Some(f), b) != Dead;
      var g := match f case Paren => 0 case Bracket => 1 case Brace => 2 case BraceLambda => 3;
      assert ALL_FRAMES[g] == f;
    }
  }

  /** What a replay from `c` reports. */
  ghost function ProbeOf(c: Config, bytes: seq<byte>): Probe
    decreases |bytes|
  {
    if bytes == [] then Probe(true, false)
    else match Advanced(c, bytes[0])
      case Some(next) => ProbeOf(next, bytes[1..])
      case None => Probe(false, c.stack == [] && SomeFrameSaves(c.state, bytes[0]))
  }

  lemma {:induction false} ProbeAliveIsRun(c: Config, bytes: seq<byte>)
    ensures ProbeOf(c, bytes).alive <==> Run(c, bytes).Some?
    ensures ProbeOf(c, bytes).alive ==> !ProbeOf(c, bytes).consultedAmbient
    decreases |bytes|
  {
    if bytes != [] && Advanced(c, bytes[0]).Some? {
      ProbeAliveIsRun(Advanced(c, bytes[0]).value, bytes[1..]);
    }
  }

  /** A replay that dies without consulting the ambient stack dies over every ambient stack. */
  lemma {:induction false} UnconsultedDeathIsFinal(ambient: seq<Frame>, c: Config, bytes: seq<byte>)
    requires ProbeOf(c, bytes) == Probe(false, false)
    ensures Run(Over(ambient, c), bytes).None?
    decreases |bytes|
  {
    match Advanced(c, bytes[0])
    case Some(next) =>
      AdvancedOver(ambient, c, bytes[0]);
      UnconsultedDeathIsFinal(ambient, next, bytes[1..]);
    case None =>
      if c.stack != [] {
        AdvancedOver(ambient, c, bytes[0]);
      } else {
        assert ambient + c.stack == ambient;
      }
  }

  /** The partition rule: what a replay over the empty stack says about the same replay over `stack`. */
  lemma ProbeDecides(s: State, stack: seq<Frame>, bytes: seq<byte>)
    ensures var probe := ProbeOf(Config(s, []), bytes);
            && (probe.alive ==> Run(Config(s, stack), bytes).Some?)
            && (!probe.alive && !probe.consultedAmbient ==> Run(Config(s, stack), bytes).None?)
            && (probe.consultedAmbient && stack == [] ==> Run(Config(s, stack), bytes).None?)
  {
    var local := Config(s, []);
    var probe := ProbeOf(local, bytes);
    assert Over(stack, local) == Config(s, stack) by { assert stack + [] == stack; }
    ProbeAliveIsRun(local, bytes);
    if probe.alive {
      RunOver(stack, local, bytes);
    } else if !probe.consultedAmbient {
      UnconsultedDeathIsFinal(stack, local, bytes);
    }
  }
}
