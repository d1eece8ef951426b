/** The frame stack is what a plain bracket scan of the consumed bytes leaves. */
module StackScan {
  import opened Bytes
  import opened Automaton
  import opened Transitions
  import opened Runs

  /** The scan remembers whether a string is open, whether only whitespace was seen, and the open brackets. */
  datatype Scan = Scan(quoted: bool, blank: bool, stack: seq<Frame>)

  const NOTHING: Scan := Scan(false, true, [])

  /** One byte of the scan; `None` when a closer does not match the innermost open bracket. */
  function Scanned(sc: Scan, b: byte): Option<Scan> {
    var blank := sc.blank && IsWs(b);
    if b == QUOTE then Some(Scan(!sc.quoted, blank, sc.stack))
    else if sc.quoted then Some(Scan(true, blank, sc.stack))
    else if IsOpener(b) then Some(Scan(false, blank, sc.stack + [FrameOf(b, sc.blank)]))
    else if IsCloser(b) then
      if sc.stack != [] && Matches(Top(sc.stack).value, b) then Some(Scan(false, blank, DropLast(sc.stack))) else None
    else Some(Scan(false, blank, sc.stack))
  }

  function ScanAll(bytes: seq<byte>): Option<Scan> {
    if bytes == [] then Some(NOTHING)
    else
      var n := |bytes| - 1;
      match ScanAll(bytes[..n])
      case None => None
      case Some(sc) => Scanned(sc, bytes[n])
  }

  function ScanOf(c: Config): Scan {
    Scan(c.state == InStrLit(false), c.state == Start, c.stack)
  }

  lemma AdvancedIsScanned(c: Config, b: byte)
    requires Advanced(c, b).Some?
    ensures Scanned(ScanOf(c), b) == Some(ScanOf(Advanced(c, b).value))
  {
    StepMoves(c.state, Top(c.stack), b);
  }

  /** In every run the scan succeeds and leaves the automaton's own frame stack. */
  lemma {:induction false} StackIsScan(bytes: seq<byte>)
    requires Run(INITIAL, bytes).Some?
    ensures ScanAll(bytes) == Some(ScanOf(Run(INITIAL, bytes).value))
  {
    if bytes != [] {
      var n := |bytes| - 1;
      assert bytes == bytes[..n] + [bytes[n]];
      RunSnoc(INITIAL, bytes[..n], bytes[n]);
      StackIsScan(bytes[..n]);
      AdvancedIsScanned(Run(INITIAL, bytes[..n]).value, bytes[n]);
    }
  }

  /** Brackets match outside strings, no bracket is left open, and no string is left open. */
  predicate Balanced(bytes: seq<byte>) {
    var end := ScanAll(bytes);
    end.Some? && end.value.stack == [] && !end.value.quoted
  }

  lemma AcceptedIsBalanced(query: seq<byte>)
    requires Accepted(query)
    ensures Balanced(query)
  {
    StackIsScan(query);
    ValueTerminalIsPaid(Run(INITIAL, query).value.state);
  }

  function QuoteCount(bytes: seq<byte>): nat {
    if bytes == [] then 0
    else QuoteCount(bytes[..|bytes| - 1]) + (if bytes[|bytes| - 1] == QUOTE then 1 else 0)
  }

  function FirstNonBlank(bytes: seq<byte>): Option<byte> {
    if bytes == [] then None
    else match FirstNonBlank(bytes[..|bytes| - 1])
      case Some(b) => Some(b)
      case None => if IsWs(bytes[|bytes| - 1]) then None else Some(bytes[|bytes| - 1])
  }

  /** What the scan's fields mean: quote parity, blankness, and where a block brace can stand. */
  lemma {:induction false} ScanFields(bytes: seq<byte>)
    requires ScanAll(bytes).Some?
    ensures var sc := ScanAll(bytes).value;
            && (sc.quoted <==> QuoteCount(bytes) % 2 == 1)
            && (sc.blank <==> FirstNonBlank(bytes).None?)
            && (sc.blank ==> sc.stack == [] && !sc.quoted)
            && (forall i :: 0 <= i < |sc.stack| && sc.stack[i] == Brace ==>
                  i == 0 && FirstNonBlank(bytes) == Some(LBRACE))
  {
    if bytes != [] {
      ScanFields(bytes[..|bytes| - 1]);
    }
  }

  /** The quote count is odd exactly inside a string; a block brace sits only at the bottom, and only
      when the first non-blank byte opened it. */
  lemma RunQuotesAndBraces(bytes: seq<byte>)
    requires Run(INITIAL, bytes).Some?
    ensures var c := Run(INITIAL, bytes).value;
            && (c.state == InStrLit(false) <==> QuoteCount(bytes) % 2 == 1)
            && (forall i :: 0 <= i < |c.stack| && c.stack[i] == Brace ==>
                  i == 0 && FirstNonBlank(bytes) == Some(LBRACE))
  {
    StackIsScan(bytes);
    ScanFields(bytes);
  }
}
