/** A byte trie over legal names, kept as a node arena, and the prefix walk over it. */
module Tries {
  import opened Bytes

  datatype Edge = Edge(key: byte, child: nat)

  datatype Node = Node(next: seq<Edge>, terminal: bool)

  datatype Walk = Stay(node: nat) | Complete | Diverge

  const ROOT: nat := 0

  // ----- the arena -----

  /** Edges stay sorted by byte, each byte at most once. */
  ghost predicate Sorted(edges: seq<Edge>) {
    forall i, j :: 0 <= i < j < |edges| ==> edges[i].key < edges[j].key
  }

  ghost predicate Arena(nodes: seq<Node>) {
    && |nodes| > 0
    && (forall n :: 0 <= n < |nodes| ==> Sorted(nodes[n].next))
    && (forall n, i :: 0 <= n < |nodes| && 0 <= i < |nodes[n].next| ==> nodes[n].next[i].child < |nodes|)
  }

  ghost predicate HasEdge(nodes: seq<Node>, n: nat, b: byte, i: nat) {
    n < |nodes| && i < |nodes[n].next| && nodes[n].next[i].key == b
  }

  /** The node one byte below `n`. */
  ghost function ChildOf(nodes: seq<Node>, n: nat, b: byte): Option<nat> {
    if exists i: nat :: HasEdge(nodes, n, b, i) then
      var i: nat :| HasEdge(nodes, n, b, i);
      Some(nodes[n].next[i].child)
    else None
  }

  lemma ChildIsTheEdge(nodes: seq<Node>, n: nat, b: byte, i: nat)
    requires Arena(nodes) && HasEdge(nodes, n, b, i)
    ensures ChildOf(nodes, n, b) == Some(nodes[n].next[i].child)
  {
    assert Sorted(nodes[n].next);
    forall j: nat | HasEdge(nodes, n, b, j) ensures j == i {
    }
  }

  lemma ChildInArena(nodes: seq<Node>, n: nat, b: byte)
    requires Arena(nodes) && ChildOf(nodes, n, b).Some?
    ensures ChildOf(nodes, n, b).value < |nodes|
  {
    var i: nat :| HasEdge(nodes, n, b, i);
    ChildIsTheEdge(nodes, n, b, i);
  }

  /** The node at the end of byte path `p` from the root. */
  ghost function At(nodes: seq<Node>, p: seq<byte>): Option<nat> {
    if p == [] then Some(ROOT)
    else match At(nodes, p[..|p| - 1])
      case None => None
      case Some(n) => ChildOf(nodes, n, p[|p| - 1])
  }

  lemma AtSnoc(nodes: seq<Node>, p: seq<byte>, b: byte)
    ensures At(nodes, p + [b]) == match At(nodes, p) case None => None case Some(n) => ChildOf(nodes, n, b)
  {
    assert (p + [b])[..|p|] == p;
  }

  lemma {:induction false} AtInArena(nodes: seq<Node>, p: seq<byte>)
    requires Arena(nodes) && At(nodes, p).Some?
    ensures At(nodes, p).value < |nodes|
  {
    if p != [] {
      ChildInArena(nodes, At(nodes, p[..|p| - 1]).value, p[|p| - 1]);
    }
  }

  // ----- what a trie means -----

  /** `p` can still be extended to some name. */
  ghost predicate Live(names: set<seq<byte>>, p: seq<byte>) {
    p == [] || exists name :: name in names && p <= name
  }

  ghost predicate Distinct(nodes: seq<Node>, p: seq<byte>, q: seq<byte>) {
    At(nodes, p).Some? && At(nodes, p) == At(nodes, q) ==> p == q
  }

  /** Each node has one path. */
  ghost predicate OnePath(nodes: seq<Node>) {
    forall p, q :: Distinct(nodes, p, q)
  }

  ghost predicate Reached(nodes: seq<Node>, n: nat) {
    exists p :: At(nodes, p) == Some(n)
  }

  /** Each node has a path. */
  ghost predicate AllReached(nodes: seq<Node>) {
    forall n: nat :: n < |nodes| ==> Reached(nodes, n)
  }

  ghost predicate PathFits(nodes: seq<Node>, names: set<seq<byte>>, w: seq<byte>, p: seq<byte>) {
    && (At(nodes, p).Some? <==> Live(names, p) || p <= w)
    && (At(nodes, p).Some? ==>
          At(nodes, p).value < |nodes| && (nodes[At(nodes, p).value].terminal <==> p in names))
  }

  /** The paths are the prefixes of names and of `w`; the terminals are exactly the names. */
  ghost predicate Spans(nodes: seq<Node>, names: set<seq<byte>>, w: seq<byte>) {
    forall p :: PathFits(nodes, names, w, p)
  }

  ghost predicate TrieOf(nodes: seq<Node>, names: set<seq<byte>>) {
    Arena(nodes) && OnePath(nodes) && AllReached(nodes) && Spans(nodes, names, [])
  }

  // ----- growing the arena -----

  /** Insert `edge` at its sorted place and append the fresh leaf it leads to. */
  function Grown(nodes: seq<Node>, n: nat, b: byte, at: nat): seq<Node>
    requires n < |nodes| && at <= |nodes[n].next|
  {
    var edges := nodes[n].next;
    nodes[n := nodes[n].(next := edges[..at] + [Edge(b, |nodes|)] + edges[at..])] + [Node([], false)]
  }

  /** `at` is where `b` belongs among the edges of `n`, and `b` is not there yet. */
  ghost predicate Belongs(edges: seq<Edge>, b: byte, at: nat) {
    && at <= |edges|
    && (forall i :: 0 <= i < at ==> edges[i].key < b)
    && (forall i :: at <= i < |edges| ==> b < edges[i].key)
  }

  lemma GrownIsArena(nodes: seq<Node>, n: nat, b: byte, at: nat)
    requires Arena(nodes) && n < |nodes| && Belongs(nodes[n].next, b, at)
    ensures Arena(Grown(nodes, n, b, at))
  {
    var grown := Grown(nodes, n, b, at);
    forall m | 0 <= m < |grown| ensures Sorted(grown[m].next) {
      if m < |nodes| && m != n { assert grown[m] == nodes[m]; }
    }
  }

  lemma GrownChildren(nodes: seq<Node>, n: nat, b: byte, at: nat, m: nat, x: byte)
    requires Arena(nodes) && n < |nodes| && Belongs(nodes[n].next, b, at) && m < |nodes|
    ensures ChildOf(Grown(nodes, n, b, at), m, x)
         == if m == n && x == b then Some(|nodes|) else ChildOf(nodes, m, x)
  {
    var grown := Grown(nodes, n, b, at);
    GrownIsArena(nodes, n, b, at);
    if m == n && x == b {
      ChildIsTheEdge(grown, n, b, at);
    } else if exists i: nat :: HasEdge(nodes, m, x, i) {
      var i: nat :| HasEdge(nodes, m, x, i);
      ChildIsTheEdge(nodes, m, x, i);
      ChildIsTheEdge(grown, m, x, if m == n && i >= at then i + 1 else i);
    } else if exists i: nat :: HasEdge(grown, m, x, i) {
      var i: nat :| HasEdge(grown, m, x, i);
      assert HasEdge(nodes, m, x, if m == n && i >= at then i - 1 else i);
    }
  }

  lemma LeafHasNoChildren(nodes: seq<Node>, n: nat, b: byte, at: nat, x: byte)
    requires n < |nodes| && at <= |nodes[n].next|
    ensures ChildOf(Grown(nodes, n, b, at), |nodes|, x).None?
  {
  }

  /** Growing below the node of `q` adds the one path `q + [b]` and moves nothing. */
  lemma {:induction false} GrownPaths(nodes: seq<Node>, q: seq<byte>, b: byte, at: nat, p: seq<byte>)
    requires Arena(nodes) && OnePath(nodes) && At(nodes, q).Some? && At(nodes, q).value < |nodes|
    requires Belongs(nodes[At(nodes, q).value].next, b, at)
    requires ChildOf(nodes, At(nodes, q).value, b).None?
    ensures At(Grown(nodes, At(nodes, q).value, b, at), p)
         == if p == q + [b] then Some(|nodes|) else At(nodes, p)
  {
    var n := At(nodes, q).value;
    if p != [] {
      var front, x := p[..|p| - 1], p[|p| - 1];
      assert p == front + [x];
      AtSnoc(nodes, front, x);
      GrownPaths(nodes, q, b, at, front);
      if front == q + [b] {
        LeafHasNoChildren(nodes, n, b, at, x);
        AtSnoc(nodes, q, b);
      } else if At(nodes, front).Some? {
        AtInArena(nodes, front);
        assert Distinct(nodes, front, q);
        GrownChildren(nodes, n, b, at, At(nodes, front).value, x);
      }
    }
  }

  lemma GrownSpans(nodes: seq<Node>, names: set<seq<byte>>, q: seq<byte>, b: byte, at: nat)
    requires Arena(nodes) && OnePath(nodes) && Spans(nodes, names, q) && At(nodes, q).Some?
    requires At(nodes, q).value < |nodes| && Belongs(nodes[At(nodes, q).value].next, b, at)
    requires ChildOf(nodes, At(nodes, q).value, b).None?
    ensures Spans(Grown(nodes, At(nodes, q).value, b, at), names, q + [b])
  {
    var n := At(nodes, q).value;
    var grown := Grown(nodes, n, b, at);
    AtSnoc(nodes, q, b);
    assert PathFits(nodes, names, q, q + [b]);
    forall p ensures PathFits(grown, names, q + [b], p) {
      GrownPaths(nodes, q, b, at, p);
      PrefixOfSnoc(p, q, b);
      assert PathFits(nodes, names, q, p);
    }
  }

  lemma GrownOnePath(nodes: seq<Node>, q: seq<byte>, b: byte, at: nat)
    requires Arena(nodes) && OnePath(nodes) && At(nodes, q).Some?
    requires At(nodes, q).value < |nodes| && Belongs(nodes[At(nodes, q).value].next, b, at)
    requires ChildOf(nodes, At(nodes, q).value, b).None?
    ensures var grown := Grown(nodes, At(nodes, q).value, b, at);
            OnePath(grown) && At(grown, q + [b]) == Some(|nodes|)
  {
    var grown := Grown(nodes, At(nodes, q).value, b, at);
    GrownPaths(nodes, q, b, at, q + [b]);
    forall p1, p2 ensures Distinct(grown, p1, p2) {
      GrownPaths(nodes, q, b, at, p1);
      GrownPaths(nodes, q, b, at, p2);
      assert Distinct(nodes, p1, p2);
      if At(nodes, p1).Some? { AtInArena(nodes, p1); }
      if At(nodes, p2).Some? { AtInArena(nodes, p2); }
    }
  }

  lemma GrownAllReached(nodes: seq<Node>, q: seq<byte>, b: byte, at: nat)
    requires Arena(nodes) && OnePath(nodes) && AllReached(nodes) && At(nodes, q).Some?
    requires At(nodes, q).value < |nodes| && Belongs(nodes[At(nodes, q).value].next, b, at)
    requires ChildOf(nodes, At(nodes, q).value, b).None?
    ensures AllReached(Grown(nodes, At(nodes, q).value, b, at))
  {
    var grown := Grown(nodes, At(nodes, q).value, b, at);
    forall n: nat | n < |grown| ensures Reached(grown, n) {
      if n == |nodes| {
        GrownPaths(nodes, q, b, at, q + [b]);
      } else {
        assert Reached(nodes, n);
        var p :| At(nodes, p) == Some(n);
        GrownPaths(nodes, q, b, at, p);
        AtSnoc(nodes, q, b);
      }
    }
  }

  lemma PrefixOfSnoc(p: seq<byte>, q: seq<byte>, b: byte)
    ensures p <= q + [b] <==> p <= q || p == q + [b]
  {
    if p <= q + [b] && |p| <= |q| {
      assert p == (q + [b])[..|p|] == q[..|p|];
    }
  }

  /** Marking the node of `w` terminal adds the name `w`. */
  lemma MarkedSpans(nodes: seq<Node>, names: set<seq<byte>>, w: seq<byte>)
    requires Arena(nodes) && OnePath(nodes) && AllReached(nodes) && Spans(nodes, names, w) && At(nodes, w).Some?
    ensures var n := At(nodes, w).value;
            n < |nodes| && TrieOf(nodes[n := nodes[n].(terminal := true)], names + {w})
  {
    var n := At(nodes, w).value;
    assert PathFits(nodes, names, w, w);
    var marked := nodes[n := nodes[n].(terminal := true)];
    forall p ensures PathFits(marked, names + {w}, [], p) {
      MarkedPaths(nodes, n, p);
      assert PathFits(nodes, names, w, p) && Distinct(nodes, p, w);
      if p <= w { assert w in names + {w}; }
    }
    forall p, q ensures Distinct(marked, p, q) {
      MarkedPaths(nodes, n, p);
      MarkedPaths(nodes, n, q);
      assert Distinct(nodes, p, q);
    }
    forall m: nat | m < |marked| ensures Reached(marked, m) {
      assert Reached(nodes, m);
      var p :| At(nodes, p) == Some(m);
      MarkedPaths(nodes, n, p);
    }
  }

  lemma {:induction false} MarkedPaths(nodes: seq<Node>, n: nat, p: seq<byte>)
    requires Arena(nodes) && n < |nodes|
    ensures At(nodes[n := nodes[n].(terminal := true)], p) == At(nodes, p)
  {
    var marked := nodes[n := nodes[n].(terminal := true)];
    if p != [] {
      MarkedPaths(nodes, n, p[..|p| - 1]);
      if At(nodes, p[..|p| - 1]).Some? {
        MarkedChild(nodes, n, At(nodes, p[..|p| - 1]).value, p[|p| - 1]);
      }
    }
  }

  lemma MarkedChild(nodes: seq<Node>, n: nat, m: nat, x: byte)
    requires Arena(nodes) && n < |nodes|
    ensures ChildOf(nodes[n := nodes[n].(terminal := true)], m, x) == ChildOf(nodes, m, x)
  {
    var marked := nodes[n := nodes[n].(terminal := true)];
    assert Arena(marked);
    forall i: nat ensures HasEdge(marked, m, x, i) <==> HasEdge(nodes, m, x, i) {
    }
    if i: nat :| HasEdge(nodes, m, x, i) {
      ChildIsTheEdge(nodes, m, x, i);
      ChildIsTheEdge(marked, m, x, i);
    }
  }

  lemma EmptyTrie()
    ensures TrieOf([Node([], false)], {})
  {
    var nodes := [Node([], false)];
    forall p ensures PathFits(nodes, {}, [], p) {
      if p != [] { RootOnly(p); }
    }
    assert At(nodes, []) == Some(ROOT);
    forall p, q ensures Distinct(nodes, p, q) {
      if p != [] { RootOnly(p); }
      if q != [] { RootOnly(q); }
    }
  }

  lemma {:induction false} RootOnly(p: seq<byte>)
    requires p != []
    ensures At([Node([], false)], p).None?
  {
    if |p| > 1 { RootOnly(p[..|p| - 1]); } else { assert p[..0] == []; }
  }

  // ----- the trie object -----

  /** `binary_search_by_key` on sorted edges: the hit, or the insertion point. */
  method FindEdge(edges: seq<Edge>, b: byte) returns (hit: bool, at: nat)
    requires Sorted(edges)
    ensures hit ==> at < |edges| && edges[at].key == b
    ensures !hit ==> Belongs(edges, b, at)
  {
    var lo, hi := 0, |edges|;
    while lo < hi
      invariant 0 <= lo <= hi <= |edges|
      invariant forall i :: 0 <= i < lo ==> edges[i].key < b
      invariant forall i :: hi <= i < |edges| ==> b < edges[i].key
    {
      var mid := (lo + hi) / 2;
      if edges[mid].key == b { return true, mid; }
      if edges[mid].key < b { lo := mid + 1; } else { hi := mid; }
    }
    return false, lo;
  }

  method ChildIn(nodes: seq<Node>, n: nat, b: byte) returns (child: Option<nat>)
    requires Arena(nodes) && n < |nodes|
    ensures child == ChildOf(nodes, n, b)
    ensures child.Some? ==> child.value < |nodes|
  {
    var hit, at := FindEdge(nodes[n].next, b);
    if hit {
      ChildIsTheEdge(nodes, n, b, at);
      ChildInArena(nodes, n, b);
      return Some(nodes[n].next[at].child);
    }
    return None;
  }

  class Trie {
    var nodes: seq<Node>

    constructor ()
      ensures TrieOf(nodes, {})
    {
      nodes := [Node([], false)];
      EmptyTrie();
    }

    method Insert(bytes: seq<byte>, ghost names: set<seq<byte>>)
      requires TrieOf(nodes, names)
      modifies this
      ensures TrieOf(nodes, names + {bytes})
    {
      var node: nat := ROOT;
      var i := 0;
      while i < |bytes|
        invariant 0 <= i <= |bytes|
        invariant Arena(nodes) && OnePath(nodes) && AllReached(nodes)
        invariant Spans(nodes, names, bytes[..i]) && At(nodes, bytes[..i]) == Some(node)
      {
        assert bytes[..i + 1] == bytes[..i] + [bytes[i]];
        AtSnoc(nodes, bytes[..i], bytes[i]);
        var child := ChildIn(nodes, node, bytes[i]);
        match child {
          case Some(c) =>
            SpansFurther(nodes, names, bytes[..i], bytes[i]);
            node := c;
          case None =>
            var hit, at := FindEdge(nodes[node].next, bytes[i]);
            if hit { ChildIsTheEdge(nodes, node, bytes[i], at); }
            GrownSpans(nodes, names, bytes[..i], bytes[i], at);
            GrownOnePath(nodes, bytes[..i], bytes[i], at);
            GrownAllReached(nodes, bytes[..i], bytes[i], at);
            GrownIsArena(nodes, node, bytes[i], at);
            var leaf := |nodes|;
            nodes := Grown(nodes, node, bytes[i], at);
            node := leaf;
        }
        i := i + 1;
      }
      assert bytes[..i] == bytes;
      MarkedSpans(nodes, names, bytes);
      nodes := nodes[node := nodes[node].(terminal := true)];
    }
  }

  lemma SpansFurther(nodes: seq<Node>, names: set<seq<byte>>, q: seq<byte>, b: byte)
    requires Spans(nodes, names, q) && At(nodes, q + [b]).Some?
    ensures Spans(nodes, names, q + [b])
  {
    forall p ensures PathFits(nodes, names, q + [b], p) {
      assert PathFits(nodes, names, q, p) && PathFits(nodes, names, q, q + [b]);
      PrefixOfSnoc(p, q, b);
    }
  }

  method FromNames(names: seq<seq<byte>>) returns (trie: Trie)
    ensures fresh(trie)
    ensures TrieOf(trie.nodes, set i | 0 <= i < |names| :: names[i])
  {
    trie := new Trie();
    var i := 0;
    ghost var done: set<seq<byte>> := {};
    while i < |names|
      invariant 0 <= i <= |names|
      invariant fresh(trie)
      invariant done == set k | 0 <= k < i :: names[k]
      invariant TrieOf(trie.nodes, done)
    {
      trie.Insert(names[i], done);
      done := done + {names[i]};
      i := i + 1;
    }
  }

  // ----- the walk -----

  ghost function WalkFrom(nodes: seq<Node>, n: nat, bytes: seq<byte>): Walk
    decreases |bytes|
  {
    if bytes == [] then Stay(n)
    else match ChildOf(nodes, n, bytes[0])
      case Some(c) => WalkFrom(nodes, c, bytes[1..])
      case None =>
        if n < |nodes| && nodes[n].terminal && !IsIdentTail(bytes[0]) then Complete else Diverge
  }

  method WalkTrie(nodes: seq<Node>, start: nat, bytes: seq<byte>) returns (walk: Walk)
    requires Arena(nodes) && start < |nodes|
    ensures walk == WalkFrom(nodes, start, bytes)
  {
    var node: nat := start;
    var i := 0;
    while i < |bytes|
      invariant 0 <= i <= |bytes| && node < |nodes|
      invariant WalkFrom(nodes, start, bytes) == WalkFrom(nodes, node, bytes[i..])
    {
      var child := ChildIn(nodes, node, bytes[i]);
      match child {
        case Some(c) =>
          node := c;
        case None =>
          return if nodes[node].terminal && !IsIdentTail(bytes[i]) then Complete else Diverge;
      }
      i := i + 1;
    }
    return Stay(node);
  }

  /** Walking `xs + ys` is walking `xs`, then `ys` from where it stayed. */
  lemma {:induction false} WalkConcat(nodes: seq<Node>, n: nat, xs: seq<byte>, ys: seq<byte>)
    ensures WalkFrom(nodes, n, xs + ys)
         == match WalkFrom(nodes, n, xs) case Stay(m) => WalkFrom(nodes, m, ys) case end => end
    decreases |xs|
  {
    if xs == [] {
      assert xs + ys == ys;
    } else {
      assert (xs + ys)[0] == xs[0] && (xs + ys)[1..] == xs[1..] + ys;
      match ChildOf(nodes, n, xs[0])
      case Some(c) => WalkConcat(nodes, c, xs[1..], ys);
      case None =>
    }
  }

  /** The walk's verdict in terms of the names alone: `p` was read, `bytes` comes next. */
  datatype Verdict = Stays | Completes | Diverges

  ghost function Judge(names: set<seq<byte>>, p: seq<byte>, bytes: seq<byte>): Verdict
    decreases |bytes|
  {
    if bytes == [] then Stays
    else if Live(names, p + [bytes[0]]) then Judge(names, p + [bytes[0]], bytes[1..])
    else if p in names && !IsIdentTail(bytes[0]) then Completes
    else Diverges
  }

  /** The trie walk from the node of `p` gives the names' verdict, whatever the node numbering. */
  lemma {:induction false} WalkIsJudged(nodes: seq<Node>, names: set<seq<byte>>, p: seq<byte>, bytes: seq<byte>)
    requires TrieOf(nodes, names) && At(nodes, p).Some?
    ensures var walk := WalkFrom(nodes, At(nodes, p).value, bytes);
            match Judge(names, p, bytes)
            case Stays => At(nodes, p + bytes).Some? && walk == Stay(At(nodes, p + bytes).value)
            case Completes => walk == Complete
            case Diverges => walk == Diverge
    decreases |bytes|
  {
    if bytes == [] {
      assert p + bytes == p;
    } else {
      AtSnoc(nodes, p, bytes[0]);
      assert PathFits(nodes, names, [], p) && PathFits(nodes, names, [], p + [bytes[0]]);
      assert p + [bytes[0]] + bytes[1..] == p + bytes;
      if Live(names, p + [bytes[0]]) {
        WalkIsJudged(nodes, names, p + [bytes[0]], bytes[1..]);
      }
    }
  }

  /** Byte `k` of `bytes` is the first one no name continues with. */
  ghost predicate LeavesAt(names: set<seq<byte>>, p: seq<byte>, bytes: seq<byte>, k: nat) {
    k < |bytes| && (k == 0 || Live(names, p + bytes[..k])) && !Live(names, p + bytes[..k + 1])
  }

  lemma LiveIsPrefixClosed(names: set<seq<byte>>, p: seq<byte>, q: seq<byte>)
    requires Live(names, q) && p <= q
    ensures Live(names, p)
  {
    if p != [] {
      var name :| name in names && q <= name;
      assert p <= name;
    }
  }

  /** The walk stays exactly on prefixes of names. */
  lemma {:induction false} StayMeaning(names: set<seq<byte>>, p: seq<byte>, bytes: seq<byte>)
    requires bytes != []
    ensures Judge(names, p, bytes) == Stays <==> Live(names, p + bytes)
    decreases |bytes|
  {
    var q, rest := p + [bytes[0]], bytes[1..];
    assert q + rest == p + bytes;
    if Live(names, p + bytes) { LiveIsPrefixClosed(names, q, p + bytes); }
    if rest != [] { StayMeaning(names, q, rest); }
  }

  lemma LeavesAtShift(names: set<seq<byte>>, p: seq<byte>, bytes: seq<byte>, k: nat)
    requires bytes != [] && Live(names, p + [bytes[0]]) && k < |bytes|
    ensures LeavesAt(names, p, bytes, k) <==> k > 0 && LeavesAt(names, p + [bytes[0]], bytes[1..], k - 1)
    ensures k > 0 ==> p + bytes[..k] == p + [bytes[0]] + bytes[1..][..k - 1]
  {
    assert p + bytes[..1] == p + [bytes[0]];
    if k > 0 {
      assert p + bytes[..k] == p + [bytes[0]] + bytes[1..][..k - 1];
      assert p + bytes[..k + 1] == p + [bytes[0]] + bytes[1..][..k];
    }
  }

  lemma LeavesAtOnce(names: set<seq<byte>>, p: seq<byte>, bytes: seq<byte>, k: nat)
    requires bytes != [] && !Live(names, p + [bytes[0]])
    ensures LeavesAt(names, p, bytes, k) <==> k == 0
  {
    assert p + bytes[..1] == p + [bytes[0]];
    if k > 0 && LeavesAt(names, p, bytes, k) {
      assert p + [bytes[0]] <= p + bytes[..k];
      LiveIsPrefixClosed(names, p + [bytes[0]], p + bytes[..k]);
    }
  }

  /** The name of length `|p| + k` ends the walk: it is the longest live prefix, and no identifier byte follows. */
  ghost predicate EndsNameAt(names: set<seq<byte>>, p: seq<byte>, bytes: seq<byte>, k: nat) {
    LeavesAt(names, p, bytes, k) && p + bytes[..k] in names && !IsIdentTail(bytes[k])
  }

  /** The walk completes exactly when the longest live prefix is a name followed by a non-identifier byte. */
  lemma {:induction false} CompleteMeaning(names: set<seq<byte>>, p: seq<byte>, bytes: seq<byte>)
    ensures Judge(names, p, bytes) == Completes <==> exists k: nat :: EndsNameAt(names, p, bytes, k)
    decreases |bytes|
  {
    if bytes != [] {
      var q, rest := p + [bytes[0]], bytes[1..];
      if Live(names, q) {
        CompleteMeaning(names, q, rest);
        if k: nat :| EndsNameAt(names, p, bytes, k) {
          LeavesAtShift(names, p, bytes, k);
          assert EndsNameAt(names, q, rest, k - 1);
        }
        if k: nat :| EndsNameAt(names, q, rest, k) {
          LeavesAtShift(names, p, bytes, k + 1);
          assert EndsNameAt(names, p, bytes, k + 1);
        }
      } else {
        forall k: nat ensures EndsNameAt(names, p, bytes, k) <==> k == 0 && p in names && !IsIdentTail(bytes[0]) {
          LeavesAtOnce(names, p, bytes, k);
          if k == 0 { assert p + bytes[..0] == p; }
        }
        assert EndsNameAt(names, p, bytes, 0) <==> p in names && !IsIdentTail(bytes[0]);
      }
    }
  }
}
