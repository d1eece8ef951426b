/** The schema overlay: which tokens keep a legal name reachable, and the memo that computes them fast. */
module Narrowing {
  import opened Bytes
  import opened Model
  import opened BitMasks
  import opened Compiled
  import opened Tries
  import opened Lexemes
  import opened Scopes

  datatype TrieKind = IdentRule | StringRule

  // ----- the legal sets, from the names alone -----

  /** Every name the schema mentions as a member anywhere. */
  ghost function AllMemberNames(schema: Schema): set<Name> {
    (set c, p | c in schema.classes && p in schema.classes[c].properties :: p.name)
    + (set c, p | c in schema.classes && p in schema.classes[c].qualified :: p.name)
    + (set c, s | c in schema.navigable && s in schema.navigable[c] :: s.prop)
  }

  ghost function MemberSet(schema: Schema, c: Name): (members: set<Name>)
    ensures forall x :: x in members <==> IsMember(schema, c, x)
  {
    set x | x in AllMemberNames(schema) && IsMember(schema, c, x)
  }

  /** The binder keyword, legal wherever a block statement may start. */
  const LET_KEYWORD: Name := Ascii("let")

  /** The names a position admits. */
  ghost function LegalNames(pos: L2Position, columns: seq<seq<byte>>, schema: Schema): set<Name> {
    match pos
    case SourceIdent => schema.SourcePaths() + {LET_KEYWORD}
    case Member(c) => MemberSet(schema, c)
    case Column => set c | c in columns :: Quote(c)
    case RelationColumn => set c | c in columns
    case _ => {}
  }

  function KindOf(pos: L2Position): TrieKind {
    if pos.Column? then StringRule else IdentRule
  }

  /** Whether a rule governs the token at all. */
  predicate IsCandidate(token: seq<byte>, kind: TrieKind, midLexeme: bool) {
    token != [] && match kind
                   case IdentRule => IsIdentTail(token[0])
                   case StringRule => token[0] == QUOTE || midLexeme
  }

  /** A governed token stays legal while it can still reach a name from the bytes already read. */
  ghost predicate Keeps(names: set<Name>, prefix: seq<byte>, kind: TrieKind, token: seq<byte>) {
    IsCandidate(token, kind, prefix != []) ==> !Judge(names, prefix, token).Diverges?
  }

  ghost function TrieMask(names: set<Name>, prefix: seq<byte>, kind: TrieKind, vocab: Vocab): set<nat> {
    (set id | 0 <= id < vocab.Len() && Keeps(names, prefix, kind, vocab.tokens[id])) + {vocab.EosBit()}
  }

  /** The bytes after the dot of a fused `.name` token. */
  function FusedPostDot(token: seq<byte>): Option<seq<byte>> {
    if |token| > 1 && token[0] == DOT && IsIdentStart(token[1]) then Some(token[1..]) else None
  }

  ghost predicate FusedKeeps(names: set<Name>, token: seq<byte>) {
    match FusedPostDot(token)
    case Some(rest) => !Judge(names, [], rest).Diverges?
    case None => true
  }

  ghost function FusedMask(names: set<Name>, vocab: Vocab): set<nat> {
    (set id | 0 <= id < vocab.Len() && FusedKeeps(names, vocab.tokens[id])) + {vocab.EosBit()}
  }

  /** Whether an operand of this lexical class fits a comparison whose left side has class `lhs`. */
  predicate KeepsOperand(lex: Lexeme, lhs: TypeClass) {
    match lex
    case StringLit(_) => lhs == Text
    case NumberLit => lhs == Numeric
    case DateLit => lhs == Temporal
    case _ => true
  }

  ghost function OperandMask(lhs: TypeClass, vocab: Vocab): set<nat> {
    (set id | 0 <= id < vocab.Len() && KeepsOperand(Classify(vocab.tokens[id]), lhs)) + {vocab.EosBit()}
  }

  /** The legal token set at a position, or `None` when the position constrains nothing. */
  ghost function NarrowSet(pos: L2Position, prefix: seq<byte>, columns: seq<seq<byte>>, schema: Schema, vocab: Vocab)
    : Option<set<nat>>
  {
    match pos
    case Unconstrained => None
    case ReValue(lhs) => if lhs == Truth || lhs == Temporal then None else Some(OperandMask(lhs, vocab))
    case _ =>
      var names := LegalNames(pos, columns, schema);
      if Judge(names, [], prefix).Stays? then Some(TrieMask(names, prefix, KindOf(pos), vocab)) else None
  }

  ghost function FusedSet(pos: L2Position, columns: seq<seq<byte>>, schema: Schema, vocab: Vocab): Option<set<nat>> {
    if pos.Member? || pos.RelationColumn? then Some(FusedMask(LegalNames(pos, columns, schema), vocab)) else None
  }

  // ----- what the legal sets mean -----

  lemma PrefixOfNameStays(names: set<Name>, name: Name, p: seq<byte>, f: seq<byte>)
    requires name in names && p + f <= name
    ensures Judge(names, p, f).Stays?
  {
    if f != [] { StayMeaning(names, p, f); }
  }

  /** A token that continues a prefix of a legal name to a longer prefix is kept from that prefix. */
  lemma ContinuationIsKept(pos: L2Position, columns: seq<seq<byte>>, schema: Schema, vocab: Vocab,
                           name: Name, p: seq<byte>, id: nat)
    requires pos.SourceIdent? || pos.Member? || pos.Column? || pos.RelationColumn?
    requires id < vocab.Len() && name in LegalNames(pos, columns, schema) && p + vocab.tokens[id] <= name
    ensures var kept := NarrowSet(pos, p, columns, schema, vocab); kept.Some? && id in kept.value
  {
    var names := LegalNames(pos, columns, schema);
    assert [] + p == p;
    PrefixOfNameStays(names, name, [], p);
    PrefixOfNameStays(names, name, p, vocab.tokens[id]);
  }

  /** A token that finishes a legal name and goes on with a byte no identifier and no longer name continues
      with is kept. */
  lemma FinishingFragmentIsKept(pos: L2Position, columns: seq<seq<byte>>, schema: Schema, vocab: Vocab,
                                p: seq<byte>, f: seq<byte>, b: byte, rest: seq<byte>, id: nat)
    requires pos.SourceIdent? || pos.Member? || pos.Column? || pos.RelationColumn?
    requires p + f in LegalNames(pos, columns, schema) && !IsIdentTail(b)
    requires !Live(LegalNames(pos, columns, schema), p + f + [b])
    requires id < vocab.Len() && vocab.tokens[id] == f + [b] + rest
    ensures var kept := NarrowSet(pos, p, columns, schema, vocab); kept.Some? && id in kept.value
  {
    var names, token := LegalNames(pos, columns, schema), f + [b] + rest;
    assert [] + p == p;
    PrefixOfNameStays(names, p + f, [], p);
    assert token[..|f|] == f && token[..|f| + 1] == f + [b];
    assert p + token[..|f| + 1] == p + f + [b];
    assert Live(names, p + f);
    assert EndsNameAt(names, p, token, |f|);
    CompleteMeaning(names, p, token);
  }

  /** Exactly which governed tokens are cleared: those that are no prefix of a name from here, and do not
      finish one before a byte that ends it. */
  lemma ClearedExactly(names: set<Name>, p: seq<byte>, kind: TrieKind, token: seq<byte>)
    ensures Keeps(names, p, kind, token)
       <==> (!IsCandidate(token, kind, p != []) || Live(names, p + token)
             || exists k: nat :: EndsNameAt(names, p, token, k))
  {
    if token != [] { StayMeaning(names, p, token); }
    CompleteMeaning(names, p, token);
  }

  /** The fused pass keeps every fragment of a real member behind its dot, and every token that is not a
      dot followed by an identifier. */
  lemma FusedFragmentIsKept(names: set<Name>, name: Name, f: seq<byte>, token: seq<byte>)
    requires name in names && f <= name
    requires token == [DOT] + f || FusedPostDot(token).None?
    ensures FusedKeeps(names, token)
  {
    if FusedPostDot(token).Some? {
      assert token[1..] == f && [] + f == f;
      PrefixOfNameStays(names, name, [], f);
    }
  }

  /** Every legal set keeps the end-of-stream bit. */
  lemma LegalSetsKeepEos(pos: L2Position, prefix: seq<byte>, columns: seq<seq<byte>>, schema: Schema, vocab: Vocab)
    ensures var kept := NarrowSet(pos, prefix, columns, schema, vocab); kept.Some? ==> vocab.EosBit() in kept.value
    ensures var kept := FusedSet(pos, columns, schema, vocab); kept.Some? ==> vocab.EosBit() in kept.value
  {
  }

  // ----- the memo -----

  /** What identifies a memoized rule. Column sets are named by how many columns they hold. */
  datatype CacheKey =
    | SourceKey
    | MemberKey(class_: Name)
    | ColumnKey(count: nat)
    | RelationColumnKey(count: nat)
    | FusedMemberKey(class_: Name)
    | FusedRelationColumnKey(count: nat)

  datatype RuleCache = RuleCache(trie: seq<Node>, kind: TrieKind, masks: map<nat, MaskValue>)

  /** The position whose names a key stands for, over the columns it was made for. */
  function KeyPosition(key: CacheKey): L2Position {
    match key
    case SourceKey => SourceIdent
    case MemberKey(c) => Member(c)
    case ColumnKey(_) => Column
    case RelationColumnKey(_) => RelationColumn
    case FusedMemberKey(c) => Member(c)
    case FusedRelationColumnKey(_) => RelationColumn
  }

  predicate IsFused(key: CacheKey) {
    key.FusedMemberKey? || key.FusedRelationColumnKey?
  }

  function ColumnCount(key: CacheKey): nat {
    match key
    case ColumnKey(n) => n
    case RelationColumnKey(n) => n
    case FusedRelationColumnKey(n) => n
    case _ => 0
  }

  /** The names a key stands for: a column key sees only the columns there were when it was made. */
  ghost function KeyNames(key: CacheKey, columns: seq<seq<byte>>, schema: Schema): set<Name>
    requires ColumnCount(key) <= |columns|
  {
    LegalNames(KeyPosition(key), columns[..ColumnCount(key)], schema)
  }

  ghost function KeyMask(key: CacheKey, names: set<Name>, p: seq<byte>, vocab: Vocab): set<nat> {
    if IsFused(key) then FusedMask(names, vocab) else TrieMask(names, p, KindOf(KeyPosition(key)), vocab)
  }

  ghost predicate MaskIs(mask: MaskValue, ids: set<nat>, vocab: Vocab) {
    mask.len == vocab.MaskLen() && mask.WellSized() && mask.Clean() && mask.Ids() == ids
  }

  /** A memoized rule is what a fresh computation would give, at every cursor it was asked for. */
  ghost predicate RuleFits(rule: RuleCache, key: CacheKey, names: set<Name>, vocab: Vocab) {
    && TrieOf(rule.trie, names)
    && rule.kind == KindOf(KeyPosition(key))
    && (forall p :: CursorFits(rule, key, names, vocab, p))
  }

  ghost predicate CursorFits(rule: RuleCache, key: CacheKey, names: set<Name>, vocab: Vocab, p: seq<byte>) {
    At(rule.trie, p).Some? && At(rule.trie, p).value in rule.masks ==>
      MaskIs(rule.masks[At(rule.trie, p).value], KeyMask(key, names, p, vocab), vocab)
  }

  ghost predicate MemoFits(tries: map<CacheKey, RuleCache>, key: CacheKey, columns: seq<seq<byte>>, schema: Schema,
                           vocab: Vocab) {
    key in tries ==> ColumnCount(key) <= |columns| && RuleFits(tries[key], key, KeyNames(key, columns, schema), vocab)
  }

  /** Columns only ever get appended, so a key's names never change under it. */
  lemma EntrySurvivesAppend(tries: map<CacheKey, RuleCache>, key: CacheKey, columns: seq<seq<byte>>,
                            longer: seq<seq<byte>>,
                            schema: Schema, vocab: Vocab)
    requires MemoFits(tries, key, columns, schema, vocab) && columns <= longer
    ensures MemoFits(tries, key, longer, schema, vocab)
  {
    if key in tries {
      assert longer[..ColumnCount(key)] == columns[..ColumnCount(key)];
    }
  }

  class NarrowCache {
    var operand: map<TypeClass, MaskValue>
    var tries: map<CacheKey, RuleCache>

    ghost predicate Valid(columns: seq<seq<byte>>, schema: Schema, vocab: Vocab)
      reads this
    {
      && (forall lhs :: lhs in operand ==> MaskIs(operand[lhs], OperandMask(lhs, vocab), vocab))
      && (forall key :: MemoFits(tries, key, columns, schema, vocab))
    }

    constructor ()
      ensures operand == map[] && tries == map[]
      ensures forall columns, schema, vocab :: Valid(columns, schema, vocab)
    {
      operand := map[];
      tries := map[];
    }

    method Clear()
      modifies this
      ensures operand == map[] && tries == map[]
      ensures forall columns, schema, vocab :: Valid(columns, schema, vocab)
    {
      operand := map[];
      tries := map[];
    }

    lemma SurvivesAppend(columns: seq<seq<byte>>, longer: seq<seq<byte>>, schema: Schema, vocab: Vocab)
      requires Valid(columns, schema, vocab) && columns <= longer
      ensures Valid(longer, schema, vocab)
    {
      forall key ensures MemoFits(tries, key, longer, schema, vocab) {
        EntrySurvivesAppend(tries, key, columns, longer, schema, vocab);
      }
    }
  }

  // ----- building and filling -----

  method SourceNames(schema: Schema) returns (names: seq<Name>)
    ensures (set i | 0 <= i < |names| :: names[i]) == LegalNames(SourceIdent, [], schema)
  {
    names := [];
    var keys := schema.classes.Keys;
    while keys != {}
      invariant keys <= schema.classes.Keys
      invariant forall x :: x in names <==> x in schema.classes.Keys - keys
    {
      var k :| k in keys;
      names := names + [k];
      keys := keys - {k};
    }
    names := names + [schema.dbPath] + [LET_KEYWORD];
    assert forall x :: x in names <==> x in LegalNames(SourceIdent, [], schema);
    ElementsOf(names, LegalNames(SourceIdent, [], schema));
  }

  lemma ElementsOf(names: seq<Name>, all: set<Name>)
    requires forall x :: x in names <==> x in all
    ensures (set i | 0 <= i < |names| :: names[i]) == all
  {
  }

  method ColumnNames(columns: seq<seq<byte>>) returns (names: seq<Name>)
    ensures (set i | 0 <= i < |names| :: names[i]) == set c | c in columns :: Quote(c)
  {
    names := [];
    var i := 0;
    while i < |columns|
      invariant 0 <= i <= |columns| && |names| == i
      invariant forall k :: 0 <= k < i ==> names[k] == Quote(columns[k])
    {
      var quoted := QuoteBytes(columns[i]);
      names := names + [quoted];
      i := i + 1;
    }
  }

  /** The names of a key, collected when its trie is first needed. */
  method NamesFor(key: CacheKey, columns: seq<seq<byte>>, schema: Schema) returns (names: seq<Name>)
    requires ColumnCount(key) <= |columns|
    requires key.ColumnKey? || key.RelationColumnKey? || key.FusedRelationColumnKey? ==> ColumnCount(key) == |columns|
    ensures (set i | 0 <= i < |names| :: names[i]) == KeyNames(key, columns, schema)
  {
    assert columns[..|columns|] == columns;
    match key {
      case SourceKey =>
        names := SourceNames(schema);
      case MemberKey(c) =>
        names := MemberNames(schema, c);
      case FusedMemberKey(c) =>
        names := MemberNames(schema, c);
      case ColumnKey(_) =>
        names := ColumnNames(columns);
      case RelationColumnKey(_) =>
        names := columns;
      case FusedRelationColumnKey(_) =>
        names := columns;
    }
  }

  /** Refill `dst` from a trie walk at the cursor of `prefix`. */
  method FillTrie(dst: BitMask, vocab: Vocab, trie: seq<Node>, cursor: nat, kind: TrieKind, ghost names: set<Name>,
                  ghost prefix: seq<byte>)
    requires dst.Valid() && dst.len == vocab.MaskLen()
    requires TrieOf(trie, names) && At(trie, prefix) == Some(cursor)
    modifies dst
    ensures dst.Valid() && dst.Ids() == TrieMask(names, prefix, kind, vocab)
  {
    dst.ClearAll();
    AtInArena(trie, prefix);
    assert Distinct(trie, prefix, []);
    var mid := cursor != ROOT;
    var id := 0;
    while id < vocab.Len()
      invariant 0 <= id <= vocab.Len() && dst.Valid()
      invariant forall k: nat :: k in dst.Ids() <==> k < id && Keeps(names, prefix, kind, vocab.tokens[k])
    {
      var token := vocab.tokens[id];
      var keep := true;
      if IsCandidate(token, kind, mid) {
        var walk := WalkTrie(trie, cursor, token);
        WalkIsJudged(trie, names, prefix, token);
        keep := !walk.Diverge?;
      }
      if keep {
        dst.Set(id);
      }
      id := id + 1;
    }
    dst.Set(vocab.EosBit());
  }

  method FillFusedTrie(dst: BitMask, vocab: Vocab, trie: seq<Node>, ghost names: set<Name>)
    requires dst.Valid() && dst.len == vocab.MaskLen() && TrieOf(trie, names)
    modifies dst
    ensures dst.Valid() && dst.Ids() == FusedMask(names, vocab)
  {
    dst.ClearAll();
    var id := 0;
    while id < vocab.Len()
      invariant 0 <= id <= vocab.Len() && dst.Valid()
      invariant forall k: nat :: k in dst.Ids() <==> k < id && FusedKeeps(names, vocab.tokens[k])
    {
      var keep := true;
      var rest := FusedPostDot(vocab.tokens[id]);
      if rest.Some? {
        var walk := WalkTrie(trie, ROOT, rest.value);
        WalkIsJudged(trie, names, [], rest.value);
        keep := !walk.Diverge?;
      }
      if keep {
        dst.Set(id);
      }
      id := id + 1;
    }
    dst.Set(vocab.EosBit());
  }

  method FillOperand(dst: BitMask, vocab: Vocab, lhs: TypeClass)
    requires dst.Valid() && dst.len == vocab.MaskLen()
    modifies dst
    ensures dst.Valid() && dst.Ids() == OperandMask(lhs, vocab)
  {
    dst.ClearAll();
    var id := 0;
    while id < vocab.Len()
      invariant 0 <= id <= vocab.Len() && dst.Valid()
      invariant forall k: nat :: k in dst.Ids() <==> k < id && KeepsOperand(Classify(vocab.tokens[k]), lhs)
    {
      if KeepsOperand(Classify(vocab.tokens[id]), lhs) {
        dst.Set(id);
      }
      id := id + 1;
    }
    dst.Set(vocab.EosBit());
  }

  // ----- the memoized overlay -----

  /** The memoized mask at a cursor is the freshly computed one. */
  lemma MemoHit(tries: map<CacheKey, RuleCache>, key: CacheKey, p: seq<byte>, columns: seq<seq<byte>>, schema: Schema,
                vocab: Vocab)
    requires MemoFits(tries, key, columns, schema, vocab) && key in tries
    requires At(tries[key].trie, p).Some? && At(tries[key].trie, p).value in tries[key].masks
    ensures ColumnCount(key) <= |columns|
    ensures MaskIs(tries[key].masks[At(tries[key].trie, p).value], KeyMask(key, KeyNames(key, columns, schema), p,
            vocab), vocab)
  {
    assert CursorFits(tries[key], key, KeyNames(key, columns, schema), vocab, p);
  }

  /** Remembering a mask at the cursor it was computed for keeps the rule right at every cursor. */
  lemma Remembered(rule: RuleCache, key: CacheKey, names: set<Name>, vocab: Vocab, p: seq<byte>, mask: MaskValue)
    requires RuleFits(rule, key, names, vocab) && At(rule.trie, p).Some?
    requires MaskIs(mask, KeyMask(key, names, p, vocab), vocab)
    ensures RuleFits(rule.(masks := rule.masks[At(rule.trie, p).value := mask]), key, names, vocab)
  {
    var cursor := At(rule.trie, p).value;
    var more := rule.(masks := rule.masks[cursor := mask]);
    forall q ensures CursorFits(more, key, names, vocab, q) {
      assert CursorFits(rule, key, names, vocab, q);
      assert Distinct(rule.trie, p, q);
    }
  }

  /** A rule just built holds no masks yet. */
  lemma FreshRuleFits(trie: seq<Node>, key: CacheKey, names: set<Name>, vocab: Vocab)
    requires TrieOf(trie, names)
    ensures RuleFits(RuleCache(trie, KindOf(KeyPosition(key)), map[]), key, names, vocab)
  {
    var rule := RuleCache(trie, KindOf(KeyPosition(key)), map[]);
    forall p ensures CursorFits(rule, key, names, vocab, p) {
    }
  }

  lemma MemoUpdated(tries: map<CacheKey, RuleCache>, key: CacheKey, rule: RuleCache, more: map<CacheKey, RuleCache>,
                    columns: seq<seq<byte>>, schema: Schema, vocab: Vocab)
    requires forall k :: MemoFits(tries, k, columns, schema, vocab)
    requires ColumnCount(key) <= |columns| && RuleFits(rule, key, KeyNames(key, columns, schema), vocab)
    requires more == tries[key := rule]
    ensures forall k :: MemoFits(more, k, columns, schema, vocab)
  {
    forall k ensures MemoFits(more, k, columns, schema, vocab) {
      assert MemoFits(tries, k, columns, schema, vocab);
    }
  }

  /** The key names the columns there are now. */
  predicate KeyIsCurrent(key: CacheKey, columns: seq<seq<byte>>) {
    key.ColumnKey? || key.RelationColumnKey? || key.FusedRelationColumnKey? ==> ColumnCount(key) == |columns|
  }

  /** Build the rule of a key on its first use. */
  method EnsureRule(cache: NarrowCache, key: CacheKey, columns: seq<seq<byte>>, schema: Schema, vocab: Vocab)
    requires cache.Valid(columns, schema, vocab) && KeyIsCurrent(key, columns)
    modifies cache
    ensures cache.Valid(columns, schema, vocab) && key in cache.tries && ColumnCount(key) <= |columns|
  {
    if key !in cache.tries {
      var names := NamesFor(key, columns, schema);
      var trie := FromNames(names);
      FreshRuleFits(trie.nodes, key, KeyNames(key, columns, schema), vocab);
      var rule := RuleCache(trie.nodes, KindOf(KeyPosition(key)), map[]);
      MemoUpdated(cache.tries, key, rule, cache.tries[key := rule], columns, schema, vocab);
      cache.tries := cache.tries[key := rule];
    }
    assert MemoFits(cache.tries, key, columns, schema, vocab);
  }

  /** Copy the memoized mask of a cursor, or fill and remember it. */
  method RecallOrFill(dst: BitMask, cache: NarrowCache, key: CacheKey, cursor: nat, ghost prefix: seq<byte>,
                      columns: seq<seq<byte>>, schema: Schema, vocab: Vocab)
    requires dst.Valid() && dst.len == vocab.MaskLen()
    requires cache.Valid(columns, schema, vocab) && key in cache.tries && ColumnCount(key) <= |columns|
    requires At(cache.tries[key].trie, prefix) == Some(cursor) && (IsFused(key) ==> cursor == ROOT)
    modifies dst, cache
    ensures dst.Valid() && dst.Ids() == KeyMask(key, KeyNames(key, columns, schema), prefix, vocab)
    ensures cache.Valid(columns, schema, vocab)
  {
    ghost var names := KeyNames(key, columns, schema);
    assert MemoFits(cache.tries, key, columns, schema, vocab);
    var rule := cache.tries[key];
    if cursor in rule.masks {
      MemoHit(cache.tries, key, prefix, columns, schema, vocab);
      CopiedIds(dst.Value(), rule.masks[cursor]);
      dst.CopyFrom(rule.masks[cursor]);
    } else {
      if IsFused(key) {
        FillFusedTrie(dst, vocab, rule.trie, names);
      } else {
        FillTrie(dst, vocab, rule.trie, cursor, rule.kind, names, prefix);
      }
      Remembered(rule, key, names, vocab, prefix, dst.Value());
      var more := rule.(masks := rule.masks[cursor := dst.Value()]);
      MemoUpdated(cache.tries, key, more, cache.tries[key := more], columns, schema, vocab);
      cache.tries := cache.tries[key := more];
    }
  }

  /** Narrow by a trie rule: walk the prefix to its cursor, then recall or fill that cursor's mask. */
  method NarrowTrie(dst: BitMask, cache: NarrowCache, key: CacheKey, prefix: seq<byte>, columns: seq<seq<byte>>,
                    schema: Schema, vocab: Vocab) returns (applied: bool)
    requires dst.Valid() && dst.len == vocab.MaskLen() && cache.Valid(columns, schema, vocab)
    requires KeyIsCurrent(key, columns) && !IsFused(key)
    modifies dst, cache
    ensures dst.Valid() && cache.Valid(columns, schema, vocab)
    ensures var kept := NarrowSet(KeyPosition(key), prefix, columns, schema, vocab);
            (applied <==> kept.Some?) && (applied ==> dst.Ids() == kept.value)
  {
    EnsureRule(cache, key, columns, schema, vocab);
    KeyNamesAreCurrent(key, columns, schema);
    ghost var names := KeyNames(key, columns, schema);
    assert MemoFits(cache.tries, key, columns, schema, vocab);
    var trie := cache.tries[key].trie;
    assert [] + prefix == prefix;
    WalkIsJudged(trie, names, [], prefix);
    var cursor: nat := ROOT;
    if prefix != [] {
      var walk := WalkTrie(trie, ROOT, prefix);
      match walk {
        case Stay(node) =>
          cursor := node;
        case Complete =>
          return false;
        case Diverge =>
          return false;
      }
    }
    RecallOrFill(dst, cache, key, cursor, prefix, columns, schema, vocab);
    return true;
  }

  lemma KeyNamesAreCurrent(key: CacheKey, columns: seq<seq<byte>>, schema: Schema)
    requires KeyIsCurrent(key, columns) && ColumnCount(key) <= |columns|
    ensures KeyNames(key, columns, schema) == LegalNames(KeyPosition(key), columns, schema)
  {
    assert columns[..|columns|] == columns;
  }

  method NarrowFusedTrie(dst: BitMask, cache: NarrowCache, key: CacheKey, columns: seq<seq<byte>>, schema: Schema,
                         vocab: Vocab)
    requires dst.Valid() && dst.len == vocab.MaskLen() && cache.Valid(columns, schema, vocab)
    requires KeyIsCurrent(key, columns) && IsFused(key)
    modifies dst, cache
    ensures dst.Valid() && cache.Valid(columns, schema, vocab)
    ensures FusedSet(KeyPosition(key), columns, schema, vocab) == Some(dst.Ids())
  {
    EnsureRule(cache, key, columns, schema, vocab);
    KeyNamesAreCurrent(key, columns, schema);
    RecallOrFill(dst, cache, key, ROOT, [], columns, schema, vocab);
  }

  /** The operand lever, memoized per class. */
  method NarrowOperand(dst: BitMask, cache: NarrowCache, lhs: TypeClass, columns: seq<seq<byte>>, schema: Schema,
                       vocab: Vocab)
    requires dst.Valid() && dst.len == vocab.MaskLen() && cache.Valid(columns, schema, vocab)
    modifies dst, cache
    ensures dst.Valid() && dst.Ids() == OperandMask(lhs, vocab) && cache.Valid(columns, schema, vocab)
  {
    if lhs in cache.operand {
      CopiedIds(dst.Value(), cache.operand[lhs]);
      dst.CopyFrom(cache.operand[lhs]);
    } else {
      FillOperand(dst, vocab, lhs);
      cache.operand := cache.operand[lhs := dst.Value()];
    }
  }

  /** Refill `dst` with the legal set of a position; false when the position constrains nothing. */
  method NarrowInto(dst: BitMask, cache: NarrowCache, schema: Schema, pos: L2Position, prefix: seq<byte>,
                    columns: seq<seq<byte>>, vocab: Vocab) returns (applied: bool)
    requires dst.Valid() && dst.len == vocab.MaskLen() && cache.Valid(columns, schema, vocab)
    modifies dst, cache
    ensures dst.Valid() && cache.Valid(columns, schema, vocab)
    ensures var kept := NarrowSet(pos, prefix, columns, schema, vocab);
            (applied <==> kept.Some?) && (applied ==> dst.Ids() == kept.value)
  {
    match pos {
      case Unconstrained =>
        applied := false;
      case ReValue(lhs) =>
        if lhs == Truth || lhs == Temporal {
          applied := false;
        } else {
          NarrowOperand(dst, cache, lhs, columns, schema, vocab);
          applied := true;
        }
      case SourceIdent =>
        applied := NarrowTrie(dst, cache, SourceKey, prefix, columns, schema, vocab);
      case Member(c) =>
        applied := NarrowTrie(dst, cache, MemberKey(c), prefix, columns, schema, vocab);
      case Column =>
        applied := NarrowTrie(dst, cache, ColumnKey(|columns|), prefix, columns, schema, vocab);
      case RelationColumn =>
        applied := NarrowTrie(dst, cache, RelationColumnKey(|columns|), prefix, columns, schema, vocab);
    }
  }

  /** The second, subtractive pass over fused `.name` tokens. */
  method NarrowFusedInto(dst: BitMask, cache: NarrowCache, schema: Schema, pos: L2Position, columns: seq<seq<byte>>,
                         vocab: Vocab)
    returns (applied: bool)
    requires dst.Valid() && dst.len == vocab.MaskLen() && cache.Valid(columns, schema, vocab)
    modifies dst, cache
    ensures dst.Valid() && cache.Valid(columns, schema, vocab)
    ensures var kept := FusedSet(pos, columns, schema, vocab);
            (applied <==> kept.Some?) && (applied ==> dst.Ids() == kept.value)
  {
    match pos {
      case Member(c) =>
        NarrowFusedTrie(dst, cache, FusedMemberKey(c), columns, schema, vocab);
        applied := true;
      case RelationColumn =>
        NarrowFusedTrie(dst, cache, FusedRelationColumnKey(|columns|), columns, schema, vocab);
        applied := true;
      case _ =>
        applied := false;
    }
  }
}
