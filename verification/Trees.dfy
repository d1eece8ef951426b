/** Trees of Pure values, the parts they are written in, and that whatever they build is a sentence. */
module Trees {
  import opened Bytes
  import opened Automaton
  import opened Model
  import opened Syntax

  type Identifier = name: Name | IsIdent(name) witness [LOWER_A]

  /** A value of one part. */
  type Atom = part: Part | WellSpelled(part) && BeginsValue(part) && Wanted(Some(part)).More? witness Part.Text([])

  datatype Path = Path(head: Identifier, rest: seq<Identifier>)

  /** The multiplicity of a typed binder: one of a count, or any. */
  type Count = n: Numeral | IsNumeral(n) witness Numeral(false, [ZERO], None)

  datatype Annotation = Annotation(path: Path, count: Option<Count>)

  /** `{first, more | body}`, the first binder perhaps typed. */
  datatype Curly = Curly(first: Identifier, typed: Option<Annotation>, more: seq<Tree>, body: Tree)

  datatype Tree =
    | Leaf(atom: Atom)
    | PathTo(path: Path)
    | Dotted(of: Tree, name: Identifier)
    | Applied(of: Tree, args: seq<Tree>)
    | Arrowed(of: Tree, method_: Identifier, args: seq<Tree>)
    | Grouped(inner: Tree)
    | Listed(args: seq<Tree>)
    | ColumnList(args: seq<Tree>)
    | Infixed(left: Tree, op: Operator, right: Tree)
    | Bodied(body: Tree)
    | Annotated(of: Tree, annotation: Annotation)
    | Colonned(of: Tree, name: Identifier)
    | Braced(brace: Curly)
    | ColonBraced(of: Tree, brace: Curly)

  // ----- the parts of a tree -----

  /** Where a tree stands: at the head of a pipeline, of a block statement or not, or anywhere else. */
  datatype Place = InValue | AtSource(inBlock: bool)

  function ScopedParts(names: seq<Identifier>): seq<Part>
    decreases |names|
  {
    if names == [] then [] else [Scoped(names[0])] + ScopedParts(names[1..])
  }

  function UnderParts(names: seq<Identifier>): seq<Part>
    decreases |names|
  {
    if names == [] then [] else [Under(names[0])] + UnderParts(names[1..])
  }

  function PathParts(path: Path, place: Place): seq<Part> {
    match place
    case InValue => [Word(path.head)] + ScopedParts(path.rest)
    case AtSource(inBlock) => [Source(inBlock, path.head)] + UnderParts(path.rest)
  }

  function AnnotationParts(a: Annotation): seq<Part> {
    [Colon, Part.Member(a.path.head)] + ScopedParts(a.path.rest)
    + [Open(Bracket), CountPart(a.count), Close(Bracket)]
  }

  function Parts(t: Tree, place: Place): seq<Part>
    decreases t, 1
  {
    match t
    case Leaf(atom) => [atom]
    case PathTo(path) => PathParts(path, place)
    case Dotted(of, name) => Parts(of, place) + [Dot, Part.Member(name)]
    case Applied(of, args) => Parts(of, place) + ([Open(Paren)] + ArgParts(args) + [Close(Paren)])
    case Arrowed(of, m, args) =>
      Parts(of, place) + ([Arrow, Part.Member(m)] + ([Open(Paren)] + ArgParts(args) + [Close(Paren)]))
    case Grouped(inner) => [Open(Paren)] + Parts(inner, InValue) + [Close(Paren)]
    case Listed(args) => [Open(Bracket)] + ArgParts(args) + [Close(Bracket)]
    case ColumnList(args) => [OpenColumns] + ArgParts(args) + [Close(Bracket)]
    case Infixed(left, op, right) => Parts(left, place) + ([Infix(op)] + Parts(right, InValue))
    case Bodied(body) => [BodyBar] + Parts(body, InValue)
    case Annotated(of, a) => Parts(of, place) + AnnotationParts(a)
    case Colonned(of, name) => Parts(of, place) + [Colon, Part.Member(name)]
    case Braced(brace) => BraceParts(brace)
    case ColonBraced(of, brace) => Parts(of, place) + ([Colon] + BraceParts(brace))
  }

  function ArgParts(args: seq<Tree>): seq<Part>
    decreases args, 0
  {
    if args == [] then []
    else if |args| == 1 then Parts(args[0], InValue)
    else Parts(args[0], InValue) + [Comma] + ArgParts(args[1..])
  }

  /** The binders behind the first name of `{first, more | body}`. */
  function BinderParts(brace: Curly): seq<Part>
    decreases brace, 0
  {
    (match brace.typed case Some(a) => AnnotationParts(a) case None => [])
    + (if brace.more == [] then [] else [Comma] + ArgParts(brace.more))
  }

  function BraceParts(brace: Curly): seq<Part>
    decreases brace, 1
  {
    [OpenLambda]
    + ([Word(brace.first)] + (BinderParts(brace) + ([Infix(Bar)] + Parts(brace.body, InValue))))
    + [Close(BraceLambda)]
  }

  // ----- parts in order -----

  /** What is wanted next, and the delimiters open. */
  datatype Stage = Stage(want: Want, stack: seq<Frame>)

  predicate PartFits(stage: Stage, part: Part) {
    WellSpelled(part) && Serves(stage.want, part) && Nested(stage.stack, part).Some?
  }

  function PartPlaced(stage: Stage, part: Part): Stage
    requires PartFits(stage, part)
  {
    Stage(Wanted(Some(part)), Nested(stage.stack, part).value)
  }

  /** How far the parts come, whatever the gaps between them. */
  function FollowParts(stage: Stage, parts: seq<Part>): Option<Stage>
    decreases |parts|
  {
    if parts == [] then Some(stage)
    else if PartFits(stage, parts[0]) then FollowParts(PartPlaced(stage, parts[0]), parts[1..])
    else None
  }

  lemma {:induction false} PartsConcat(stage: Stage, front: seq<Part>, back: seq<Part>)
    ensures FollowParts(stage, front + back)
         == match FollowParts(stage, front) case None => None case Some(mid) => FollowParts(mid, back)
    decreases |front|
  {
    if front == [] {
      assert front + back == back;
    } else {
      assert (front + back)[0] == front[0] && (front + back)[1..] == front[1..] + back;
      if PartFits(stage, front[0]) { PartsConcat(PartPlaced(stage, front[0]), front[1..], back); }
    }
  }

  lemma OnePart(stage: Stage, part: Part)
    ensures FollowParts(stage, [part]) == if PartFits(stage, part) then Some(PartPlaced(stage, part)) else None
  {
    assert [part][1..] == [];
  }

  lemma TwoParts(stage: Stage, first: Part, second: Part)
    ensures FollowParts(stage, [first, second])
         == if PartFits(stage, first) then FollowParts(PartPlaced(stage, first), [second]) else None
  {
    assert [first, second][1..] == [second];
  }

  /** The parts lead on from one stage to another. */
  predicate Leads(from: Stage, parts: seq<Part>, to: Stage) {
    FollowParts(from, parts) == Some(to)
  }

  lemma LeadsOn(from: Stage, front: seq<Part>, mid: Stage, back: seq<Part>, to: Stage)
    requires Leads(from, front, mid) && Leads(mid, back, to)
    ensures Leads(from, front + back, to)
  {
    PartsConcat(from, front, back);
  }

  function Value(inside: Option<Frame>, stack: seq<Frame>): Stage {
    Stage(Term(inside), stack)
  }

  function Done(stack: seq<Frame>): Stage {
    Stage(More, stack)
  }

  // ----- the parts of a tree, in order -----

  lemma {:induction false} ScopedFollow(names: seq<Identifier>, stack: seq<Frame>)
    ensures Leads(Done(stack), ScopedParts(names), Done(stack))
    decreases |names|
  {
    if names != [] {
      OnePart(Done(stack), Scoped(names[0]));
      ScopedFollow(names[1..], stack);
      LeadsOn(Done(stack), [Scoped(names[0])], Done(stack), ScopedParts(names[1..]), Done(stack));
    }
  }

  lemma {:induction false} UnderFollow(names: seq<Identifier>, stack: seq<Frame>)
    ensures Leads(Stage(SourceStep, stack), UnderParts(names), Stage(SourceStep, stack))
    decreases |names|
  {
    var here := Stage(SourceStep, stack);
    if names != [] {
      OnePart(here, Under(names[0]));
      UnderFollow(names[1..], stack);
      LeadsOn(here, [Under(names[0])], here, UnderParts(names[1..]), here);
    }
  }

  /** The stage at the head of a pipeline. */
  predicate AtHead(stage: Stage, inBlock: bool) {
    if inBlock then stage.want.Statement? else stage.want.SourceName?
  }

  lemma PathFollows(path: Path, inside: Option<Frame>, stack: seq<Frame>)
    ensures Leads(Value(inside, stack), PathParts(path, InValue), Done(stack))
  {
    OnePart(Value(inside, stack), Word(path.head));
    ScopedFollow(path.rest, stack);
    LeadsOn(Value(inside, stack), [Word(path.head)], Done(stack), ScopedParts(path.rest), Done(stack));
  }

  lemma SourcePathFollows(path: Path, inBlock: bool, from: Stage)
    requires AtHead(from, inBlock)
    ensures Leads(from, PathParts(path, AtSource(inBlock)), Stage(SourceStep, from.stack))
  {
    var mid := Stage(SourceStep, from.stack);
    OnePart(from, Source(inBlock, path.head));
    UnderFollow(path.rest, from.stack);
    LeadsOn(from, [Source(inBlock, path.head)], mid, UnderParts(path.rest), mid);
  }

  lemma MemberFollows(from: Stage, sign: Part, name: Identifier)
    requires from.want.More? || (from.want.SourceStep? && !sign.Colon?)
    requires sign.Dot? || sign.Arrow? || sign.Colon?
    ensures Leads(from, [sign, Part.Member(name)], Done(from.stack))
  {
    TwoParts(from, sign, Part.Member(name));
    OnePart(PartPlaced(from, sign), Part.Member(name));
  }

  /** A delimiter with the parts inside it. */
  lemma EnclosedFollows(from: Stage, open: Part, inner: seq<Part>, close: Part)
    requires PartFits(from, open) && (open.Open? || open.OpenColumns? || open.OpenLambda?)
    requires close == Close(if open.Open? then open.frame else if open.OpenColumns? then Bracket else BraceLambda)
    requires var mid := PartPlaced(from, open);
             Leads(mid, inner, Done(mid.stack)) || (inner == [] && !open.OpenLambda?)
    ensures Leads(from, [open] + inner + [close], Done(from.stack))
  {
    var mid := PartPlaced(from, open);
    var last := if inner == [] then mid else Done(mid.stack);
    OnePart(from, open);
    if inner != [] { LeadsOn(from, [open], mid, inner, last); } else { assert [open] + inner == [open]; }
    OnePart(last, close);
    LeadsOn(from, [open] + inner, last, [close], Done(from.stack));
  }

  function CountPart(count: Option<Count>): Part {
    match count case Some(n) => Part.Number(n) case None => Star
  }

  lemma CountFollows(count: Option<Count>, stack: seq<Frame>)
    ensures Leads(Done(stack), [Open(Bracket), CountPart(count), Close(Bracket)], Done(stack))
  {
    var inside := Stage(Term(Some(Bracket)), stack + [Bracket]);
    var parts := [Open(Bracket), CountPart(count), Close(Bracket)];
    assert parts[1..] == [CountPart(count), Close(Bracket)];
    TwoParts(inside, CountPart(count), Close(Bracket));
    OnePart(PartPlaced(inside, CountPart(count)), Close(Bracket));
  }

  lemma AnnotationFollows(a: Annotation, stack: seq<Frame>)
    ensures Leads(Done(stack), AnnotationParts(a), Done(stack))
  {
    var here := Done(stack);
    MemberFollows(here, Colon, a.path.head);
    ScopedFollow(a.path.rest, stack);
    CountFollows(a.count, stack);
    var head := [Colon, Part.Member(a.path.head)];
    LeadsOn(here, head, here, ScopedParts(a.path.rest), here);
    LeadsOn(here, head + ScopedParts(a.path.rest), here, [Open(Bracket), CountPart(a.count), Close(Bracket)], here);
  }

  /** Wherever a value is wanted, the parts of a tree make one. */
  lemma {:induction false} TreeFollows(t: Tree, inside: Option<Frame>, stack: seq<Frame>)
    ensures Leads(Value(inside, stack), Parts(t, InValue), Done(stack))
    decreases t, 1
  {
    var from, done := Value(inside, stack), Done(stack);
    match t
    case Leaf(atom) => OnePart(from, atom);
    case PathTo(path) => PathFollows(path, inside, stack);
    case Grouped(inner) => GroupFollows(inner, from);
    case Listed(args) => EnclosedArgsFollow(from, Open(Bracket), args, Close(Bracket));
    case ColumnList(args) => EnclosedArgsFollow(from, OpenColumns, args, Close(Bracket));
    case Bodied(body) => BodiedFollows(body, from);
    case Braced(brace) => BraceFollows(brace, from);
    case _ => GrownTreeFollows(t, inside, stack);
  }

  lemma {:induction false} GroupFollows(inner: Tree, from: Stage)
    requires from.want.Term?
    ensures Leads(from, [Open(Paren)] + Parts(inner, InValue) + [Close(Paren)], Done(from.stack))
    decreases inner, 2
  {
    TreeFollows(inner, Some(Paren), from.stack + [Paren]);
    EnclosedFollows(from, Open(Paren), Parts(inner, InValue), Close(Paren));
  }

  lemma {:induction false} BodiedFollows(body: Tree, from: Stage)
    requires from.want.Term?
    ensures Leads(from, [BodyBar] + Parts(body, InValue), Done(from.stack))
    decreases body, 2
  {
    OnePart(from, BodyBar);
    TreeFollows(body, None, from.stack);
    LeadsOn(from, [BodyBar], Value(None, from.stack), Parts(body, InValue), Done(from.stack));
  }

  /** The trees that go on from a smaller one. */
  predicate Grown(t: Tree) {
    t.Dotted? || t.Applied? || t.Arrowed? || t.Infixed? || t.Annotated? || t.Colonned? || t.ColonBraced?
  }

  function Stem(t: Tree): Tree
    requires Grown(t)
  {
    if t.Infixed? then t.left else t.of
  }

  lemma {:induction false} GrownTreeFollows(t: Tree, inside: Option<Frame>, stack: seq<Frame>)
    requires Grown(t)
    ensures Leads(Value(inside, stack), Parts(t, InValue), Done(stack))
    decreases t, 0
  {
    TreeFollows(Stem(t), inside, stack);
    GrowthFollows(t, Done(stack));
    PartsAreStemAndGrowth(t, InValue);
    LeadsOn(Value(inside, stack), Parts(Stem(t), InValue), Done(stack), Growth(t), Done(stack));
  }

  /** What a tree adds to its stem. */
  function Growth(t: Tree): seq<Part>
    requires Grown(t)
  {
    match t
    case Dotted(_, name) => [Dot, Part.Member(name)]
    case Applied(_, args) => [Open(Paren)] + ArgParts(args) + [Close(Paren)]
    case Arrowed(_, m, args) => [Arrow, Part.Member(m)] + ([Open(Paren)] + ArgParts(args) + [Close(Paren)])
    case Infixed(_, op, right) => [Infix(op)] + Parts(right, InValue)
    case Annotated(_, a) => AnnotationParts(a)
    case Colonned(_, name) => [Colon, Part.Member(name)]
    case ColonBraced(_, brace) => [Colon] + BraceParts(brace)
  }

  lemma PartsAreStemAndGrowth(t: Tree, place: Place)
    requires Grown(t)
    ensures Parts(t, place) == Parts(Stem(t), place) + Growth(t)
  {
  }

  lemma {:induction false} CallFollows(from: Stage, m: Identifier, args: seq<Tree>)
    requires from.want.More? || from.want.SourceStep?
    ensures Leads(from, [Arrow, Part.Member(m)] + ([Open(Paren)] + ArgParts(args) + [Close(Paren)]), Done(from.stack))
    decreases args, 2
  {
    var done := Done(from.stack);
    MemberFollows(from, Arrow, m);
    EnclosedArgsFollow(done, Open(Paren), args, Close(Paren));
    LeadsOn(from, [Arrow, Part.Member(m)], done, [Open(Paren)] + ArgParts(args) + [Close(Paren)], done);
  }

  lemma {:induction false} ColonBraceFollows(from: Stage, brace: Curly)
    requires from.want.More?
    ensures Leads(from, [Colon] + BraceParts(brace), Done(from.stack))
    decreases brace, 2
  {
    var target := Stage(ColonTarget, from.stack);
    OnePart(from, Colon);
    BraceFollows(brace, target);
    LeadsOn(from, [Colon], target, BraceParts(brace), Done(from.stack));
  }

  /** What a tree adds to its stem follows the stem. */
  lemma {:induction false} GrowthFollows(t: Tree, mid: Stage)
    requires Grown(t) && (mid.want.More? || (mid.want.SourceStep? && (t.Dotted? || t.Arrowed?)))
    ensures Leads(mid, Growth(t), Done(mid.stack))
    decreases t, -1
  {
    match t
    case Dotted(_, name) => MemberFollows(mid, Dot, name);
    case Applied(_, args) => EnclosedArgsFollow(mid, Open(Paren), args, Close(Paren));
    case Arrowed(_, m, args) => CallFollows(mid, m, args);
    case Infixed(_, op, right) => OperandFollows(op, right, mid.stack);
    case Annotated(_, a) => AnnotationFollows(a, mid.stack);
    case Colonned(_, name) => MemberFollows(mid, Colon, name);
    case ColonBraced(_, brace) => ColonBraceFollows(mid, brace);
  }

  lemma {:induction false} ArgsFollow(args: seq<Tree>, inside: Option<Frame>, stack: seq<Frame>)
    requires args != [] && stack != []
    ensures Leads(Value(inside, stack), ArgParts(args), Done(stack))
    decreases args, 0
  {
    var from, done, again := Value(inside, stack), Done(stack), Value(None, stack);
    TreeFollows(args[0], inside, stack);
    if |args| > 1 {
      OnePart(done, Comma);
      ArgsFollow(args[1..], None, stack);
      LeadsOn(from, Parts(args[0], InValue), done, [Comma], again);
      LeadsOn(from, Parts(args[0], InValue) + [Comma], again, ArgParts(args[1..]), done);
    }
  }

  lemma {:induction false} EnclosedArgsFollow(from: Stage, open: Part, args: seq<Tree>, close: Part)
    requires PartFits(from, open) && (open.Open? || open.OpenColumns?)
    requires close == Close(if open.Open? then open.frame else Bracket)
    ensures Leads(from, [open] + ArgParts(args) + [close], Done(from.stack))
    decreases args, 1
  {
    var mid := PartPlaced(from, open);
    if args != [] { ArgsFollow(args, mid.want.inside, mid.stack); }
    EnclosedFollows(from, open, ArgParts(args), close);
  }

  lemma {:induction false} BindersFollow(brace: Curly, stack: seq<Frame>)
    requires stack != []
    ensures Leads(Done(stack), BinderParts(brace), Done(stack))
    decreases brace, 0
  {
    var here := Done(stack);
    var typed := match brace.typed case Some(a) => AnnotationParts(a) case None => [];
    var more := if brace.more == [] then [] else [Comma] + ArgParts(brace.more);
    if brace.typed.Some? { AnnotationFollows(brace.typed.value, stack); }
    if brace.more != [] {
      OnePart(here, Comma);
      ArgsFollow(brace.more, None, stack);
      LeadsOn(here, [Comma], Value(None, stack), ArgParts(brace.more), here);
    }
    LeadsOn(here, typed, here, more, here);
  }

  /** A bar or another operator, and the value behind it. */
  lemma {:induction false} OperandFollows(op: Operator, operand: Tree, stack: seq<Frame>)
    ensures Leads(Done(stack), [Infix(op)] + Parts(operand, InValue), Done(stack))
    decreases operand, 2
  {
    OnePart(Done(stack), Infix(op));
    TreeFollows(operand, None, stack);
    LeadsOn(Done(stack), [Infix(op)], Value(None, stack), Parts(operand, InValue), Done(stack));
  }

  lemma {:induction false} BraceFollows(brace: Curly, from: Stage)
    requires PartFits(from, OpenLambda)
    ensures Leads(from, BraceParts(brace), Done(from.stack))
    decreases brace, 1
  {
    var mid := PartPlaced(from, OpenLambda);
    var here, body := Done(mid.stack), [Infix(Bar)] + Parts(brace.body, InValue);
    OnePart(mid, Word(brace.first));
    BindersFollow(brace, mid.stack);
    OperandFollows(Bar, brace.body, mid.stack);
    LeadsOn(here, BinderParts(brace), here, body, here);
    LeadsOn(mid, [Word(brace.first)], here, BinderParts(brace) + body, here);
    EnclosedFollows(from, OpenLambda, [Word(brace.first)] + (BinderParts(brace) + body), Close(BraceLambda));
  }

  // ----- pipelines -----

  /** The trees a pipeline is: a path that goes on by dots, arrows and calls. */
  predicate HeadsPipeline(t: Tree) {
    match t
    case PathTo(_) => true
    case Dotted(of, _) => HeadsPipeline(of)
    case Arrowed(of, _, _) => HeadsPipeline(of)
    case Applied(of, _) => HeadsPipeline(of) && !of.PathTo?
    case _ => false
  }

  /** At the head of a pipeline its tree makes a value, once it goes on from its path. */
  lemma {:induction false} PipelineFollows(t: Tree, inBlock: bool, from: Stage)
    requires HeadsPipeline(t) && AtHead(from, inBlock)
    ensures Leads(from, Parts(t, AtSource(inBlock)), Stage(if t.PathTo? then SourceStep else More, from.stack))
  {
    if t.PathTo? {
      SourcePathFollows(t.path, inBlock, from);
    } else {
      var mid := Stage(if t.of.PathTo? then SourceStep else More, from.stack);
      PipelineFollows(t.of, inBlock, from);
      GrowthFollows(t, mid);
      PartsAreStemAndGrowth(t, AtSource(inBlock));
      LeadsOn(from, Parts(t.of, AtSource(inBlock)), mid, Growth(t), Done(from.stack));
    }
  }

  // ----- spacing -----

  function PartsOf(items: seq<Item>): seq<Part>
    decreases |items|
  {
    if items == [] then [] else [items[0].part] + PartsOf(items[1..])
  }

  /** Every gap is one the parts around it allow. */
  predicate WellSpaced(before: Option<Part>, items: seq<Item>)
    decreases |items|
  {
    items != [] ==>
      GapFits(before, items[0].gap, items[0].part) && WellSpaced(Some(items[0].part), items[1..])
  }

  /** The order of the parts and the gaps between them make a sentence together. */
  lemma {:induction false} SpacedFollow(spot: Spot, items: seq<Item>, to: Stage)
    requires WellSpaced(spot.before, items)
    requires Leads(Stage(Wanted(spot.before), spot.stack), PartsOf(items), to)
    ensures Follow(spot, items).Some?
    ensures var end := Follow(spot, items).value; Stage(Wanted(end.before), end.stack) == to
    decreases |items|
  {
    if items != [] {
      var part := items[0].part;
      assert PartsOf(items)[0] == part && PartsOf(items)[1..] == PartsOf(items[1..]);
      SpacedFollow(Placed(spot, items[0]), items[1..], to);
    }
  }

  /** Parts written with as few spaces as they allow. */
  function Typeset(before: Option<Part>, parts: seq<Part>): seq<Item>
    decreases |parts|
  {
    if parts == [] then []
    else
      var apart := before.Some? && (before.value.LetWord? || Merges(before.value, parts[0]));
      [Item(if apart then [SPACE] else [], parts[0])] + Typeset(Some(parts[0]), parts[1..])
  }

  lemma {:induction false} TypesetIsSpaced(before: Option<Part>, parts: seq<Part>)
    ensures WellSpaced(before, Typeset(before, parts)) && PartsOf(Typeset(before, parts)) == parts
    decreases |parts|
  {
    if parts != [] {
      TypesetIsSpaced(Some(parts[0]), parts[1..]);
      var items := Typeset(before, parts);
      assert items[1..] == Typeset(Some(parts[0]), parts[1..]);
    }
  }
}
