/** The published grammar of the emitted queries, how each production is written, and that every query is accepted. */
module Grammar {
  import opened Bytes
  import opened Automaton
  import Runs
  import opened Syntax
  import Spelling
  import opened Trees

  // ----- the productions -----

  datatype Query = SimpleQuery(pipeline: Pipeline) | BlockQuery(lets: seq<LetBinding>, pipeline: Pipeline)

  datatype LetBinding = LetBinding(name: Identifier, pipeline: Pipeline)

  datatype Pipeline = Pipeline(source: QuerySource, steps: seq<PipelineStep>)

  /** The content of a string literal; any bytes will do. */
  type Content = seq<byte>

  datatype QuerySource = ClassSource(path: Path) | TableSource(path: Path, store: Content, table: Content)

  type Int = digits: seq<byte> | Digits(digits) witness [ZERO]

  datatype OneOrMany<T> = One(item: T) | Many(items: seq<T>)

  datatype PipelineStep =
    | Filter(binder: Binder, cond: BoolExpr)
    | Project(columns: seq<ValueLambda>, names: seq<Content>)
    | GroupBy(keys: seq<ValueLambda>, aggs: seq<Agg>, names: seq<Content>)
    | OlapGroupBy(partition: seq<Content>, order: SortSpec, reduction: ReduceLambda, name: Content)
    | SortColumn(column: Content, descending: bool)
    | SortSpecs(specs: seq<SortSpec>)
    | Take(count: Int)
    | Distinct
    | Restrict(restricted: OneOrMany<Content>)
    | RelGroupBy(groupKeys: OneOrMany<Content>, relAggs: seq<RelAgg>)
    | RenameColumns(renames: OneOrMany<ColRename>)
    | Extend(defs: OneOrMany<ColDef>)
    | Join(sub: Pipeline, kind: JoinType, lambda: JoinLambda)
    | Limit(count: Int)
    | RelProject(columnSpecs: seq<RelColSpec>)
    | RelFnGroupBy(relKeys: seq<ColName>, fnAggs: seq<RelAggSpec>)
    | RelSort(sortKeys: seq<RelSortKey>)
    | RelExtendWindow(over: seq<ColName>, windows: seq<WinAggSpec>)
    | RelRename(original: ColName, renamed: ColName)

  datatype SortSpec = SortSpec(descending: bool, column: Content)

  datatype ColRename = ColRename(original: Content, renamed: Content)

  datatype JoinType = JoinType(path: Path, outer: bool)

  /** A bare binder, or one with its type and multiplicity. */
  datatype Binder = Bare(name: Identifier) | TypedBinder(name: Identifier, annotation: Annotation)

  datatype ValueLambda = ValueLambda(binder: Binder, body: ValueExpr)

  datatype ReduceLambda = ReduceLambda(binder: Binder, variable: Identifier, reducer: Reducer)

  datatype Reducer = Counted | Sum | Average | Min | Max | Size | RowNumber

  datatype Agg = Agg(mapped: ValueLambda, reduction: ReduceLambda)

  datatype RelAgg = RelAgg(name: Content, mapped: ValueLambda, reduction: ReduceLambda)

  datatype ColDef = ColDef(lambda: ValueLambda, name: Content)

  datatype JoinLambda = JoinLambda(first: Identifier, annotation: Annotation, more: seq<Binder>, cond: BoolExpr)

  datatype ColName = PlainName(name: Identifier) | QuotedName(content: Content)

  datatype RelColSpec = RelColSpec(column: ColName, variable: Identifier, body: ValueExpr)

  datatype RelAggSpec =
    RelAggSpec(column: ColName, variable: Identifier, body: ValueExpr, reduceVar: Identifier, reduced: Identifier,
               reducer: Reducer)

  datatype RelSortKey = RelSortKey(descending: bool, column: ColName)

  datatype WinAggSpec =
    WinAggSpec(column: ColName, first: Identifier, more: seq<Identifier>, body: ValueExpr, reduceVar: Identifier,
               reduced: Identifier, reducer: Reducer)

  datatype BoolExpr =
    | Compared(cmp: Cmp)
    | Parenthesized(inner: BoolExpr)
    | Connected(left: BoolExpr, any: bool, right: Cmp)

  type CmpOp = op: Operator
    | op == Equal || op == NotEqual || op == Greater || op == Less || op == GreaterEq || op == LessEq
    witness Equal

  type ArithOp = op: Operator | op == Plus || op == Minus || op == Times || op == Over witness Plus

  datatype Cmp =
    | Compare(left: ValueExpr, cmpop: CmpOp, right: ValueExpr)
    | Holds(value: ValueExpr, pred: BoolPred)
    | AmongOf(nav: NavExpr, pipeline: Pipeline, column: Identifier)

  datatype PredName = Exists | Contains | StartsWith | EndsWith | IsEmpty | IsNotEmpty

  datatype BoolPred =
    | Simply(name: PredName)
    | OfValue(name: PredName, value: ValueExpr)
    | OfLambda(name: PredName, variable: Identifier, cond: BoolExpr)
    | Between(low: ValueExpr, high: ValueExpr)

  datatype ValueExpr = Single(term: ValueTerm) | Arith(left: ValueExpr, arithop: ArithOp, right: ValueTerm)

  datatype FnName =
    | ParseFloat | ParseInteger | ToString | ToLower | ToUpper | Substring | Year | AtIndex | Cast | First | Concatenate

  datatype FnCall = FnCall(fn: FnName, args: seq<ValueExpr>)

  datatype Getter = GetInteger | GetFloat | GetString | GetBoolean

  datatype ValueTerm =
    | Navigated(nav: NavExpr, collapses: nat, calls: seq<FnCall>)
    | If(cond: BoolExpr, whenTrue: ValueExpr, whenFalse: ValueExpr)
    | LiteralTerm(literal: Literal)
    | ColAccess(variable: Identifier, getter: Getter, column: Content)
    | ParenTerm(value: ValueExpr)

  /** `$x.a.b` */
  datatype NavExpr = NavExpr(variable: Identifier, names: seq<Identifier>)

  type DateChars = chars: seq<byte> | chars != [] && IsDateChar(chars[0]) && AllDateChars(chars) witness [ZERO]

  type Letters = letters: seq<byte> | letters != [] && AllLower(letters) witness [LOWER_A]

  datatype Literal =
    | StrLit(content: Content)
    | NumberLiteral(numeral: Count)
    | BoolLit(value: bool)
    | DateLiteral(chars: DateChars)
    | MilestoneLit(letters: Letters)

  // ----- names -----

  function NameOf(s: string): Identifier
    requires IsIdent(Ascii(s))
  {
    Ascii(s)
  }

  function ReducerName(r: Reducer): Identifier {
    match r
    case Counted => NameOf("count")
    case Sum => NameOf("sum")
    case Average => NameOf("average")
    case Min => NameOf("min")
    case Max => NameOf("max")
    case Size => NameOf("size")
    case RowNumber => NameOf("rowNumber")
  }

  function PredText(p: PredName): Identifier {
    match p
    case Exists => NameOf("exists")
    case Contains => NameOf("contains")
    case StartsWith => NameOf("startsWith")
    case EndsWith => NameOf("endsWith")
    case IsEmpty => NameOf("isEmpty")
    case IsNotEmpty => NameOf("isNotEmpty")
  }

  function FnText(f: FnName): Identifier {
    match f
    case ParseFloat => NameOf("parseFloat")
    case ParseInteger => NameOf("parseInteger")
    case ToString => NameOf("toString")
    case ToLower => NameOf("toLower")
    case ToUpper => NameOf("toUpper")
    case Substring => NameOf("substring")
    case Year => NameOf("year")
    case AtIndex => NameOf("at")
    case Cast => NameOf("cast")
    case First => NameOf("first")
    case Concatenate => NameOf("concatenate")
  }

  function GetterText(g: Getter): Identifier {
    match g
    case GetInteger => NameOf("getInteger")
    case GetFloat => NameOf("getFloat")
    case GetString => NameOf("getString")
    case GetBoolean => NameOf("getBoolean")
  }

  // ----- how the productions are written -----

  function Call(of: Tree, name: Identifier, args: seq<Tree>): Tree {
    Arrowed(of, name, args)
  }

  function Apply(name: Identifier, args: seq<Tree>): Tree {
    Applied(Leaf(Word(name)), args)
  }

  function StringTree(content: Content): Tree {
    Leaf(Part.Text(content))
  }

  function StringTrees(contents: seq<Content>): seq<Tree> {
    seq(|contents|, i requires 0 <= i < |contents| => StringTree(contents[i]))
  }

  function IntTree(digits: Int): Tree {
    Leaf(Part.Number(Numeral(false, digits, None)))
  }

  function VariableTree(name: Identifier): Tree {
    Leaf(Variable(name))
  }

  function StringsTree(one: OneOrMany<Content>): Tree {
    match one case One(s) => StringTree(s) case Many(ss) => Listed(StringTrees(ss))
  }

  function HeadTree(b: Binder): Tree {
    match b
    case Bare(name) => Leaf(Word(name))
    case TypedBinder(name, a) => Annotated(Leaf(Word(name)), a)
  }

  function LambdaTree(b: Binder, body: Tree): Tree {
    Infixed(HeadTree(b), Bar, body)
  }

  function ReductionTree(variable: Identifier, r: Reducer): Tree {
    Call(VariableTree(variable), ReducerName(r), [])
  }

  function ReduceTree(r: ReduceLambda): Tree {
    LambdaTree(r.binder, ReductionTree(r.variable, r.reducer))
  }

  function SortSpecTree(s: SortSpec): Tree {
    Apply(NameOf(if s.descending then "desc" else "asc"), [StringTree(s.column)])
  }

  function DirectionTree(descending: bool): Tree {
    Dotted(Leaf(Word(NameOf("SortDirection"))), NameOf(if descending then "DESC" else "ASC"))
  }

  function RenameTree(r: ColRename): Tree {
    Call(StringTree(r.original), NameOf("pair"), [StringTree(r.renamed)])
  }

  function RenamesTree(one: OneOrMany<ColRename>): Tree {
    match one
    case One(r) => RenameTree(r)
    case Many(rs) => Listed(seq(|rs|, i requires 0 <= i < |rs| => RenameTree(rs[i])))
  }

  function JoinTypeTree(kind: JoinType): Tree {
    Dotted(PathTo(kind.path), NameOf(if kind.outer then "LEFT_OUTER" else "INNER"))
  }

  /** A column name by itself. */
  function ColNameTree(c: ColName): Tree {
    match c case PlainName(name) => Leaf(Word(name)) case QuotedName(content) => StringTree(content)
  }

  /** A column behind its `~`. */
  function ColRefTree(c: ColName): Tree {
    match c
    case PlainName(name) => Leaf(Part.Column(name))
    case QuotedName(content) => Leaf(Part.QuotedColumn(content))
  }

  function ColRefTrees(cs: seq<ColName>): seq<Tree> {
    seq(|cs|, i requires 0 <= i < |cs| => ColRefTree(cs[i]))
  }

  function SortKeyTree(k: RelSortKey): Tree {
    Apply(NameOf(if k.descending then "descending" else "ascending"), [ColRefTree(k.column)])
  }

  function NavTree(nav: NavExpr): Tree {
    DottedTree(VariableTree(nav.variable), nav.names)
  }

  function DottedTree(of: Tree, names: seq<Identifier>): Tree
    decreases |names|
  {
    if names == [] then of else DottedTree(Dotted(of, names[0]), names[1..])
  }

  function CollapsedTree(of: Tree, collapses: nat): Tree {
    if collapses == 0 then of else Call(CollapsedTree(of, collapses - 1), NameOf("toOne"), [])
  }

  function LiteralTree(l: Literal): Tree {
    match l
    case StrLit(content) => StringTree(content)
    case NumberLiteral(n) => Leaf(Part.Number(n))
    case BoolLit(value) => Leaf(Word(NameOf(if value then "true" else "false")))
    case DateLiteral(chars) => Leaf(Day(chars))
    case MilestoneLit(letters) => Leaf(Part.Milestone(letters))
  }

  // ----- expressions -----

  function CallsTree(of: Tree, calls: seq<FnCall>): Tree
    decreases calls
  {
    if calls == [] then of
    else
      var last := calls[|calls| - 1];
      Call(CallsTree(of, calls[..|calls| - 1]), FnText(last.fn), ValueTrees(last.args))
  }

  function ValueTrees(vs: seq<ValueExpr>): seq<Tree>
    decreases vs
  {
    seq(|vs|, i requires 0 <= i < |vs| => ValueTree(vs[i]))
  }

  function TermTree(t: ValueTerm): Tree
    decreases t
  {
    match t
    case Navigated(nav, collapses, calls) => CallsTree(CollapsedTree(NavTree(nav), collapses), calls)
    case If(cond, whenTrue, whenFalse) =>
      Apply(NameOf("if"), [BoolTree(cond), Bodied(ValueTree(whenTrue)), Bodied(ValueTree(whenFalse))])
    case LiteralTerm(literal) => LiteralTree(literal)
    case ColAccess(variable, getter, column) =>
      Applied(Dotted(VariableTree(variable), GetterText(getter)), [StringTree(column)])
    case ParenTerm(value) => Grouped(ValueTree(value))
  }

  function ValueTree(v: ValueExpr): Tree
    decreases v
  {
    match v
    case Single(term) => TermTree(term)
    case Arith(left, op, right) => Infixed(ValueTree(left), op, TermTree(right))
  }

  function PredTree(of: Tree, pred: BoolPred): Tree
    decreases pred
  {
    match pred
    case Simply(name) => Call(of, PredText(name), [])
    case OfValue(name, value) => Call(of, PredText(name), [ValueTree(value)])
    case OfLambda(name, x, cond) => Call(of, PredText(name), [LambdaTree(Bare(x), BoolTree(cond))])
    case Between(low, high) => Call(of, NameOf("between"), [ValueTree(low), ValueTree(high)])
  }

  function CmpTree(c: Cmp): Tree
    decreases c
  {
    match c
    case Compare(left, op, right) => Infixed(ValueTree(left), op, ValueTree(right))
    case Holds(value, pred) => PredTree(ValueTree(value), pred)
    case AmongOf(nav, pipeline, column) => Call(NavTree(nav), NameOf("in"), [Dotted(PipelineTree(pipeline), column)])
  }

  function BoolTree(b: BoolExpr): Tree
    decreases b
  {
    match b
    case Compared(cmp) => CmpTree(cmp)
    case Parenthesized(inner) => Grouped(BoolTree(inner))
    case Connected(left, any, right) => Infixed(BoolTree(left), if any then Or else And, CmpTree(right))
  }

  // ----- lambdas and aggregates -----

  function ValueLambdaTree(l: ValueLambda): Tree
    decreases l
  {
    LambdaTree(l.binder, ValueTree(l.body))
  }

  function ValueLambdaTrees(ls: seq<ValueLambda>): seq<Tree>
    decreases ls
  {
    seq(|ls|, i requires 0 <= i < |ls| => ValueLambdaTree(ls[i]))
  }

  function AggTree(a: Agg): Tree
    decreases a
  {
    Apply(NameOf("agg"), [ValueLambdaTree(a.mapped), ReduceTree(a.reduction)])
  }

  function RelAggTree(a: RelAgg): Tree
    decreases a
  {
    Apply(NameOf("agg"), [StringTree(a.name), ValueLambdaTree(a.mapped), ReduceTree(a.reduction)])
  }

  function ColDefTree(d: ColDef): Tree
    decreases d
  {
    Apply(NameOf("col"), [ValueLambdaTree(d.lambda), StringTree(d.name)])
  }

  function ColDefsTree(one: OneOrMany<ColDef>): Tree
    decreases one
  {
    match one
    case One(d) => ColDefTree(d)
    case Many(ds) => Listed(seq(|ds|, i requires 0 <= i < |ds| => ColDefTree(ds[i])))
  }

  function JoinLambdaTree(l: JoinLambda): Tree
    decreases l
  {
    var more := seq(|l.more|, i requires 0 <= i < |l.more| => HeadTree(l.more[i]));
    Braced(Curly(l.first, Some(l.annotation), more, BoolTree(l.cond)))
  }

  /** `c: x|v` */
  function ColonLambdaTree(column: Tree, x: Identifier, body: Tree): Tree {
    Infixed(Colonned(column, x), Bar, body)
  }

  function RelColSpecTree(s: RelColSpec): Tree
    decreases s
  {
    ColonLambdaTree(ColNameTree(s.column), s.variable, ValueTree(s.body))
  }

  function RelAggSpecTree(s: RelAggSpec): Tree
    decreases s
  {
    ColonLambdaTree(ColonLambdaTree(ColRefTree(s.column), s.variable, ValueTree(s.body)), s.reduceVar,
                    ReductionTree(s.reduced, s.reducer))
  }

  function WinAggSpecTree(s: WinAggSpec): Tree
    decreases s
  {
    var more := seq(|s.more|, i requires 0 <= i < |s.more| => Leaf(Word(s.more[i])));
    ColonLambdaTree(ColonBraced(ColNameTree(s.column), Curly(s.first, None, more, ValueTree(s.body))), s.reduceVar,
                    ReductionTree(s.reduced, s.reducer))
  }

  // ----- pipelines -----

  function SourceTree(s: QuerySource): Tree {
    match s
    case ClassSource(path) => Applied(Dotted(PathTo(path), NameOf("all")), [])
    case TableSource(path, store, table) =>
      var referred := Call(PathTo(path), NameOf("tableReference"), [StringTree(store), StringTree(table)]);
      Call(referred, NameOf("tableToTDS"), [])
  }

  function StepName(step: PipelineStep): Identifier {
    match step
    case Filter(_, _) => NameOf("filter")
    case Project(_, _) | RelProject(_) => NameOf("project")
    case GroupBy(_, _, _) | RelGroupBy(_, _) | RelFnGroupBy(_, _) => NameOf("groupBy")
    case OlapGroupBy(_, _, _, _) => NameOf("olapGroupBy")
    case SortColumn(_, _) | SortSpecs(_) | RelSort(_) => NameOf("sort")
    case Take(_) => NameOf("take")
    case Distinct => NameOf("distinct")
    case _ => RelationStepName(step)
  }

  function RelationStepName(step: PipelineStep): Identifier {
    match step
    case RenameColumns(_) => NameOf("renameColumns")
    case Extend(_) | RelExtendWindow(_, _) => NameOf("extend")
    case Join(_, _, _) => NameOf("join")
    case Limit(_) => NameOf("limit")
    case RelRename(_, _) => NameOf("rename")
    case _ => NameOf("restrict")
  }

  function StepArgs(step: PipelineStep): seq<Tree>
    decreases step
  {
    match step
    case Filter(binder, cond) => [LambdaTree(binder, BoolTree(cond))]
    case Project(columns, names) => [Listed(ValueLambdaTrees(columns)), Listed(StringTrees(names))]
    case GroupBy(keys, aggs, names) =>
      [Listed(ValueLambdaTrees(keys)), Listed(seq(|aggs|, i requires 0 <= i < |aggs| => AggTree(aggs[i]))),
       Listed(StringTrees(names))]
    case OlapGroupBy(partition, order, reduction, name) =>
      [Listed(StringTrees(partition)), SortSpecTree(order), ReduceTree(reduction), StringTree(name)]
    case SortColumn(column, descending) => [StringTree(column), DirectionTree(descending)]
    case SortSpecs(specs) => seq(|specs|, i requires 0 <= i < |specs| => SortSpecTree(specs[i]))
    case Take(count) => [IntTree(count)]
    case Distinct => []
    case Restrict(columns) => [StringsTree(columns)]
    case RelGroupBy(keys, aggs) =>
      [StringsTree(keys)] + seq(|aggs|, i requires 0 <= i < |aggs| => RelAggTree(aggs[i]))
    case RenameColumns(renames) => [RenamesTree(renames)]
    case Extend(defs) => [ColDefsTree(defs)]
    case Join(sub, kind, lambda) => [PipelineTree(sub), JoinTypeTree(kind), JoinLambdaTree(lambda)]
    case Limit(count) => [IntTree(count)]
    case RelProject(specs) => [ColumnList(seq(|specs|, i requires 0 <= i < |specs| => RelColSpecTree(specs[i])))]
    case RelFnGroupBy(keys, aggs) =>
      [ColumnList(seq(|keys|, i requires 0 <= i < |keys| => ColNameTree(keys[i])))]
      + seq(|aggs|, i requires 0 <= i < |aggs| => RelAggSpecTree(aggs[i]))
    case RelSort(keys) => [Listed(seq(|keys|, i requires 0 <= i < |keys| => SortKeyTree(keys[i])))]
    case RelExtendWindow(over, windows) =>
      [Apply(NameOf("over"), ColRefTrees(over)),
       ColumnList(seq(|windows|, i requires 0 <= i < |windows| => WinAggSpecTree(windows[i])))]
    case RelRename(original, renamed) => [ColRefTree(original), ColRefTree(renamed)]
  }

  function StepsTree(source: QuerySource, steps: seq<PipelineStep>): Tree
    decreases steps
  {
    if steps == [] then SourceTree(source)
    else
      var last := steps[|steps| - 1];
      Call(StepsTree(source, steps[..|steps| - 1]), StepName(last), StepArgs(last))
  }

  function PipelineTree(p: Pipeline): Tree
    decreases p
  {
    StepsTree(p.source, p.steps)
  }

  function BindingParts(binding: LetBinding): seq<Part> {
    [LetWord, LetName(binding.name), Assign] + Parts(PipelineTree(binding.pipeline), AtSource(false)) + [Semi]
  }

  function LetParts(lets: seq<LetBinding>): seq<Part>
    decreases |lets|
  {
    if lets == [] then [] else BindingParts(lets[0]) + LetParts(lets[1..])
  }

  function QueryParts(q: Query): seq<Part> {
    match q
    case SimpleQuery(p) => [QueryBar] + Parts(PipelineTree(p), AtSource(false))
    case BlockQuery(lets, p) =>
      [BlockBrace, BlockBar] + LetParts(lets) + Parts(PipelineTree(p), AtSource(true)) + [Close(Brace)]
  }

  /** A query as it is written, with no more spaces than it needs. */
  function Print(q: Query): seq<byte> {
    Spelled(Typeset(None, QueryParts(q)))
  }

  // ----- every query is accepted -----

  lemma {:induction false} StepsHeadPipeline(source: QuerySource, steps: seq<PipelineStep>)
    ensures HeadsPipeline(StepsTree(source, steps)) && !StepsTree(source, steps).PathTo?
    decreases |steps|
  {
    if steps != [] { StepsHeadPipeline(source, steps[..|steps| - 1]); }
  }

  lemma PipelinePartsFollow(p: Pipeline, inBlock: bool, from: Stage)
    requires AtHead(from, inBlock)
    ensures Leads(from, Parts(PipelineTree(p), AtSource(inBlock)), Done(from.stack))
  {
    StepsHeadPipeline(p.source, p.steps);
    PipelineFollows(PipelineTree(p), inBlock, from);
  }

  const BLOCK: seq<Frame> := [Frame.Brace]

  lemma LetHeadFollows(name: Identifier, mayEnd: bool)
    ensures Leads(Stage(Statement(mayEnd), BLOCK), [LetWord, LetName(name), Assign], Stage(SourceName, BLOCK))
  {
    assert [LetWord, LetName(name), Assign][1..] == [LetName(name), Assign];
    TwoParts(Stage(Want.Binder, BLOCK), LetName(name), Assign);
    OnePart(Stage(Assignment, BLOCK), Assign);
  }

  lemma BindingFollows(binding: LetBinding, mayEnd: bool)
    ensures Leads(Stage(Statement(mayEnd), BLOCK), BindingParts(binding), Stage(Statement(true), BLOCK))
  {
    var from, source := Stage(Statement(mayEnd), BLOCK), Stage(SourceName, BLOCK);
    var head, body := [LetWord, LetName(binding.name), Assign], Parts(PipelineTree(binding.pipeline), AtSource(false));
    LetHeadFollows(binding.name, mayEnd);
    PipelinePartsFollow(binding.pipeline, false, source);
    OnePart(Done(BLOCK), Semi);
    LeadsOn(from, head, source, body, Done(BLOCK));
    LeadsOn(from, head + body, Done(BLOCK), [Semi], Stage(Statement(true), BLOCK));
  }

  lemma {:induction false} LetsFollow(lets: seq<LetBinding>, mayEnd: bool)
    ensures Leads(Stage(Statement(mayEnd), BLOCK), LetParts(lets), Stage(Statement(mayEnd || lets != []), BLOCK))
    decreases |lets|
  {
    if lets != [] {
      var from, next := Stage(Statement(mayEnd), BLOCK), Stage(Statement(true), BLOCK);
      BindingFollows(lets[0], mayEnd);
      LetsFollow(lets[1..], true);
      LeadsOn(from, BindingParts(lets[0]), next, LetParts(lets[1..]), next);
    }
  }

  lemma PipelineAloneFollows(t: Tree)
    requires HeadsPipeline(t) && !t.PathTo?
    ensures Leads(Stage(WholeQuery, []), [QueryBar] + Parts(t, AtSource(false)), Done([]))
  {
    var source := Stage(SourceName, []);
    OnePart(Stage(WholeQuery, []), QueryBar);
    PipelineFollows(t, false, source);
    LeadsOn(Stage(WholeQuery, []), [QueryBar], source, Parts(t, AtSource(false)), Done([]));
  }

  lemma BlockQueryFollows(lets: seq<LetBinding>, p: Pipeline)
    ensures Leads(Stage(WholeQuery, []), QueryParts(BlockQuery(lets, p)), Done([]))
  {
    var from, first := Stage(WholeQuery, []), Stage(Statement(false), BLOCK);
    var last, body := Stage(Statement(lets != []), BLOCK), Parts(PipelineTree(p), AtSource(true));
    BlockOpens();
    LetsFollow(lets, false);
    PipelinePartsFollow(p, true, last);
    BlockCloses();
    LeadsOn(from, [BlockBrace, BlockBar], first, LetParts(lets), last);
    LeadsOn(from, [BlockBrace, BlockBar] + LetParts(lets), last, body, Done(BLOCK));
    LeadsOn(from, [BlockBrace, BlockBar] + LetParts(lets) + body, Done(BLOCK), [Close(Frame.Brace)], Done([]));
  }

  lemma BlockOpens()
    ensures Leads(Stage(WholeQuery, []), [BlockBrace, BlockBar], Stage(Statement(false), BLOCK))
  {
    assert [] + [Frame.Brace] == BLOCK;
    TwoParts(Stage(WholeQuery, []), BlockBrace, BlockBar);
    OnePart(Stage(BlockHead, BLOCK), BlockBar);
  }

  lemma BlockCloses()
    ensures Leads(Done(BLOCK), [Close(Frame.Brace)], Done([]))
  {
    OnePart(Done(BLOCK), Close(Frame.Brace));
  }

  /** Every query of the published grammar is accepted, with any whitespace its parts allow between them. */
  lemma QueriesAreAccepted(q: Query, items: seq<Item>, tail: seq<byte>)
    requires PartsOf(items) == QueryParts(q) && WellSpaced(None, items) && IsGap(tail)
    ensures Runs.Accepted(Spelled(items) + tail)
  {
    match q {
      case SimpleQuery(p) =>
        StepsHeadPipeline(p.source, p.steps);
        PipelineAloneFollows(PipelineTree(p));
      case BlockQuery(lets, p) => BlockQueryFollows(lets, p);
    }
    SpacedFollow(OUTSET, items, Done([]));
    Spelling.SentencesAreAccepted(items, tail);
  }

  /** More is accepted than the grammar says: a lambda may be headed by a variable, and a bare name may be stepped
      from, as in `filter($x|x.a)`. */
  lemma StrayNamesAreAccepted(p: Pipeline, x: Identifier, a: Identifier)
    ensures var stray := Infixed(VariableTree(x), Bar, Dotted(Leaf(Word(x)), a));
            var filtered := Call(PipelineTree(p), NameOf("filter"), [stray]);
            Runs.Accepted(Spelled(Typeset(None, [QueryBar] + Parts(filtered, AtSource(false)))))
  {
    var stray := Infixed(VariableTree(x), Bar, Dotted(Leaf(Word(x)), a));
    var filtered := Call(PipelineTree(p), NameOf("filter"), [stray]);
    var parts := [QueryBar] + Parts(filtered, AtSource(false));
    StepsHeadPipeline(p.source, p.steps);
    PipelineAloneFollows(filtered);
    TypesetIsSpaced(None, parts);
    SpacedFollow(OUTSET, Typeset(None, parts), Done([]));
    Spelling.SentencesAreAccepted(Typeset(None, parts), []);
    assert Spelled(Typeset(None, parts)) + [] == Spelled(Typeset(None, parts));
  }

  lemma DatesTakeDashes(stack: seq<Frame>)
    ensures Runs.Run(Runs.Config(InDateLit, stack), [DASH, DOLLAR]).None?
  {
    Spelling.RunTwo(Runs.Config(InDateLit, stack), DASH, DOLLAR);
  }

  /** The spaces that keep parts from merging are needed: a date that a minus stands close to takes it for its own,
      and no variable may follow. */
  lemma GluedDatesAreRefused(items: seq<Item>, w: seq<byte>)
    requires Follow(OUTSET, items).Some? && Follow(OUTSET, items).value.before.Some?
    requires Follow(OUTSET, items).value.before.value.Day?
    ensures Runs.Run(Runs.INITIAL, Spelled(items) + [DASH, DOLLAR] + w).None?
  {
    Spelling.BeginningRead(OUTSET, items);
    DatesTakeDashes(Runs.Run(Runs.INITIAL, Spelled(items)).value.stack);
    Runs.RunConcat(Runs.INITIAL, Spelled(items), [DASH, DOLLAR]);
    Runs.RunConcat(Runs.INITIAL, Spelled(items) + [DASH, DOLLAR], w);
  }

  /** And so it is as it is printed. */
  lemma PrintedQueriesAreAccepted(q: Query)
    ensures Runs.Accepted(Print(q))
  {
    TypesetIsSpaced(None, QueryParts(q));
    QueriesAreAccepted(q, Typeset(None, QueryParts(q)), []);
    assert Print(q) + [] == Print(q);
  }
}
