/** What a lambda's variable navigates: the way of a class from an arrow to a dot. */
module Lambdas {
  import opened Bytes
  import opened Automaton
  import Runs
  import opened Model
  import opened Lexemes
  import opened Scopes
  import opened Navigation

  /** The class a call's lambda ranges over: the last one navigated to, else the pipeline's own. */
  function ReceiverOf(s: Scope): Option<Name> {
    if s.lastNavClass.Some? then s.lastNavClass else s.curClass
  }

  lemma SignsClassify(arrow: seq<byte>, open: seq<byte>, pipe: seq<byte>, dollar: seq<byte>)
    requires arrow == [DASH, GT] && open == [LPAREN] && pipe == [PIPE] && dollar == [DOLLAR]
    ensures Classify(arrow) == ArrowOp && Classify(open) == OpenDelim
    ensures Classify(pipe) == PipeOp && Classify(dollar) == DollarSign
  {
    assert !IsAsciiWs(arrow[0]) && !IsAsciiWs(open[0]) && !IsAsciiWs(pipe[0]) && !IsAsciiWs(dollar[0]);
  }

  /** `->m(` opens a delimiter over the receiver. */
  ghost function Called(s: Scope, pre: State, m: Name, schema: Schema): Scope {
    Dispatch(Dispatch(Dispatch(s, [DASH, GT], pre, schema), m, AfterArrow, schema), [LPAREN], InIdent, schema)
  }

  /** A pending receiver goes to the next delimiter; an arrow sets it. */
  lemma ArrowHands(s: Scope, pre: State, schema: Schema)
    ensures var t := Dispatch(s, [DASH, GT], pre, schema);
            && t.pendingArrowReceiver == Some(ReceiverOf(s))
            && t.relExplicit == s.relExplicit && t.sawTilde == s.sawTilde
  {
    SignsClassify([DASH, GT], [LPAREN], [PIPE], [DOLLAR]);
  }

  lemma MethodNoted(s: Scope, m: Name, schema: Schema)
    requires IsIdent(m)
    ensures var t := Dispatch(s, m, AfterArrow, schema);
            && t.pendingArrowReceiver == s.pendingArrowReceiver && t.lastIdent == Some(m)
            && t.relExplicit == s.relExplicit && t.sawTilde == s.sawTilde
  {
    IdentIsIdentifier(m);
    MethodAnchorsNothing(Sourced(s, m, schema), m, schema);
  }

  lemma MethodAnchorsNothing(s: Scope, m: Name, schema: Schema)
    ensures Anchored(s, m, AfterArrow, schema) == (s, None)
  {
  }

  lemma ParenReceives(s: Scope, schema: Schema)
    requires s.pendingArrowReceiver.Some? && s.lastIdent.Some?
    ensures var t := Dispatch(s, [LPAREN], InIdent, schema);
            && Runs.Top(t.parenReceiver) == Some(s.pendingArrowReceiver.value)
            && (!IsSourceMethod(s.lastIdent.value) ==> t.relExplicit == s.relExplicit && t.sawTilde == s.sawTilde)
  {
    SignsClassify([DASH, GT], [LPAREN], [PIPE], [DOLLAR]);
  }

  lemma CallReceives(s: Scope, pre: State, m: Name, schema: Schema)
    requires IsIdent(m)
    ensures var t := Called(s, pre, m, schema);
            && Runs.Top(t.parenReceiver) == Some(ReceiverOf(s))
            && (!IsSourceMethod(m) ==> t.relExplicit == s.relExplicit && t.sawTilde == s.sawTilde)
  {
    var handed := Dispatch(s, [DASH, GT], pre, schema);
    ArrowHands(s, pre, schema);
    MethodNoted(handed, m, schema);
    ParenReceives(Dispatch(handed, m, AfterArrow, schema), schema);
  }

  /** `x|$x` binds a lambda's variable and uses it. */
  ghost function Used(s: Scope, x: Name, schema: Schema): Scope {
    var bound := Dispatch(Dispatch(s, x, ExpectValue, schema), [PIPE], InIdent, schema);
    Dispatch(Dispatch(bound, [DOLLAR], SawPipe, schema), x, AfterDollar, schema)
  }

  lemma BinderTaken(s: Scope, x: Name, schema: Schema)
    requires IsIdent(x)
    ensures var t := Dispatch(s, x, ExpectValue, schema);
            && t.lambdaFirstIdent == Some(x) && t.parenReceiver == s.parenReceiver
            && t.relExplicit == s.relExplicit && t.sawTilde == s.sawTilde
  {
    IdentIsIdentifier(x);
  }

  /** What a binder of the innermost delimiter stands for. */
  function BinderTarget(s: Scope): Option<L2Position> {
    match Flatten(Runs.Top(s.parenReceiver))
    case Some(c) => Some(Member(c))
    case None => if s.relExplicit && s.sawTilde then Some(RelationColumn) else None
  }

  lemma BinderBound(s: Scope, x: Name, schema: Schema)
    requires x != [] && s.lambdaFirstIdent == Some(x)
    ensures NavFromVar(Dispatch(s, [PIPE], InIdent, schema), x) == BinderTarget(s)
  {
    SignsClassify([DASH, GT], [LPAREN], [PIPE], [DOLLAR]);
    PipeBindsTarget(s, x);
  }

  lemma PipeBindsTarget(s: Scope, x: Name)
    requires x != [] && s.lambdaFirstIdent == Some(x)
    ensures NavFromVar(OnPipe(s, InIdent), x) == BinderTarget(s)
  {
  }

  lemma DollarKeepsBindings(s: Scope, pre: State, schema: Schema)
    ensures SameTargets(s, Dispatch(s, [DOLLAR], pre, schema))
  {
    SignsClassify([DASH, GT], [LPAREN], [PIPE], [DOLLAR]);
  }

  lemma VariableUsed(s: Scope, x: Name, schema: Schema)
    requires IsIdent(x)
    ensures var t := Dispatch(Dispatch(s, [DOLLAR], SawPipe, schema), x, AfterDollar, schema);
            t.pendingRefvar == Some(x) && NavFromVar(t, x) == NavFromVar(s, x)
  {
    DollarKeepsBindings(s, SawPipe, schema);
    VariableClosed(Dispatch(s, [DOLLAR], SawPipe, schema), x, schema);
  }

  /** A lambda's variable navigates what its call was made on: in `->m(x|$x.` the dot leads to the members of
      the receiver's class; without one, to the columns of a closed relation, else nowhere in particular. */
  lemma LambdaNavigatesItsReceiver(s: Scope, pre: State, m: Name, x: Name, schema: Schema)
    requires IsIdent(m) && IsIdent(x)
    ensures var target := DotTarget(Used(Called(s, pre, m, schema), x, schema));
            && (ReceiverOf(s).Some? ==> target == Member(ReceiverOf(s).value))
            && (ReceiverOf(s).None? && !IsSourceMethod(m) ==>
                  target == if s.relExplicit && s.sawTilde then RelationColumn else Unconstrained)
  {
    var called := Called(s, pre, m, schema);
    CallReceives(s, pre, m, schema);
    var taken := Dispatch(called, x, ExpectValue, schema);
    BinderTaken(called, x, schema);
    BinderBound(taken, x, schema);
    VariableUsed(Dispatch(taken, [PIPE], InIdent, schema), x, schema);
    DotReadsVariable(Used(called, x, schema), x);
  }

  // ----- what a member step hands on -----

  lemma MemberHanded(s: Scope, member: Name, schema: Schema)
    requires s.dotIsColumn || s.dotBase.Some?
    ensures var t := Anchored(s, member, AfterDot, schema).0;
            && t.curClass == s.curClass
            && (s.dotIsColumn ==> t.lastNavClass.None?)
            && (!s.dotIsColumn ==>
                  t.lastNavClass == match Resolve(schema, s.dotBase.value, member)
                                    case Some(Resolved(Class(path), _)) => Some(path)
                                    case _ => None)
  {
  }

  /** The class a member step hands on: the one the member resolves to, else the pipeline's own. */
  ghost function HandedBy(s: Scope, member: Name, schema: Schema): Option<Name> {
    var own := if schema.HasClass(member) then Some(member) else s.curClass;
    if s.dotIsColumn || s.dotBase.None? then own
    else match Resolve(schema, s.dotBase.value, member)
      case Some(Resolved(Class(path), _)) => Some(path)
      case _ => own
  }

  lemma MemberHandsOn(s: Scope, member: Name, schema: Schema)
    requires IsIdent(member) && (s.dotIsColumn || s.dotBase.Some?)
    ensures ReceiverOf(Dispatch(s, member, AfterDot, schema)) == HandedBy(s, member, schema)
  {
    IdentIsIdentifier(member);
    var moved, now := MemberRead(s, member, schema);
    assert Dispatch(s, member, AfterDot, schema) == moved.(lastIdent := Some(member), lastResolved := now,
             cmpPending := None);
    MemberHanded(Sourced(s, member, schema), member, schema);
  }

  /** A call made on a member ranges over the class the member resolves to, and over the pipeline's own class behind
      a primitive one or a column: the way goes on from `$x.a` to `->m(y|$y.`. */
  lemma CallOnMember(s: Scope, member: Name, m: Name, y: Name, schema: Schema)
    requires IsIdent(member) && IsIdent(m) && IsIdent(y) && (s.dotIsColumn || s.dotBase.Some?)
    requires HandedBy(s, member, schema).Some?
    ensures var t := Dispatch(s, member, AfterDot, schema);
            DotTarget(Used(Called(t, InIdent, m, schema), y, schema)) == Member(HandedBy(s, member, schema).value)
  {
    MemberHandsOn(s, member, schema);
    LambdaNavigatesItsReceiver(Dispatch(s, member, AfterDot, schema), InIdent, m, y, schema);
  }

  // ----- what a comparison expects -----

  lemma PrimitiveResolved(s: Scope, member: Name, prim: PrimName, mult: Multiplicity, schema: Schema)
    requires IsIdent(member) && !s.dotIsColumn && s.dotBase.Some?
    requires Resolve(schema, s.dotBase.value, member) == Some(Resolved(Primitive(prim), mult))
    ensures Dispatch(s, member, AfterDot, schema).lastResolved == Some(TypeClassOf(prim))
  {
    IdentIsIdentifier(member);
    var moved := Sourced(s, member, schema);
    assert Anchored(moved, member, AfterDot, schema).1 == Some(TypeClassOf(prim));
  }

  lemma ComparisonArms(s: Scope, cmp: seq<byte>, pre: State, schema: Schema)
    requires Classify(cmp) == CmpOp && s.lastResolved.Some?
    ensures Dispatch(s, cmp, pre, schema).cmpPending == s.lastResolved
  {
  }

  /** The operand of a comparison is held to the class of what stands on its left: behind `.m==`, with `m` a
      primitive member, the next value position asks for that member's literal class. */
  lemma ComparisonAsksForItsClass(s: Scope, member: Name, cmp: seq<byte>, prim: PrimName, mult: Multiplicity,
                                  schema: Schema)
    requires IsIdent(member) && !s.dotIsColumn && s.dotBase.Some? && Classify(cmp) == CmpOp
    requires Resolve(schema, s.dotBase.value, member) == Some(Resolved(Primitive(prim), mult))
    ensures var t := Dispatch(Dispatch(s, member, AfterDot, schema), cmp, InIdent, schema);
            OpeningPosition(t, ExpectValueReq) == ReValue(TypeClassOf(prim))
  {
    PrimitiveResolved(s, member, prim, mult, schema);
    ComparisonArms(Dispatch(s, member, AfterDot, schema), cmp, InIdent, schema);
  }

  /** And only that operand: any lexeme but another comparison ends the demand. */
  lemma OperandEndsTheDemand(s: Scope, bytes: seq<byte>, pre: State, state: State, schema: Schema)
    requires !Classify(bytes).CmpOp? && !Classify(bytes).Blank?
    ensures !OpeningPosition(Dispatch(s, bytes, pre, schema), state).ReValue?
  {
  }
}
