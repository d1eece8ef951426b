/** The schema contract: classes, association navigation, and member resolution over super-types. */
module Model {
  import opened Bytes

  type Name = seq<byte>

  datatype PrimName = Integer | Float | Decimal | Number | String | Boolean | Date | StrictDate | DateTime

  datatype TypeClass = Numeric | Text | Truth | Temporal

  function TypeClassOf(p: PrimName): TypeClass {
    match p
    case Integer | Float | Decimal | Number => Numeric
    case String => Text
    case Boolean => Truth
    case Date | StrictDate | DateTime => Temporal
  }

  datatype PropType = Primitive(prim: PrimName) | Class(path: Name) | Enum(path: Name)

  datatype Multiplicity = Multiplicity(lower: nat, upper: Option<nat>)

  /** A stored or a qualified property: its name, its (return) type and multiplicity. */
  datatype Property = Property(name: Name, ty: PropType, mult: Multiplicity)

  datatype ClassInfo = ClassInfo(properties: seq<Property>, qualified: seq<Property>, superTypes: seq<Name>)

  datatype AssociationEnd = AssociationEnd(propertyName: Name, targetClass: Name, mult: Multiplicity)

  datatype Association = Association(e0: AssociationEnd, e1: AssociationEnd)

  datatype NavStep = NavStep(prop: Name, target: Name, mult: Multiplicity)

  /** What an identifier resolves to: its type and multiplicity. */
  datatype Resolved = Resolved(ty: PropType, mult: Multiplicity)

  datatype Schema = Schema(dbPath: Name, classes: map<Name, ClassInfo>, navigable: map<Name, seq<NavStep>>) {
    predicate HasClass(path: Name) {
      path in classes
    }

    function SuperTypes(c: Name): seq<Name> {
      if c in classes then classes[c].superTypes else []
    }

    function Steps(c: Name): seq<NavStep> {
      StepsIn(navigable, c)
    }

    /** Every legal pipeline source: the class paths and the store path. */
    function SourcePaths(): set<Name> {
      classes.Keys + {dbPath}
    }
  }

  function StepsIn(navigable: map<Name, seq<NavStep>>, c: Name): seq<NavStep> {
    if c in navigable then navigable[c] else []
  }

  // ----- association navigation -----

  function StepTo(end: AssociationEnd): NavStep {
    NavStep(end.propertyName, end.targetClass, end.mult)
  }

  /** The steps of `c` in declaration order: each end is navigable from the class at the other end. */
  function StepsFrom(associations: seq<Association>, c: Name): seq<NavStep> {
    if associations == [] then []
    else
      var n := |associations| - 1;
      var last := associations[n];
      StepsFrom(associations[..n], c)
      + (if last.e0.targetClass == c then [StepTo(last.e1)] else [])
      + (if last.e1.targetClass == c then [StepTo(last.e0)] else [])
  }

  /** Some association has `from` at one end and `step`'s class at the other. */
  ghost predicate OppositeEnd(associations: seq<Association>, from: Name, step: NavStep) {
    exists a :: a in associations &&
      ((a.e0.targetClass == from && step == StepTo(a.e1)) || (a.e1.targetClass == from && step == StepTo(a.e0)))
  }

  lemma {:induction false} StepsAreOppositeEnds(associations: seq<Association>, c: Name, step: NavStep)
    ensures step in StepsFrom(associations, c) <==> OppositeEnd(associations, c, step)
  {
    if associations != [] {
      var n := |associations| - 1;
      StepsAreOppositeEnds(associations[..n], c, step);
      assert associations == associations[..n] + [associations[n]];
    }
  }

  function Entered(navigable: map<Name, seq<NavStep>>, c: Name, step: NavStep): map<Name, seq<NavStep>> {
    navigable[c := StepsIn(navigable, c) + [step]]
  }

  /** Entering both ends of one more association extends every class's steps as declared. */
  lemma BothEndsEntered(before: map<Name, seq<NavStep>>, done: seq<Association>, a: Association, c: Name)
    requires StepsIn(before, c) == StepsFrom(done, c)
    ensures var one := Entered(before, a.e0.targetClass, StepTo(a.e1));
            StepsIn(Entered(one, a.e1.targetClass, StepTo(a.e0)), c) == StepsFrom(done + [a], c)
  {
    assert (done + [a])[..|done|] == done;
  }

  method BuildNavigable(associations: seq<Association>) returns (navigable: map<Name, seq<NavStep>>)
    ensures forall c: Name :: StepsIn(navigable, c) == StepsFrom(associations, c)
  {
    navigable := map[];
    var i := 0;
    while i < |associations|
      invariant 0 <= i <= |associations|
      invariant forall c: Name :: StepsIn(navigable, c) == StepsFrom(associations[..i], c)
    {
      var a := associations[i];
      assert associations[..i + 1] == associations[..i] + [a];
      forall c: Name {
        BothEndsEntered(navigable, associations[..i], a, c);
      }
      navigable := Entered(navigable, a.e0.targetClass, StepTo(a.e1));
      navigable := Entered(navigable, a.e1.targetClass, StepTo(a.e0));
      i := i + 1;
    }
    assert associations[..i] == associations;
  }

  // ----- members -----

  function FindProperty(props: seq<Property>, ident: Name): Option<Resolved> {
    if props == [] then None
    else if props[0].name == ident then Some(Resolved(props[0].ty, props[0].mult))
    else FindProperty(props[1..], ident)
  }

  function FindStep(steps: seq<NavStep>, ident: Name): Option<Resolved> {
    if steps == [] then None
    else if steps[0].prop == ident then Some(Resolved(Class(steps[0].target), steps[0].mult))
    else FindStep(steps[1..], ident)
  }

  /** The stored and qualified properties of `c` itself. */
  function FindDeclared(schema: Schema, c: Name, ident: Name): Option<Resolved> {
    if c !in schema.classes then None
    else match FindProperty(schema.classes[c].properties, ident)
      case Some(r) => Some(r)
      case None => FindProperty(schema.classes[c].qualified, ident)
  }

  /** `c` itself names `ident`: a stored property, a qualified property, or a navigable end. */
  ghost predicate Names(schema: Schema, c: Name, ident: Name) {
    || (c in schema.classes && exists p :: p in schema.classes[c].properties && p.name == ident)
    || (c in schema.classes && exists p :: p in schema.classes[c].qualified && p.name == ident)
    || (exists s :: s in schema.Steps(c) && s.prop == ident)
  }

  lemma {:induction false} FindPropertyFinds(props: seq<Property>, ident: Name)
    ensures FindProperty(props, ident).Some? <==> exists p :: p in props && p.name == ident
  {
    if props != [] {
      FindPropertyFinds(props[1..], ident);
      assert props == [props[0]] + props[1..];
    }
  }

  lemma {:induction false} FindStepFinds(steps: seq<NavStep>, ident: Name)
    ensures FindStep(steps, ident).Some? <==> exists s :: s in steps && s.prop == ident
  {
    if steps != [] {
      FindStepFinds(steps[1..], ident);
      assert steps == [steps[0]] + steps[1..];
    }
  }

  lemma NamesIsFound(schema: Schema, c: Name, ident: Name)
    ensures Names(schema, c, ident)
       <==> FindDeclared(schema, c, ident).Some? || FindStep(schema.Steps(c), ident).Some?
  {
    FindStepFinds(schema.Steps(c), ident);
    if c in schema.classes {
      FindPropertyFinds(schema.classes[c].properties, ident);
      FindPropertyFinds(schema.classes[c].qualified, ident);
    }
  }

  // ----- super-types -----

  /** A chain of super-types. */
  ghost predicate Chain(schema: Schema, path: seq<Name>) {
    && path != []
    && forall i :: 0 <= i < |path| - 1 ==> path[i + 1] in schema.SuperTypes(path[i])
  }

  /** `d` is `c` or one of its transitive super-types. */
  ghost predicate Inherits(schema: Schema, c: Name, d: Name) {
    exists path :: Chain(schema, path) && path[0] == c && path[|path| - 1] == d
  }

  lemma InheritsSelf(schema: Schema, c: Name)
    ensures Inherits(schema, c, c)
  {
    assert Chain(schema, [c]);
  }

  lemma InheritsThrough(schema: Schema, c: Name, parent: Name, d: Name)
    requires parent in schema.SuperTypes(c) && Inherits(schema, parent, d)
    ensures Inherits(schema, c, d)
  {
    var path :| Chain(schema, path) && path[0] == parent && path[|path| - 1] == d;
    var longer := [c] + path;
    forall i | 0 <= i < |longer| - 1 ensures longer[i + 1] in schema.SuperTypes(longer[i]) {
      if i > 0 { assert longer[i + 1] == path[i] && longer[i] == path[i - 1]; }
    }
    assert Chain(schema, longer);
  }

  /** A member of `c`: named by `c` or by a transitive super-type. */
  ghost predicate IsMember(schema: Schema, c: Name, ident: Name) {
    exists d :: Inherits(schema, c, d) && Names(schema, d, ident)
  }

  /** `seen` holds every super-type of the classes it has beyond `before`. */
  ghost predicate ClosedBeyond(schema: Schema, seen: seq<Name>, before: seq<Name>) {
    forall d, p :: d in seen && d !in before && p in schema.SuperTypes(d) ==> p in seen
  }

  lemma ClosedInTwoSteps(schema: Schema, before: seq<Name>, between: seq<Name>, after: seq<Name>)
    requires ClosedBeyond(schema, between, before) && ClosedBeyond(schema, after, between) && between <= after
    ensures ClosedBeyond(schema, after, before)
  {
    forall d, p | d in after && d !in before && p in schema.SuperTypes(d) ensures p in after {
      if d in between { assert p in between; }
    }
  }

  lemma {:induction false} ChainStaysInside(schema: Schema, path: seq<Name>, seen: seq<Name>)
    requires Chain(schema, path) && path[0] in seen && ClosedBeyond(schema, seen, [])
    ensures path[|path| - 1] in seen
  {
    if |path| > 1 {
      assert path[1] in schema.SuperTypes(path[0]);
      forall i | 0 <= i < |path[1..]| - 1 ensures path[1..][i + 1] in schema.SuperTypes(path[1..][i]) {
        assert path[i + 2] in schema.SuperTypes(path[i + 1]);
      }
      ChainStaysInside(schema, path[1..], seen);
    }
  }

  /** A finite set of names the super-type links never leave. */
  ghost predicate Universe(schema: Schema, u: set<Name>) {
    forall c, p :: c in u && p in schema.SuperTypes(c) ==> p in u
  }

  ghost function UniverseOf(schema: Schema, c: Name): (u: set<Name>)
    ensures c in u && Universe(schema, u)
  {
    {c} + set k, i | k in schema.classes && 0 <= i < |schema.classes[k].superTypes| :: schema.classes[k].superTypes[i]
  }

  ghost function Unseen(u: set<Name>, visited: seq<Name>): set<Name> {
    set c | c in u && c !in visited
  }

  // ----- resolution -----

  /** Depth-first resolution with its visited list: own properties, then super-types, then navigation. */
  ghost function ResolveIn(schema: Schema, u: set<Name>, c: Name, ident: Name, visited: seq<Name>)
    : (r: (Option<Resolved>, seq<Name>))
    requires c in u && Universe(schema, u)
    ensures visited <= r.1
    decreases Unseen(u, visited), 0
  {
    if c in visited then (None, visited)
    else
      assert c in Unseen(u, visited) && c !in Unseen(u, visited + [c]);
      match FindDeclared(schema, c, ident)
      case Some(r) => (Some(r), visited + [c])
      case None =>
        var above := ResolveAbove(schema, u, schema.SuperTypes(c), ident, visited + [c]);
        if above.0.Some? then above else (FindStep(schema.Steps(c), ident), above.1)
  }

  ghost function ResolveAbove(schema: Schema, u: set<Name>, parents: seq<Name>, ident: Name, visited: seq<Name>)
    : (r: (Option<Resolved>, seq<Name>))
    requires (forall p :: p in parents ==> p in u) && Universe(schema, u)
    ensures visited <= r.1
    decreases Unseen(u, visited), |parents| + 1
  {
    if parents == [] then (None, visited)
    else
      var first := ResolveIn(schema, u, parents[0], ident, visited);
      if first.0.Some? then first
      else
        assert Unseen(u, first.1) <= Unseen(u, visited);
        assert Unseen(u, first.1) == Unseen(u, visited) || Unseen(u, first.1) < Unseen(u, visited);
        ResolveAbove(schema, u, parents[1..], ident, first.1)
  }

  ghost function Resolve(schema: Schema, c: Name, ident: Name): Option<Resolved> {
    ResolveIn(schema, UniverseOf(schema, c), c, ident, []).0
  }

  /** What one resolution step leaves behind. */
  ghost predicate Searched(schema: Schema, ident: Name, found: Option<Resolved>, before: seq<Name>, after: seq<Name>) {
    found.None? ==>
      && ClosedBeyond(schema, after, before)
      && (forall d :: d in after && d !in before ==> !Names(schema, d, ident))
  }

  lemma {:induction false} ResolveInSearches(schema: Schema, u: set<Name>, c: Name, ident: Name, visited: seq<Name>)
    requires c in u && Universe(schema, u)
    ensures var r := ResolveIn(schema, u, c, ident, visited);
            c in r.1 && Searched(schema, ident, r.0, visited, r.1)
    decreases Unseen(u, visited), 0
  {
    if c !in visited {
      assert c in Unseen(u, visited) && c !in Unseen(u, visited + [c]);
      NamesIsFound(schema, c, ident);
      if FindDeclared(schema, c, ident).None? {
        ResolveAboveSearches(schema, u, schema.SuperTypes(c), ident, visited + [c]);
      }
    }
  }

  lemma {:induction false} ResolveAboveSearches(schema: Schema, u: set<Name>, parents: seq<Name>, ident: Name,
                                                visited: seq<Name>)
    requires (forall p :: p in parents ==> p in u) && Universe(schema, u)
    ensures var r := ResolveAbove(schema, u, parents, ident, visited);
            && Searched(schema, ident, r.0, visited, r.1)
            && (r.0.None? ==> forall p :: p in parents ==> p in r.1)
    decreases Unseen(u, visited), |parents| + 1
  {
    if parents != [] {
      var first := ResolveIn(schema, u, parents[0], ident, visited);
      ResolveInSearches(schema, u, parents[0], ident, visited);
      if first.0.None? {
        assert Unseen(u, first.1) <= Unseen(u, visited);
        assert Unseen(u, first.1) == Unseen(u, visited) || Unseen(u, first.1) < Unseen(u, visited);
        ResolveAboveSearches(schema, u, parents[1..], ident, first.1);
        var rest := ResolveAbove(schema, u, parents[1..], ident, first.1);
        if rest.0.None? {
          ClosedInTwoSteps(schema, visited, first.1, rest.1);
          assert forall p :: p in parents ==> p == parents[0] || p in parents[1..];
        }
      }
    }
  }

  // ----- what a class lists, entry by entry -----

  predicate NoProperty(props: seq<Property>, ident: Name) {
    forall i :: 0 <= i < |props| ==> props[i].name != ident
  }

  predicate NoStep(steps: seq<NavStep>, ident: Name) {
    forall i :: 0 <= i < |steps| ==> steps[i].prop != ident
  }

  /** Entry `i` is the first property of the name, and `r` its type and multiplicity. */
  predicate PropertyAt(props: seq<Property>, i: nat, ident: Name, r: Resolved) {
    i < |props| && props[i].name == ident && NoProperty(props[..i], ident) && r == Resolved(props[i].ty, props[i].mult)
  }

  /** Entry `i` is the first step of the name, and `r` its target and multiplicity. */
  predicate StepAt(steps: seq<NavStep>, i: nat, ident: Name, r: Resolved) {
    i < |steps| && steps[i].prop == ident && NoStep(steps[..i], ident) && r == Resolved(Class(steps[i].target),
                                                                                        steps[i].mult)
  }

  /** What `c` itself declares under the name: its first stored property, else its first qualified one. */
  ghost predicate OwnDeclares(schema: Schema, c: Name, ident: Name, r: Resolved) {
    && c in schema.classes
    && var info := schema.classes[c];
       || (exists i: nat :: PropertyAt(info.properties, i, ident, r))
       || (NoProperty(info.properties, ident) && exists i: nat :: PropertyAt(info.qualified, i, ident, r))
  }

  ghost predicate NavigatesTo(schema: Schema, c: Name, ident: Name, r: Resolved) {
    exists i: nat :: StepAt(schema.Steps(c), i, ident, r)
  }

  predicate NothingDeclared(schema: Schema, c: Name, ident: Name) {
    c in schema.classes ==>
      NoProperty(schema.classes[c].properties, ident) && NoProperty(schema.classes[c].qualified, ident)
  }

  lemma NoEarlierProperty(props: seq<Property>, i: nat, k: nat, ident: Name)
    requires k < i <= |props| && NoProperty(props[..i], ident)
    ensures props[k].name != ident
  {
    assert props[..i][k] == props[k];
  }

  lemma NoEarlierStep(steps: seq<NavStep>, i: nat, k: nat, ident: Name)
    requires k < i <= |steps| && NoStep(steps[..i], ident)
    ensures steps[k].prop != ident
  {
    assert steps[..i][k] == steps[k];
  }

  lemma LaterProperty(props: seq<Property>, i: nat, ident: Name, r: Resolved)
    requires PropertyAt(props, i, ident, r) && props[0].name != ident
    ensures i > 0 && PropertyAt(props[1..], i - 1, ident, r)
  {
    var between := props[1..][..i - 1];
    forall k | 0 <= k < |between| ensures between[k].name != ident { NoEarlierProperty(props, i, k + 1, ident); }
  }

  lemma LaterStep(steps: seq<NavStep>, i: nat, ident: Name, r: Resolved)
    requires StepAt(steps, i, ident, r) && steps[0].prop != ident
    ensures i > 0 && StepAt(steps[1..], i - 1, ident, r)
  {
    var between := steps[1..][..i - 1];
    forall k | 0 <= k < |between| ensures between[k].prop != ident { NoEarlierStep(steps, i, k + 1, ident); }
  }

  lemma {:induction false} FindPropertyIsFirst(props: seq<Property>, ident: Name, r: Resolved)
    ensures FindProperty(props, ident) == Some(r) <==> exists i: nat :: PropertyAt(props, i, ident, r)
    ensures FindProperty(props, ident).None? <==> NoProperty(props, ident)
  {
    if props != [] {
      var rest := props[1..];
      FindPropertyIsFirst(rest, ident, r);
      if props[0].name == ident {
        assert props[..0] == [];
        assert FindProperty(props, ident) == Some(r) ==> PropertyAt(props, 0, ident, r);
        forall i: nat | PropertyAt(props, i, ident, r) ensures i == 0 {
          if i > 0 { NoEarlierProperty(props, i, 0, ident); }
        }
      } else {
        if i: nat :| PropertyAt(rest, i, ident, r) {
          assert props[..i + 1] == [props[0]] + rest[..i];
          assert PropertyAt(props, i + 1, ident, r);
        }
        if i: nat :| PropertyAt(props, i, ident, r) { LaterProperty(props, i, ident, r); }
        assert NoProperty(props, ident) <==> NoProperty(rest, ident) by {
          assert props == [props[0]] + rest;
        }
      }
    }
  }

  lemma {:induction false} FindStepIsFirst(steps: seq<NavStep>, ident: Name, r: Resolved)
    ensures FindStep(steps, ident) == Some(r) <==> exists i: nat :: StepAt(steps, i, ident, r)
    ensures FindStep(steps, ident).None? <==> NoStep(steps, ident)
  {
    if steps != [] {
      var rest := steps[1..];
      FindStepIsFirst(rest, ident, r);
      if steps[0].prop == ident {
        assert steps[..0] == [];
        assert FindStep(steps, ident) == Some(r) ==> StepAt(steps, 0, ident, r);
        forall i: nat | StepAt(steps, i, ident, r) ensures i == 0 {
          if i > 0 { NoEarlierStep(steps, i, 0, ident); }
        }
      } else {
        if i: nat :| StepAt(rest, i, ident, r) {
          assert steps[..i + 1] == [steps[0]] + rest[..i];
          assert StepAt(steps, i + 1, ident, r);
        }
        if i: nat :| StepAt(steps, i, ident, r) { LaterStep(steps, i, ident, r); }
        assert NoStep(steps, ident) <==> NoStep(rest, ident) by {
          assert steps == [steps[0]] + rest;
        }
      }
    }
  }

  lemma FindDeclaredIsOwn(schema: Schema, c: Name, ident: Name, r: Resolved)
    ensures FindDeclared(schema, c, ident) == Some(r) <==> OwnDeclares(schema, c, ident, r)
    ensures FindDeclared(schema, c, ident).None? <==> NothingDeclared(schema, c, ident)
  {
    if c in schema.classes {
      FindPropertyIsFirst(schema.classes[c].properties, ident, r);
      FindPropertyIsFirst(schema.classes[c].qualified, ident, r);
    }
  }

  /** Every class a search visits is inherited, and a find is listed by some inherited class. */
  ghost predicate Declares(schema: Schema, c: Name, ident: Name, r: Resolved) {
    OwnDeclares(schema, c, ident, r) || NavigatesTo(schema, c, ident, r)
  }

  ghost predicate InheritsDeclaration(schema: Schema, c: Name, ident: Name, r: Resolved) {
    exists d :: Inherits(schema, c, d) && Declares(schema, d, ident, r)
  }

  lemma {:induction false} ResolveInFinds(schema: Schema, u: set<Name>, c: Name, ident: Name, visited: seq<Name>)
    requires c in u && Universe(schema, u)
    ensures var r := ResolveIn(schema, u, c, ident, visited);
            r.0.Some? ==> InheritsDeclaration(schema, c, ident, r.0.value)
    decreases Unseen(u, visited), 0
  {
    if c !in visited {
      assert c in Unseen(u, visited) && c !in Unseen(u, visited + [c]);
      InheritsSelf(schema, c);
      var r := ResolveIn(schema, u, c, ident, visited).0;
      if r.Some? {
        FindDeclaredIsOwn(schema, c, ident, r.value);
        FindStepIsFirst(schema.Steps(c), ident, r.value);
      }
      if FindDeclared(schema, c, ident).None? {
        ResolveAboveFinds(schema, u, c, schema.SuperTypes(c), ident, visited + [c]);
      }
    }
  }

  lemma {:induction false} ResolveAboveFinds(schema: Schema, u: set<Name>, c: Name, parents: seq<Name>, ident: Name,
                                             visited: seq<Name>)
    requires (forall p :: p in parents ==> p in u && p in schema.SuperTypes(c)) && Universe(schema, u)
    ensures var r := ResolveAbove(schema, u, parents, ident, visited);
            r.0.Some? ==> InheritsDeclaration(schema, c, ident, r.0.value)
    decreases Unseen(u, visited), |parents| + 1
  {
    if parents != [] {
      var first := ResolveIn(schema, u, parents[0], ident, visited);
      ResolveInFinds(schema, u, parents[0], ident, visited);
      if first.0.Some? {
        var d :| Inherits(schema, parents[0], d) && Declares(schema, d, ident, first.0.value);
        InheritsThrough(schema, c, parents[0], d);
      } else {
        assert Unseen(u, first.1) <= Unseen(u, visited);
        assert Unseen(u, first.1) == Unseen(u, visited) || Unseen(u, first.1) < Unseen(u, visited);
        ResolveAboveFinds(schema, u, c, parents[1..], ident, first.1);
      }
    }
  }

  /** An identifier resolves exactly when it is a member, cyclic super-types included; what it resolves
      to is an entry that a class the given one inherits from lists first. */
  lemma ResolvesIffMember(schema: Schema, c: Name, ident: Name)
    ensures Resolve(schema, c, ident).Some? <==> IsMember(schema, c, ident)
    ensures Resolve(schema, c, ident).Some? ==>
              InheritsDeclaration(schema, c, ident, Resolve(schema, c, ident).value)
  {
    var u := UniverseOf(schema, c);
    var r := ResolveIn(schema, u, c, ident, []);
    ResolveInSearches(schema, u, c, ident, []);
    ResolveInFinds(schema, u, c, ident, []);
    if r.0.Some? {
      var d :| Inherits(schema, c, d) && Declares(schema, d, ident, r.0.value);
      FindDeclaredIsOwn(schema, d, ident, r.0.value);
      FindStepIsFirst(schema.Steps(d), ident, r.0.value);
      NamesIsFound(schema, d, ident);
    } else if IsMember(schema, c, ident) {
      var d :| Inherits(schema, c, d) && Names(schema, d, ident);
      var path :| Chain(schema, path) && path[0] == c && path[|path| - 1] == d;
      ChainStaysInside(schema, path, r.1);
      assert false;
    }
  }

  method ResolveMember(schema: Schema, c: Name, ident: Name) returns (r: Option<Resolved>)
    ensures r == Resolve(schema, c, ident)
  {
    var visited;
    r, visited := Search(schema, UniverseOf(schema, c), c, ident, []);
  }

  method Search(schema: Schema, ghost u: set<Name>, c: Name, ident: Name, visited: seq<Name>)
    returns (r: Option<Resolved>, seen: seq<Name>)
    requires c in u && Universe(schema, u)
    ensures (r, seen) == ResolveIn(schema, u, c, ident, visited)
    decreases Unseen(u, visited)
  {
    if c in visited { return None, visited; }
    assert c in Unseen(u, visited) && c !in Unseen(u, visited + [c]);
    seen := visited + [c];
    r := FindDeclared(schema, c, ident);
    if r.Some? { return; }
    var parents := schema.SuperTypes(c);
    var i := 0;
    while i < |parents|
      invariant 0 <= i <= |parents|
      invariant visited + [c] <= seen
      invariant ResolveAbove(schema, u, parents, ident, visited + [c]) == ResolveAbove(schema, u, parents[i..],
              ident, seen)
    {
      assert Unseen(u, seen) <= Unseen(u, visited + [c]) < Unseen(u, visited);
      var found, more := Search(schema, u, parents[i], ident, seen);
      assert parents[i..][1..] == parents[i + 1..];
      seen := more;
      if found.Some? { return found, seen; }
      i := i + 1;
    }
    r := FindStep(schema.Steps(c), ident);
  }

  // ----- enumeration -----

  /** Depth-first collection with its visited list. */
  method CollectMembers(schema: Schema, ghost u: set<Name>, c: Name, names: seq<Name>, visited: seq<Name>)
    returns (all: seq<Name>, seen: seq<Name>)
    requires c in u && Universe(schema, u)
    ensures visited <= seen && c in seen && ClosedBeyond(schema, seen, visited)
    ensures forall d :: d in seen ==> d in visited || Inherits(schema, c, d)
    ensures forall x :: x in all <==> x in names || exists d :: d in seen && d !in visited && Names(schema, d, x)
    decreases Unseen(u, visited)
  {
    if c in visited { return names, visited; }
    assert c in Unseen(u, visited) && c !in Unseen(u, visited + [c]);
    seen := visited + [c];
    InheritsSelf(schema, c);
    var own := OwnProperties(schema, c);
    all := names + own;
    var parents := schema.SuperTypes(c);
    var i := 0;
    while i < |parents|
      invariant 0 <= i <= |parents|
      invariant visited + [c] <= seen && ClosedBeyond(schema, seen, visited + [c])
      invariant forall k :: 0 <= k < i ==> parents[k] in seen
      invariant forall d :: d in seen ==> d in visited || Inherits(schema, c, d)
      invariant forall x :: x in all <==>
        x in names || x in own || exists d :: d in seen && d !in visited + [c] && Names(schema, d, x)
    {
      assert Unseen(u, seen) <= Unseen(u, visited + [c]) < Unseen(u, visited);
      ghost var before := seen;
      all, seen := CollectMembers(schema, u, parents[i], all, seen);
      ClosedInTwoSteps(schema, visited + [c], before, seen);
      forall d | d in seen && d !in before ensures Inherits(schema, c, d) {
        InheritsThrough(schema, c, parents[i], d);
      }
      i := i + 1;
    }
    var steps := StepNames(schema.Steps(c));
    all := all + steps;
  }

  method OwnProperties(schema: Schema, c: Name) returns (names: seq<Name>)
    ensures forall x :: x in names ==> c in schema.classes
    ensures c in schema.classes ==>
              forall x :: x in names <==> (exists p :: p in schema.classes[c].properties && p.name == x)
                                          || (exists p :: p in schema.classes[c].qualified && p.name == x)
  {
    names := [];
    if c in schema.classes {
      var stored := PropertyNames(schema.classes[c].properties);
      var qualified := PropertyNames(schema.classes[c].qualified);
      names := stored + qualified;
    }
  }

  method PropertyNames(props: seq<Property>) returns (names: seq<Name>)
    ensures forall x :: x in names <==> exists p :: p in props && p.name == x
  {
    names := [];
    var i := 0;
    while i < |props|
      invariant 0 <= i <= |props|
      invariant forall x :: x in names <==> exists p :: p in props[..i] && p.name == x
    {
      assert props[..i + 1] == props[..i] + [props[i]];
      names := names + [props[i].name];
      i := i + 1;
    }
    assert props[..i] == props;
  }

  method StepNames(steps: seq<NavStep>) returns (names: seq<Name>)
    ensures forall x :: x in names <==> exists s :: s in steps && s.prop == x
  {
    names := [];
    var i := 0;
    while i < |steps|
      invariant 0 <= i <= |steps|
      invariant forall x :: x in names <==> exists s :: s in steps[..i] && s.prop == x
    {
      assert steps[..i + 1] == steps[..i] + [steps[i]];
      names := names + [steps[i].prop];
      i := i + 1;
    }
    assert steps[..i] == steps;
  }

  /** The members of `c`, enumerated. */
  method MemberNames(schema: Schema, c: Name) returns (names: seq<Name>)
    ensures forall x :: x in names <==> IsMember(schema, c, x)
  {
    var seen;
    names, seen := CollectMembers(schema, UniverseOf(schema, c), c, [], []);
    forall x | IsMember(schema, c, x) ensures x in names {
      var d :| Inherits(schema, c, d) && Names(schema, d, x);
      var path :| Chain(schema, path) && path[0] == c && path[|path| - 1] == d;
      ChainStaysInside(schema, path, seen);
    }
  }
}
