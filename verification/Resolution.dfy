/** Which of several declarations a member resolves to: the order of the search, written out place by place. */
module Resolution {
  import opened Bytes
  import opened Model

  /** The places a name may be listed at: a class's own properties, or its navigable ends. */
  datatype Place = Own(class_: Name) | Ends(class_: Name)

  ghost predicate Offers(schema: Schema, place: Place, ident: Name, r: Resolved) {
    match place
    case Own(c) => OwnDeclares(schema, c, ident, r)
    case Ends(c) => NavigatesTo(schema, c, ident, r)
  }

  predicate OffersNothing(schema: Schema, place: Place, ident: Name) {
    match place
    case Own(c) => NothingDeclared(schema, c, ident)
    case Ends(c) => NoStep(schema.Steps(c), ident)
  }

  ghost predicate AllSilent(schema: Schema, places: seq<Place>, ident: Name) {
    forall i :: 0 <= i < |places| ==> OffersNothing(schema, places[i], ident)
  }

  /** Place `i` is the first that lists the name. */
  ghost predicate OffersAt(schema: Schema, places: seq<Place>, i: nat, ident: Name, r: Resolved) {
    i < |places| && Offers(schema, places[i], ident, r) && AllSilent(schema, places[..i], ident)
  }

  // ----- the order -----

  /** The places of `c` and of what it inherits, each class once: its own properties, then its super-types in
      turn, depth first, then its ends. Names play no part in it. */
  ghost function PlacesOf(schema: Schema, u: set<Name>, c: Name, visited: seq<Name>): (r: (seq<Place>, seq<Name>))
    requires c in u && Universe(schema, u)
    ensures visited <= r.1
    decreases Unseen(u, visited), 0
  {
    if c in visited then ([], visited)
    else
      assert c in Unseen(u, visited) && c !in Unseen(u, visited + [c]);
      var above := PlacesAbove(schema, u, schema.SuperTypes(c), visited + [c]);
      ([Own(c)] + above.0 + [Ends(c)], above.1)
  }

  ghost function PlacesAbove(schema: Schema, u: set<Name>, parents: seq<Name>, visited: seq<Name>)
    : (r: (seq<Place>, seq<Name>))
    requires (forall p :: p in parents ==> p in u) && Universe(schema, u)
    ensures visited <= r.1
    decreases Unseen(u, visited), |parents| + 1
  {
    if parents == [] then ([], visited)
    else
      var first := PlacesOf(schema, u, parents[0], visited);
      assert Unseen(u, first.1) <= Unseen(u, visited);
      assert Unseen(u, first.1) == Unseen(u, visited) || Unseen(u, first.1) < Unseen(u, visited);
      var rest := PlacesAbove(schema, u, parents[1..], first.1);
      (first.0 + rest.0, rest.1)
  }

  ghost function SearchOrder(schema: Schema, c: Name): seq<Place> {
    PlacesOf(schema, UniverseOf(schema, c), c, []).0
  }

  // ----- the first place that lists a name -----

  /** What the places offer, in order. */
  ghost predicate Finds(schema: Schema, places: seq<Place>, ident: Name, found: Option<Resolved>) {
    match found
    case Some(r) => exists i: nat :: OffersAt(schema, places, i, ident, r)
    case None => AllSilent(schema, places, ident)
  }

  lemma FoundBefore(schema: Schema, front: seq<Place>, back: seq<Place>, ident: Name, r: Resolved)
    requires Finds(schema, front, ident, Some(r))
    ensures Finds(schema, front + back, ident, Some(r))
  {
    var i: nat :| OffersAt(schema, front, i, ident, r);
    assert (front + back)[..i] == front[..i];
    assert OffersAt(schema, front + back, i, ident, r);
  }

  lemma FoundBehind(schema: Schema, front: seq<Place>, back: seq<Place>, ident: Name, found: Option<Resolved>)
    requires AllSilent(schema, front, ident) && Finds(schema, back, ident, found)
    ensures Finds(schema, front + back, ident, found)
  {
    match found
    case Some(r) =>
      var i: nat :| OffersAt(schema, back, i, ident, r);
      assert (front + back)[..|front| + i] == front + back[..i];
      assert OffersAt(schema, front + back, |front| + i, ident, r);
    case None =>
  }

  lemma FoundAt(schema: Schema, place: Place, ident: Name, r: Resolved)
    requires Offers(schema, place, ident, r)
    ensures Finds(schema, [place], ident, Some(r))
  {
    assert OffersAt(schema, [place], 0, ident, r);
  }

  lemma FoundInOrder(schema: Schema, front: seq<Place>, a: Option<Resolved>, back: seq<Place>, b: Option<Resolved>,
                     ident: Name)
    requires Finds(schema, front, ident, a) && Finds(schema, back, ident, b)
    ensures Finds(schema, front + back, ident, if a.Some? then a else b)
  {
    match a
    case Some(r) => FoundBefore(schema, front, back, ident, r);
    case None => FoundBehind(schema, front, back, ident, b);
  }

  lemma OwnFinds(schema: Schema, c: Name, ident: Name)
    ensures Finds(schema, [Own(c)], ident, FindDeclared(schema, c, ident))
  {
    var found := FindDeclared(schema, c, ident);
    if found.Some? {
      FindDeclaredIsOwn(schema, c, ident, found.value);
      FoundAt(schema, Own(c), ident, found.value);
    } else {
      FindDeclaredIsOwn(schema, c, ident, Resolved(Class(c), Multiplicity(0, None)));
    }
  }

  lemma EndsFind(schema: Schema, c: Name, ident: Name)
    ensures Finds(schema, [Ends(c)], ident, FindStep(schema.Steps(c), ident))
  {
    var found := FindStep(schema.Steps(c), ident);
    if found.Some? {
      FindStepIsFirst(schema.Steps(c), ident, found.value);
      FoundAt(schema, Ends(c), ident, found.value);
    } else {
      FindStepIsFirst(schema.Steps(c), ident, Resolved(Class(c), Multiplicity(0, None)));
    }
  }

  // ----- the search is the order -----

  lemma {:induction false} SearchFinds(schema: Schema, u: set<Name>, c: Name, ident: Name, visited: seq<Name>)
    requires c in u && Universe(schema, u)
    ensures var r, places := ResolveIn(schema, u, c, ident, visited), PlacesOf(schema, u, c, visited);
            Finds(schema, places.0, ident, r.0) && (r.0.None? ==> r.1 == places.1)
    decreases Unseen(u, visited), 0
  {
    if c !in visited {
      assert c in Unseen(u, visited) && c !in Unseen(u, visited + [c]);
      var parents := schema.SuperTypes(c);
      var above := PlacesAbove(schema, u, parents, visited + [c]).0;
      var declared, step := FindDeclared(schema, c, ident), FindStep(schema.Steps(c), ident);
      var inherited := ResolveAbove(schema, u, parents, ident, visited + [c]).0;
      OwnFinds(schema, c, ident);
      SearchAboveFinds(schema, u, parents, ident, visited + [c]);
      EndsFind(schema, c, ident);
      FoundInOrder(schema, [Own(c)], declared, above, inherited, ident);
      FoundInOrder(schema, [Own(c)] + above, if declared.Some? then declared else inherited, [Ends(c)], step, ident);
    }
  }

  lemma {:induction false} SearchAboveFinds(schema: Schema, u: set<Name>, parents: seq<Name>, ident: Name,
                                            visited: seq<Name>)
    requires (forall p :: p in parents ==> p in u) && Universe(schema, u)
    ensures var r, places := ResolveAbove(schema, u, parents, ident, visited), PlacesAbove(schema, u, parents, visited);
            Finds(schema, places.0, ident, r.0) && (r.0.None? ==> r.1 == places.1)
    decreases Unseen(u, visited), |parents| + 1
  {
    if parents != [] {
      var first, places := ResolveIn(schema, u, parents[0], ident, visited), PlacesOf(schema, u, parents[0], visited);
      SearchFinds(schema, u, parents[0], ident, visited);
      assert Unseen(u, places.1) <= Unseen(u, visited);
      assert Unseen(u, places.1) == Unseen(u, visited) || Unseen(u, places.1) < Unseen(u, visited);
      var rest := PlacesAbove(schema, u, parents[1..], places.1).0;
      if first.0.Some? {
        FoundBefore(schema, places.0, rest, ident, first.0.value);
      } else {
        SearchAboveFinds(schema, u, parents[1..], ident, first.1);
        FoundBehind(schema, places.0, rest, ident, ResolveAbove(schema, u, parents[1..], ident, first.1).0);
      }
    }
  }

  lemma OffersAreOne(schema: Schema, place: Place, ident: Name, r: Resolved, q: Resolved)
    requires Offers(schema, place, ident, r) && Offers(schema, place, ident, q)
    ensures r == q && !OffersNothing(schema, place, ident)
  {
    match place
    case Own(c) =>
      FindDeclaredIsOwn(schema, c, ident, r);
      FindDeclaredIsOwn(schema, c, ident, q);
    case Ends(c) =>
      FindStepIsFirst(schema.Steps(c), ident, r);
      FindStepIsFirst(schema.Steps(c), ident, q);
  }

  lemma SilentBefore(schema: Schema, places: seq<Place>, i: nat, k: nat, ident: Name)
    requires k < i <= |places| && AllSilent(schema, places[..i], ident)
    ensures OffersNothing(schema, places[k], ident)
  {
    assert places[..i][k] == places[k];
  }

  lemma FirstIsOne(schema: Schema, places: seq<Place>, i: nat, j: nat, ident: Name, r: Resolved, q: Resolved)
    requires OffersAt(schema, places, i, ident, r) && OffersAt(schema, places, j, ident, q)
    ensures i == j && r == q
  {
    OffersAreOne(schema, places[i], ident, r, r);
    OffersAreOne(schema, places[j], ident, q, q);
    if i < j { SilentBefore(schema, places, j, i, ident); }
    if j < i { SilentBefore(schema, places, i, j, ident); }
    OffersAreOne(schema, places[i], ident, r, q);
  }

  /** What a member resolves to, entry by entry: the first entry of its name at the first place of the search order
      that lists the name, and nothing exactly when no place does. */
  lemma ResolvesToTheFirst(schema: Schema, c: Name, ident: Name, r: Resolved)
    ensures Resolve(schema, c, ident) == Some(r)
       <==> exists i: nat :: OffersAt(schema, SearchOrder(schema, c), i, ident, r)
    ensures Resolve(schema, c, ident).None? <==> AllSilent(schema, SearchOrder(schema, c), ident)
  {
    var order, found := SearchOrder(schema, c), Resolve(schema, c, ident);
    SearchFinds(schema, UniverseOf(schema, c), c, ident, []);
    if found.Some? {
      var i: nat :| OffersAt(schema, order, i, ident, found.value);
      OffersAreOne(schema, order[i], ident, found.value, found.value);
      if j: nat :| OffersAt(schema, order, j, ident, r) { FirstIsOne(schema, order, i, j, ident, found.value, r); }
    } else if j: nat :| OffersAt(schema, order, j, ident, r) {
      OffersAreOne(schema, order[j], ident, r, r);
      assert false;
    }
  }

  // ----- what the order is -----

  predicate Holds(places: seq<Place>, d: Name) {
    Own(d) in places && Ends(d) in places
  }

  lemma {:induction false} PlacesAreVisits(schema: Schema, u: set<Name>, c: Name, visited: seq<Name>)
    requires c in u && Universe(schema, u)
    ensures var r := PlacesOf(schema, u, c, visited);
            && c in r.1 && ClosedBeyond(schema, r.1, visited)
            && (forall d :: d in r.1 && d !in visited ==> Holds(r.0, d) && Inherits(schema, c, d))
            && (forall p :: p in r.0 ==> Inherits(schema, c, p.class_))
    decreases Unseen(u, visited), 0
  {
    if c !in visited {
      assert c in Unseen(u, visited) && c !in Unseen(u, visited + [c]);
      InheritsSelf(schema, c);
      PlacesAboveAreVisits(schema, u, c, schema.SuperTypes(c), visited + [c]);
      var above := PlacesAbove(schema, u, schema.SuperTypes(c), visited + [c]);
      forall d | d in above.1 && d !in visited ensures Holds(PlacesOf(schema, u, c, visited).0, d) {
        if d != c { assert Holds(above.0, d); }
      }
    }
  }

  lemma {:induction false} PlacesAboveAreVisits(schema: Schema, u: set<Name>, c: Name, parents: seq<Name>,
                                                visited: seq<Name>)
    requires (forall p :: p in parents ==> p in u && p in schema.SuperTypes(c)) && Universe(schema, u)
    ensures var r := PlacesAbove(schema, u, parents, visited);
            && (forall p :: p in parents ==> p in r.1) && ClosedBeyond(schema, r.1, visited)
            && (forall d :: d in r.1 && d !in visited ==> Holds(r.0, d) && Inherits(schema, c, d))
            && (forall p :: p in r.0 ==> Inherits(schema, c, p.class_))
    decreases Unseen(u, visited), |parents| + 1
  {
    if parents != [] {
      var first := PlacesOf(schema, u, parents[0], visited);
      PlacesAreVisits(schema, u, parents[0], visited);
      forall d | Inherits(schema, parents[0], d) ensures Inherits(schema, c, d) {
        InheritsThrough(schema, c, parents[0], d);
      }
      assert Unseen(u, first.1) <= Unseen(u, visited);
      assert Unseen(u, first.1) == Unseen(u, visited) || Unseen(u, first.1) < Unseen(u, visited);
      PlacesAboveAreVisits(schema, u, c, parents[1..], first.1);
      var rest := PlacesAbove(schema, u, parents[1..], first.1);
      ClosedInTwoSteps(schema, visited, first.1, rest.1);
      assert forall p :: p in parents ==> p == parents[0] || p in parents[1..];
      forall d | d in rest.1 && d !in visited ensures Holds(first.0 + rest.0, d) {
        if d in first.1 { assert Holds(first.0, d); } else { assert Holds(rest.0, d); }
      }
    }
  }

  /** The order has exactly the places of the inherited classes. The class's own properties come first, its own
      ends last, everything inherited in between. */
  lemma OrderIsInheritance(schema: Schema, c: Name)
    ensures var order := SearchOrder(schema, c);
            && |order| >= 2 && order[0] == Own(c) && order[|order| - 1] == Ends(c)
            && (forall place :: place in order <==> Inherits(schema, c, place.class_))
  {
    var u := UniverseOf(schema, c);
    var r := PlacesOf(schema, u, c, []);
    PlacesAreVisits(schema, u, c, []);
    forall place: Place | Inherits(schema, c, place.class_) ensures place in r.0 {
      var path :| Chain(schema, path) && path[0] == c && path[|path| - 1] == place.class_;
      ChainStaysInside(schema, path, r.1);
      assert Holds(r.0, place.class_);
    }
  }

  /** A class's own property is what the name resolves to, whatever it inherits and wherever it leads. */
  lemma OwnComesFirst(schema: Schema, c: Name, ident: Name, r: Resolved)
    requires OwnDeclares(schema, c, ident, r)
    ensures Resolve(schema, c, ident) == Some(r)
  {
    var order := SearchOrder(schema, c);
    OrderIsInheritance(schema, c);
    assert OffersAt(schema, order, 0, ident, r);
    ResolvesToTheFirst(schema, c, ident, r);
  }

  /** Something inherited from another class is listed under the name. */
  ghost predicate InheritsName(schema: Schema, c: Name, ident: Name) {
    exists d :: d != c && Inherits(schema, c, d) && Names(schema, d, ident)
  }

  lemma SilentUnlessNamed(schema: Schema, place: Place, ident: Name)
    requires !Names(schema, place.class_, ident)
    ensures OffersNothing(schema, place, ident)
  {
  }

  lemma NamedIsOffered(schema: Schema, d: Name, ident: Name)
    requires Names(schema, d, ident)
    ensures !OffersNothing(schema, Own(d), ident) || !OffersNothing(schema, Ends(d), ident)
  {
  }

  /** A class's own ends come last: with no property of its own under the name, what another class it inherits from
      lists is found before them, and its own first end under the name when there is nothing else. */
  lemma OwnEndsComeLast(schema: Schema, c: Name, ident: Name, r: Resolved)
    requires NothingDeclared(schema, c, ident) && Resolve(schema, c, ident) == Some(r)
    ensures if InheritsName(schema, c, ident)
            then exists d :: d != c && Inherits(schema, c, d) && Declares(schema, d, ident, r)
            else NavigatesTo(schema, c, ident, r)
  {
    var order := SearchOrder(schema, c);
    var last := |order| - 1;
    OrderIsInheritance(schema, c);
    ResolvesToTheFirst(schema, c, ident, r);
    var i: nat :| OffersAt(schema, order, i, ident, r);
    var place := order[i];
    assert place in order;
    OffersAreOne(schema, place, ident, r, r);
    if InheritsName(schema, c, ident) {
      var d :| d != c && Inherits(schema, c, d) && Names(schema, d, ident);
      EndsAreNotFirst(schema, c, ident, i, d);
      assert place.class_ != c && Declares(schema, place.class_, ident, r);
    } else if place.class_ != c {
      SilentUnlessNamed(schema, place, ident);
    }
  }

  /** The ends of `c` stand once in the order, behind everything of another class. */
  lemma EndsAreNotFirst(schema: Schema, c: Name, ident: Name, i: nat, d: Name)
    requires var order := SearchOrder(schema, c); i < |order| && AllSilent(schema, order[..i], ident)
    requires d != c && Inherits(schema, c, d) && Names(schema, d, ident)
    ensures SearchOrder(schema, c)[i] != Ends(c)
  {
    var order := SearchOrder(schema, c);
    OrderIsInheritance(schema, c);
    OwnEndsStandOnce(schema, UniverseOf(schema, c), c);
    assert order == PlacesOf(schema, UniverseOf(schema, c), c, []).0;
    NamedIsOffered(schema, d, ident);
    var k: nat :| k < |order| && order[k] == if OffersNothing(schema, Own(d), ident) then Ends(d) else Own(d);
    if k < i { SilentBefore(schema, order, i, k, ident); }
  }

  lemma {:induction false} VisitedIsSkipped(schema: Schema, u: set<Name>, c: Name, visited: seq<Name>, seen: Name)
    requires c in u && Universe(schema, u) && seen in visited
    ensures forall p :: p in PlacesOf(schema, u, c, visited).0 ==> p.class_ != seen
    decreases Unseen(u, visited), 0
  {
    if c !in visited {
      assert c in Unseen(u, visited) && c !in Unseen(u, visited + [c]);
      VisitedIsSkippedAbove(schema, u, schema.SuperTypes(c), visited + [c], seen);
    }
  }

  lemma {:induction false} VisitedIsSkippedAbove(schema: Schema, u: set<Name>, parents: seq<Name>, visited: seq<Name>,
                                                 seen: Name)
    requires (forall p :: p in parents ==> p in u) && Universe(schema, u) && seen in visited
    ensures forall p :: p in PlacesAbove(schema, u, parents, visited).0 ==> p.class_ != seen
    decreases Unseen(u, visited), |parents| + 1
  {
    if parents != [] {
      var first := PlacesOf(schema, u, parents[0], visited);
      VisitedIsSkipped(schema, u, parents[0], visited, seen);
      assert Unseen(u, first.1) <= Unseen(u, visited);
      assert Unseen(u, first.1) == Unseen(u, visited) || Unseen(u, first.1) < Unseen(u, visited);
      VisitedIsSkippedAbove(schema, u, parents[1..], first.1, seen);
    }
  }

  lemma OwnEndsStandOnce(schema: Schema, u: set<Name>, c: Name)
    requires c in u && Universe(schema, u)
    ensures var order := PlacesOf(schema, u, c, []).0;
            forall i :: 0 < i < |order| - 1 ==> order[i].class_ != c
  {
    var above := PlacesAbove(schema, u, schema.SuperTypes(c), [] + [c]);
    VisitedIsSkippedAbove(schema, u, schema.SuperTypes(c), [] + [c], c);
    var order := PlacesOf(schema, u, c, []).0;
    forall i | 0 < i < |order| - 1 ensures order[i].class_ != c {
      assert order[i] == above.0[i - 1];
    }
  }
}
