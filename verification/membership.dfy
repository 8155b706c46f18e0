/** The additional-class routes: a lifter may compete in weight and age
    classes besides its primary ones. Adding appends a class to the lifter's
    list and refuses one already there; removing takes it out and refuses one
    that is not there. */
module Membership {
  import opened Wrappers
  import opened Records

  /** Which of the two class lists a request is about. */
  datatype ClassKind = WeightKind | AgeKind

  /** The lifter's additional classes of kind `k`. */
  function Additional(l: Lifter, k: ClassKind): seq<Id> {
    match k
    case WeightKind => l.additionalWeightClasses
    case AgeKind => l.additionalAgeClasses
  }

  /** `l` with its additional classes of kind `k` replaced by `ids`; the other
      list and every other field are kept. */
  function WithAdditional(l: Lifter, k: ClassKind, ids: seq<Id>): (r: Lifter)
    ensures Additional(r, k) == ids
    ensures forall k' :: k' != k ==> Additional(r, k') == Additional(l, k')
    ensures r.(additionalWeightClasses := l.additionalWeightClasses, additionalAgeClasses := l.additionalAgeClasses) == l
  {
    match k
    case WeightKind => l.(additionalWeightClasses := ids)
    case AgeKind => l.(additionalAgeClasses := ids)
  }

  /** `xs` without its first occurrence of `x`, as a list removal does. */
  function RemoveFirst(xs: seq<Id>, x: Id): (r: seq<Id>)
    ensures x in xs ==> |r| == |xs| - 1
    ensures x !in xs ==> r == xs
    ensures multiset(r) == multiset(xs) - multiset{x}
    decreases |xs|
  {
    if |xs| == 0 then []
    else
      assert xs == [xs[0]] + xs[1..];
      if xs[0] == x then xs[1..]
      else [xs[0]] + RemoveFirst(xs[1..], x)
  }

  /** Removing an element just appended, and found nowhere earlier, gives the
      list back. */
  lemma {:induction false} RemoveFirstOfAppended(xs: seq<Id>, x: Id)
    requires x !in xs
    ensures RemoveFirst(xs + [x], x) == xs
    decreases |xs|
  {
    if |xs| > 0 {
      assert (xs + [x])[1..] == xs[1..] + [x];
      RemoveFirstOfAppended(xs[1..], x);
    }
  }

  /** A class of kind `k` with id `classId` exists. A request without an id
      finds none. */
  predicate ClassExists(weightClasses: seq<WeightClass>, ageClasses: seq<AgeClass>, k: ClassKind, classId: Option<int>) {
    classId.Some? &&
    match k
    case WeightKind => IndexWhere(weightClasses, (c: WeightClass) => c.id == classId.value).Some?
    case AgeKind => IndexWhere(ageClasses, (c: AgeClass) => c.id == classId.value).Some?
  }

  /** The position of the lifter with id `lifterId`. */
  function IndexOfLifter(lifters: seq<Lifter>, lifterId: int): (r: Option<nat>)
    ensures r.Some? ==> r.value < |lifters| && lifters[r.value].id == lifterId
    ensures r.Some? ==> forall j :: 0 <= j < r.value ==> lifters[j].id != lifterId
    ensures r.None? <==> forall j :: 0 <= j < |lifters| ==> lifters[j].id != lifterId
  {
    IndexWhere(lifters, (l: Lifter) => l.id == lifterId)
  }

  /** Adds class `c` to the lifter's list of kind `k`: appended at the end,
      or refused when it is already there. Nothing else about the lifter
      changes. */
  function AddClass(l: Lifter, k: ClassKind, c: Id): (r: Result<Lifter, Error>)
    ensures r.Ok? <==> c !in Additional(l, k)
    ensures r.Err? ==> r.error == ClassAlreadyAdded
    ensures r.Ok? ==> Additional(r.value, k) == Additional(l, k) + [c]
    ensures r.Ok? ==> r.value == WithAdditional(l, k, Additional(r.value, k))
  {
    var current := Additional(l, k);
    if c in current then Err(ClassAlreadyAdded)
    else Ok(WithAdditional(l, k, current + [c]))
  }

  /** Removes class `c` from the lifter's list of kind `k`: one occurrence
      leaves the list, or the request is refused when `c` is not there.
      Nothing else about the lifter changes. */
  function RemoveClass(l: Lifter, k: ClassKind, c: Id): (r: Result<Lifter, Error>)
    ensures r.Ok? <==> c in Additional(l, k)
    ensures r.Err? ==> r.error == ClassNotOnLifter
    ensures r.Ok? ==> multiset(Additional(r.value, k)) == multiset(Additional(l, k)) - multiset{c}
    ensures r.Ok? ==> |Additional(r.value, k)| == |Additional(l, k)| - 1
    ensures r.Ok? ==> r.value == WithAdditional(l, k, Additional(r.value, k))
  {
    var current := Additional(l, k);
    if c !in current then Err(ClassNotOnLifter)
    else Ok(WithAdditional(l, k, RemoveFirst(current, c)))
  }

  /** Removing a class just added gives the list back exactly (and, by the
      frame of both operations, the whole lifter). */
  lemma AddThenRemoveRestores(l: Lifter, k: ClassKind, c: Id)
    requires AddClass(l, k, c).Ok?
    ensures RemoveClass(AddClass(l, k, c).value, k, c).Ok?
    ensures Additional(RemoveClass(AddClass(l, k, c).value, k, c).value, k) == Additional(l, k)
  {
    RemoveFirstOfAppended(Additional(l, k), c);
  }

  /** On a list without repeats, adding a class just removed succeeds and
      gives the lifter the same classes back, the re-added one now last. */
  lemma RemoveThenAddRestoresMembership(l: Lifter, k: ClassKind, c: Id)
    requires RemoveClass(l, k, c).Ok? && NoRepeats(Additional(l, k))
    ensures AddClass(RemoveClass(l, k, c).value, k, c).Ok?
    ensures forall x :: x in Additional(AddClass(RemoveClass(l, k, c).value, k, c).value, k) <==> x in Additional(l, k)
    ensures |Additional(AddClass(RemoveClass(l, k, c).value, k, c).value, k)| == |Additional(l, k)|
  {
    var xs: seq<Id> := Additional(l, k);
    var ys: seq<Id> := Additional(RemoveClass(l, k, c).value, k);
    NoRepeatsCountOne(xs, c);
    assert multiset(ys)[c] == 0;
    forall x ensures x in ys + [c] <==> x in xs {
      assert x in ys <==> multiset(ys)[x] > 0;
      assert x in xs <==> multiset(xs)[x] > 0;
    }
  }

  /** The add-additional-class routes. An unknown lifter, then an unknown
      class, then a class already on the list is rejected; otherwise the class
      is appended to that lifter's list of kind `k` and no other lifter
      changes. */
  function AddAdditionalClass(lifters: seq<Lifter>, weightClasses: seq<WeightClass>, ageClasses: seq<AgeClass>,
                              lifterId: int, k: ClassKind, classId: Option<int>): (r: Result<seq<Lifter>, Error>)
    ensures IndexOfLifter(lifters, lifterId).None? ==> r == Err(LifterNotFound)
    ensures IndexOfLifter(lifters, lifterId).Some? && !ClassExists(weightClasses, ageClasses, k, classId) ==>
              r == Err(ClassNotFound)
    ensures r.Ok? || r == Err(LifterNotFound) || r == Err(ClassNotFound) || r == Err(ClassAlreadyAdded)
    ensures r == Err(ClassAlreadyAdded) <==>
              && IndexOfLifter(lifters, lifterId).Some? && ClassExists(weightClasses, ageClasses, k, classId)
              && classId.value in Additional(lifters[IndexOfLifter(lifters, lifterId).value], k)
    ensures r.Ok? ==>
              var i := IndexOfLifter(lifters, lifterId).value;
              && ClassExists(weightClasses, ageClasses, k, classId)
              && |r.value| == |lifters|
              && Ok(r.value[i]) == AddClass(lifters[i], k, classId.value)
              && forall j :: 0 <= j < |lifters| && j != i ==> r.value[j] == lifters[j]
  {
    match IndexOfLifter(lifters, lifterId)
    case None => Err(LifterNotFound)
    case Some(i) =>
      if !ClassExists(weightClasses, ageClasses, k, classId) then Err(ClassNotFound)
      else
        match AddClass(lifters[i], k, classId.value)
        case Ok(l) => Ok(lifters[i := l])
        case Err(e) => Err(e)
  }

  /** The remove-additional-class routes. An unknown lifter, then an unknown
      class, then a class not on the list is rejected; otherwise the class is
      taken off that lifter's list of kind `k` and no other lifter changes. */
  function RemoveAdditionalClass(lifters: seq<Lifter>, weightClasses: seq<WeightClass>, ageClasses: seq<AgeClass>,
                                 lifterId: int, k: ClassKind, classId: Option<int>): (r: Result<seq<Lifter>, Error>)
    ensures IndexOfLifter(lifters, lifterId).None? ==> r == Err(LifterNotFound)
    ensures IndexOfLifter(lifters, lifterId).Some? && !ClassExists(weightClasses, ageClasses, k, classId) ==>
              r == Err(ClassNotFound)
    ensures r.Ok? || r == Err(LifterNotFound) || r == Err(ClassNotFound) || r == Err(ClassNotOnLifter)
    ensures r == Err(ClassNotOnLifter) <==>
              && IndexOfLifter(lifters, lifterId).Some? && ClassExists(weightClasses, ageClasses, k, classId)
              && classId.value !in Additional(lifters[IndexOfLifter(lifters, lifterId).value], k)
    ensures r.Ok? ==>
              var i := IndexOfLifter(lifters, lifterId).value;
              && ClassExists(weightClasses, ageClasses, k, classId)
              && |r.value| == |lifters|
              && Ok(r.value[i]) == RemoveClass(lifters[i], k, classId.value)
              && forall j :: 0 <= j < |lifters| && j != i ==> r.value[j] == lifters[j]
  {
    match IndexOfLifter(lifters, lifterId)
    case None => Err(LifterNotFound)
    case Some(i) =>
      if !ClassExists(weightClasses, ageClasses, k, classId) then Err(ClassNotFound)
      else
        match RemoveClass(lifters[i], k, classId.value)
        case Ok(l) => Ok(lifters[i := l])
        case Err(e) => Err(e)
  }

  /** Through the routes: removing a class just added restores the lifter
      table exactly. */
  lemma RouteAddThenRemoveRestores(lifters: seq<Lifter>, weightClasses: seq<WeightClass>, ageClasses: seq<AgeClass>,
                                   lifterId: int, k: ClassKind, classId: Option<int>)
    requires AddAdditionalClass(lifters, weightClasses, ageClasses, lifterId, k, classId).Ok?
    ensures RemoveAdditionalClass(AddAdditionalClass(lifters, weightClasses, ageClasses, lifterId, k, classId).value,
                                  weightClasses, ageClasses, lifterId, k, classId) == Ok(lifters)
  {
    var added := AddAdditionalClass(lifters, weightClasses, ageClasses, lifterId, k, classId).value;
    var i := IndexOfLifter(lifters, lifterId).value;
    assert IndexOfLifter(added, lifterId) == Some(i) by {
      assert forall j :: 0 <= j < |lifters| ==> added[j].id == lifters[j].id;
    }
    AddThenRemoveRestores(lifters[i], k, classId.value);
    assert added[i := lifters[i]] == lifters;
  }

  /** No element occurs twice in `xs`. */
  ghost predicate NoRepeats(xs: seq<Id>) {
    forall j1, j2 :: 0 <= j1 < j2 < |xs| ==> xs[j1] != xs[j2]
  }

  /** In a list without repeats, a member occurs once. */
  lemma {:induction false} NoRepeatsCountOne(xs: seq<Id>, x: Id)
    requires NoRepeats(xs)
    requires x in xs
    ensures multiset(xs)[x] == 1
    decreases |xs|
  {
    assert xs == [xs[0]] + xs[1..];
    if xs[0] == x {
      assert x !in xs[1..];
    } else {
      NoRepeatsCountOne(xs[1..], x);
    }
  }

  /** Adding keeps a lifter's class list free of repeats. */
  lemma AddKeepsNoRepeats(l: Lifter, k: ClassKind, c: Id)
    requires AddClass(l, k, c).Ok? && NoRepeats(Additional(l, k))
    ensures NoRepeats(Additional(AddClass(l, k, c).value, k))
  {
  }

  /** Nothing stops a lifter's primary class from also being added as an
      additional class. */
  lemma PrimaryClassCanBeAdditional(l: Lifter, c: WeightClass)
    requires l.primaryWeightClass == Some(c.id) && l.additionalWeightClasses == []
    ensures var r := AddAdditionalClass([l], [c], [], l.id, WeightKind, Some(c.id));
            r.Ok? && r.value[0].primaryWeightClass == Some(c.id) && c.id in r.value[0].additionalWeightClasses
  {
    assert ClassExists([c], [], WeightKind, Some(c.id)) by {
      assert IndexWhere([c], (w: WeightClass) => w.id == c.id).Some?;
    }
  }
}
