/** The stored records of a meet: the meet-state cursor, lifts, lifters and
    the weight and age class tables, with the errors the routes report. */
module Records {
  import opened Wrappers

  /** Database primary keys; the store hands them out from 1 upwards, so an
      id is never falsy in a Python truth test. */
  type Id = i: int | 1 <= i witness 1

  /** A calendar date, compared field by field as Python compares `date`s. */
  datatype Date = Date(year: int, month: int, day: int)

  /** Lexicographic order on (year, month, day). */
  predicate DateLeq(a: Date, b: Date) {
    a.year < b.year
    || (a.year == b.year && (a.month < b.month || (a.month == b.month && a.day <= b.day)))
  }

  datatype LiftType = Squat | Bench | Deadlift

  /** The lift lifecycle: pending, then active on the platform, then completed. */
  datatype Status = Pending | Active | Completed

  /** The three judge seats on the panel. */
  datatype Judge = Judge1 | Judge2 | Judge3

  /** One attempt of one lifter. Each judge's score and the overall result
      are nullable booleans: `None` is "not yet scored". */
  datatype Lift = Lift(
    id: Id,
    lifterId: Id,
    liftType: LiftType,
    attempt: int,
    weight: real,
    status: Status,
    judge1: Option<bool>,
    judge2: Option<bool>,
    judge3: Option<bool>,
    overall: Option<bool>)
  {
    /** The score recorded in judge seat `j`. */
    function Vote(j: Judge): Option<bool> {
      match j
      case Judge1 => judge1
      case Judge2 => judge2
      case Judge3 => judge3
    }

    /** The three scores, in seat order. */
    function Votes(): seq<Option<bool>> {
      [judge1, judge2, judge3]
    }
  }

  /** The singleton meet-state row: the current lift type, the current
      attempt number and the lift on the platform, if any. */
  datatype MeetState = MeetState(liftType: LiftType, attempt: int, active: Option<Id>)

  /** The row the store creates when none exists yet. */
  const DefaultMeetState := MeetState(Squat, 1, None)

  /** The part of the store the meet-progress routes touch: the meet-state
      row (absent until created) and all lifts, in table order. */
  datatype Meet = Meet(cursor: Option<MeetState>, lifts: seq<Lift>)

  /** A weight class; `gender` is "Male", "Female" or "Both", and a missing
      upper bound makes the class open-ended. */
  datatype WeightClass = WeightClass(id: Id, name: string, minWeight: real, maxWeight: Option<real>, gender: string)

  /** An age class; a missing upper bound makes it open-ended. */
  datatype AgeClass = AgeClass(id: Id, name: string, minAge: int, maxAge: Option<int>)

  /** A registered competitor; openers are nullable, one per lift type. */
  datatype Lifter = Lifter(
    id: Id,
    name: string,
    gender: string,
    idNumber: string,
    actualWeight: real,
    birthDate: Date,
    openerSquat: Option<real>,
    openerBench: Option<real>,
    openerDeadlift: Option<real>,
    primaryWeightClass: Option<Id>,
    primaryAgeClass: Option<Id>,
    additionalWeightClasses: seq<Id>,
    additionalAgeClasses: seq<Id>)
  {
    /** The opening weight declared for lift type `t`. */
    function Opener(t: LiftType): Option<real> {
      match t
      case Squat => openerSquat
      case Bench => openerBench
      case Deadlift => openerDeadlift
    }
  }

  /** The error responses of the routes. */
  datatype Error =
    | MeetStateNotInitialized
    | MaxAttemptReached
    | LiftNotFound
    | NotPending
    | InvalidJudgePin
    | JudgeNotRecognized
    | LifterNotFound
    | ClassNotFound
    | ClassAlreadyAdded
    | ClassNotOnLifter

  /** The index of the first lift with id `id`, as a primary-key lookup. */
  function IndexOfLift(lifts: seq<Lift>, id: int): (r: Option<nat>)
    ensures r.Some? ==> r.value < |lifts| && lifts[r.value].id == id
    ensures r.Some? ==> forall j :: 0 <= j < r.value ==> lifts[j].id != id
    ensures r.None? <==> forall j :: 0 <= j < |lifts| ==> lifts[j].id != id
  {
    IndexWhere(lifts, (l: Lift) => l.id == id)
  }

  /** Primary keys are unique. */
  ghost predicate UniqueLiftIds(lifts: seq<Lift>) {
    forall i, j :: 0 <= i < j < |lifts| ==> lifts[i].id != lifts[j].id
  }

  /** Under unique keys the lookup of a lift's own id finds that lift. */
  lemma IndexOfOwnId(lifts: seq<Lift>, i: nat)
    requires UniqueLiftIds(lifts) && i < |lifts|
    ensures IndexOfLift(lifts, lifts[i].id) == Some(i)
  {
  }

  /** The first element of `xs` satisfying `p`, as a key lookup. */
  function IndexWhere<T>(xs: seq<T>, p: T -> bool): (r: Option<nat>)
    ensures r.Some? ==> r.value < |xs| && p(xs[r.value])
    ensures r.Some? ==> forall j :: 0 <= j < r.value ==> !p(xs[j])
    ensures r.None? <==> forall j :: 0 <= j < |xs| ==> !p(xs[j])
    decreases |xs|
  {
    if |xs| == 0 then None
    else if p(xs[0]) then Some(0)
    else
      var r := IndexWhere(xs[1..], p);
      assert forall j :: 1 <= j < |xs| ==> xs[1..][j - 1] == xs[j];
      if r.Some? then Some(r.value + 1) else None
  }
}
