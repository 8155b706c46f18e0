/** Registering a lifter: classification, then three attempts for every lift
    type with a declared opener, at the opener, +5 and +10. */
module Registration {
  import opened Wrappers
  import opened Records
  import opened Classification

  /** The order in which lift types are generated. */
  const LiftOrder: seq<LiftType> := [Squat, Bench, Deadlift]

  /** A freshly stored lift: pending, with no scores and no overall result. */
  function NewLift(id: Id, lifterId: Id, t: LiftType, attempt: int, weight: real): (l: Lift)
    ensures l.status == Pending && l.overall.None?
    ensures forall j: Judge :: l.Vote(j).None?
  {
    Lift(id, lifterId, t, attempt, weight, Pending, None, None, None, None)
  }

  /** The (lift type, attempt number) slot of each lift, in order. */
  function Slots(lifts: seq<Lift>): (r: seq<(LiftType, int)>)
    ensures |r| == |lifts|
    ensures forall k :: 0 <= k < |lifts| ==> r[k] == (lifts[k].liftType, lifts[k].attempt)
  {
    seq(|lifts|, k requires 0 <= k < |lifts| => (lifts[k].liftType, lifts[k].attempt))
  }

  lemma SlotsAppend(a: seq<Lift>, b: seq<Lift>)
    ensures Slots(a + b) == Slots(a) + Slots(b)
  {
  }

  /** A lift generated for `lifter`: pending, unscored, of a type with an
      opener, attempt 1 to 3, weighing the opener plus 5 per earlier attempt. */
  ghost predicate GeneratedFor(lifter: Lifter, l: Lift) {
    && l.lifterId == lifter.id
    && l.status == Pending
    && l.overall.None? && l.judge1.None? && l.judge2.None? && l.judge3.None?
    && lifter.Opener(l.liftType).Some?
    && 1 <= l.attempt <= 3
    && l.weight == lifter.Opener(l.liftType).value + 5.0 * (l.attempt - 1) as real
  }

  /** The number of lift types for which `lifter` declared an opener. */
  function OpenerCount(lifter: Lifter): nat {
    (if lifter.openerSquat.Some? then 1 else 0)
    + (if lifter.openerBench.Some? then 1 else 0)
    + (if lifter.openerDeadlift.Some? then 1 else 0)
  }

  /** The number of lift types in `types` that have an opener. */
  function OpenedCount(lifter: Lifter, types: seq<LiftType>): nat {
    if |types| == 0 then 0
    else (if lifter.Opener(types[0]).Some? then 1 else 0) + OpenedCount(lifter, types[1..])
  }

  /** The three attempts at `opener`, `opener` + 5 and `opener` + 10 for lift
      type `t`, stored with consecutive ids from `firstId`. */
  function ThreeAttempts(lifter: Lifter, t: LiftType, opener: real, firstId: Id): (r: seq<Lift>)
    requires lifter.Opener(t) == Some(opener)
    ensures |r| == 3
    ensures forall k :: 0 <= k < 3 ==> r[k].id == firstId + k && r[k].liftType == t && GeneratedFor(lifter, r[k])
    ensures Slots(r) == [(t, 1), (t, 2), (t, 3)]
  {
    [NewLift(firstId, lifter.id, t, 1, opener),
     NewLift(firstId + 1, lifter.id, t, 2, opener + 5.0),
     NewLift(firstId + 2, lifter.id, t, 3, opener + 10.0)]
  }

  /** The lifts for the lift types `types`, stored with consecutive ids from
      `firstId`. */
  function GenerateFor(lifter: Lifter, types: seq<LiftType>, firstId: Id): (r: seq<Lift>)
    requires forall i, j :: 0 <= i < j < |types| ==> types[i] != types[j]
    ensures |r| == 3 * OpenedCount(lifter, types)
    ensures forall k :: 0 <= k < |r| ==> r[k].id == firstId + k && GeneratedFor(lifter, r[k])
    ensures forall t, n :: multiset(Slots(r))[(t, n)] ==
              if t in types && lifter.Opener(t).Some? && 1 <= n <= 3 then 1 else 0
    decreases |types|
  {
    if |types| == 0 then []
    else
      var t := types[0];
      var opener := lifter.Opener(t);
      var here := if opener.Some? then ThreeAttempts(lifter, t, opener.value, firstId) else [];
      var rest := GenerateFor(lifter, types[1..], firstId + |here|);
      SlotsOfGenerated(lifter, types, here, rest);
      here + rest
  }

  /** The slot count of the lifts for `types` is that of the first type's
      lifts plus that of the rest. */
  lemma SlotsOfGenerated(lifter: Lifter, types: seq<LiftType>, here: seq<Lift>, rest: seq<Lift>)
    requires |types| > 0 && types[0] !in types[1..]
    requires Slots(here) == if lifter.Opener(types[0]).Some? then [(types[0], 1), (types[0], 2), (types[0], 3)] else []
    requires forall t, n :: multiset(Slots(rest))[(t, n)] ==
               if t in types[1..] && lifter.Opener(t).Some? && 1 <= n <= 3 then 1 else 0
    ensures forall t, n :: multiset(Slots(here + rest))[(t, n)] ==
              if t in types && lifter.Opener(t).Some? && 1 <= n <= 3 then 1 else 0
  {
    SlotsAppend(here, rest);
    assert multiset(Slots(here + rest)) == multiset(Slots(here)) + multiset(Slots(rest));
    forall t, n
      ensures multiset(Slots(here + rest))[(t, n)] ==
                if t in types && lifter.Opener(t).Some? && 1 <= n <= 3 then 1 else 0
    {
      assert t in types <==> t == types[0] || t in types[1..];
    }
  }

  /** `LiftOrder` lists every lift type exactly once. */
  lemma LiftOrderFacts(lifter: Lifter)
    ensures forall i, j :: 0 <= i < j < |LiftOrder| ==> LiftOrder[i] != LiftOrder[j]
    ensures forall t: LiftType :: t in LiftOrder
    ensures OpenedCount(lifter, LiftOrder) == OpenerCount(lifter)
  {
    forall t: LiftType ensures t in LiftOrder {
      match t
      case Squat => assert LiftOrder[0] == Squat;
      case Bench => assert LiftOrder[1] == Bench;
      case Deadlift => assert LiftOrder[2] == Deadlift;
    }
    assert [Deadlift][1..] == [];
    assert OpenedCount(lifter, [Deadlift]) == if lifter.openerDeadlift.Some? then 1 else 0;
    assert [Bench, Deadlift][1..] == [Deadlift];
    assert LiftOrder[1..] == [Bench, Deadlift];
  }

  /** The lifts generated at registration: exactly one lift for each attempt
      1 to 3 of each lift type with an opener and none for the others, so
      three per opener, with weights rising by 5 from attempt to attempt. */
  function GenerateLifts(lifter: Lifter, firstId: Id): (r: seq<Lift>)
    ensures |r| == 3 * OpenerCount(lifter)
    ensures forall k :: 0 <= k < |r| ==> r[k].id == firstId + k && GeneratedFor(lifter, r[k])
    ensures forall t, n :: multiset(Slots(r))[(t, n)] ==
              if lifter.Opener(t).Some? && 1 <= n <= 3 then 1 else 0
    ensures forall k1, k2 ::
              (0 <= k1 < |r| && 0 <= k2 < |r| && r[k1].liftType == r[k2].liftType && r[k1].attempt < r[k2].attempt)
              ==> r[k1].weight < r[k2].weight
  {
    LiftOrderFacts(lifter);
    GenerateFor(lifter, LiftOrder, firstId)
  }

  /** Registers `lifter` (stored under its id): assigns its primary classes,
      then appends its generated lifts, with ids from `firstLiftId`, to the
      existing lifts. The existing lifts are kept, the new ones are the
      lifter's attempts, three per opener, and when every existing id lies
      below `firstLiftId` lift ids stay unique. */
  function RegisterLifter(lifter: Lifter, weightClasses: seq<WeightClass>, ageClasses: seq<AgeClass>,
                          today: Date, lifts: seq<Lift>, firstLiftId: Id): (r: (Lifter, seq<Lift>))
    ensures r.0 == AssignPrimaryClasses(lifter, weightClasses, ageClasses, today)
    ensures |r.1| == |lifts| + 3 * OpenerCount(lifter)
    ensures r.1[..|lifts|] == lifts
    ensures forall k :: |lifts| <= k < |r.1| ==>
              r.1[k].id == firstLiftId + (k - |lifts|) && GeneratedFor(lifter, r.1[k])
    ensures UniqueLiftIds(lifts) && (forall j :: 0 <= j < |lifts| ==> lifts[j].id < firstLiftId) ==>
              UniqueLiftIds(r.1)
  {
    (AssignPrimaryClasses(lifter, weightClasses, ageClasses, today), AppendAttempts(lifter, lifts, firstLiftId))
  }

  /** The lift table with the attempts of `lifter` appended, numbered upwards
      from `firstId`. */
  function AppendAttempts(lifter: Lifter, lifts: seq<Lift>, firstId: Id): (r: seq<Lift>)
    ensures |r| == |lifts| + 3 * OpenerCount(lifter)
    ensures r[..|lifts|] == lifts
    ensures forall k :: |lifts| <= k < |r| ==> r[k].id == firstId + (k - |lifts|) && GeneratedFor(lifter, r[k])
    ensures UniqueLiftIds(lifts) && (forall j :: 0 <= j < |lifts| ==> lifts[j].id < firstId) ==>
              UniqueLiftIds(r)
  {
    var generated := NumberedAttempts(lifter, firstId);
    AppendGenerated(lifter, lifts, generated, firstId);
    lifts + generated
  }

  /** `GenerateLifts` with only the facts the registration proofs use: three
      per opener, numbered upwards from `firstId`, each generated for
      `lifter`. The slot count and weight order are left out of this contract
      so they do not weigh on those proofs; `RegisterLifterSlots` and
      `AppendAttemptsSlots` recover the slot count. */
  function NumberedAttempts(lifter: Lifter, firstId: Id): (r: seq<Lift>)
    ensures |r| == 3 * OpenerCount(lifter)
    ensures forall k :: 0 <= k < |r| ==> r[k].id == firstId + k && GeneratedFor(lifter, r[k])
  {
    GenerateLifts(lifter, firstId)
  }

  /** The lift table after appending lifts generated for `lifter`: the old
      lifts first, then the new ones with their ids, and unique ids when the
      new ids are fresh. */
  lemma AppendGenerated(lifter: Lifter, lifts: seq<Lift>, generated: seq<Lift>, firstId: int)
    requires forall k :: 0 <= k < |generated| ==> generated[k].id == firstId + k && GeneratedFor(lifter, generated[k])
    ensures |lifts + generated| == |lifts| + |generated|
    ensures (lifts + generated)[..|lifts|] == lifts
    ensures forall k :: |lifts| <= k < |lifts + generated| ==>
              (lifts + generated)[k].id == firstId + (k - |lifts|) && GeneratedFor(lifter, (lifts + generated)[k])
    ensures UniqueLiftIds(lifts) && (forall j :: 0 <= j < |lifts| ==> lifts[j].id < firstId) ==>
              UniqueLiftIds(lifts + generated)
  {
    FreshIdsKeepUnique(lifts, generated, firstId);
    assert forall k :: |lifts| <= k < |lifts + generated| ==> (lifts + generated)[k] == generated[k - |lifts|];
  }

  /** Appending lifts numbered upwards from `firstId` to lifts whose ids all
      lie below it keeps ids unique. */
  lemma FreshIdsKeepUnique(lifts: seq<Lift>, added: seq<Lift>, firstId: int)
    requires forall k :: 0 <= k < |added| ==> added[k].id == firstId + k
    ensures UniqueLiftIds(lifts) && (forall j :: 0 <= j < |lifts| ==> lifts[j].id < firstId) ==>
              UniqueLiftIds(lifts + added)
  {
    if UniqueLiftIds(lifts) && (forall j :: 0 <= j < |lifts| ==> lifts[j].id < firstId) {
      var all := lifts + added;
      forall i, j | 0 <= i < j < |all| ensures all[i].id != all[j].id {
        if j >= |lifts| {
          assert all[j] == added[j - |lifts|];
          if i >= |lifts| {
            assert all[i] == added[i - |lifts|];
          }
        }
      }
    }
  }

  /** The appended lifts hold exactly one lift for each attempt 1 to 3 of
      each lift type with an opener, and none for the others. */
  lemma AppendAttemptsSlots(lifter: Lifter, lifts: seq<Lift>, firstId: Id)
    ensures var r := AppendAttempts(lifter, lifts, firstId);
            forall t, n :: multiset(Slots(r[|lifts|..]))[(t, n)] ==
              if lifter.Opener(t).Some? && 1 <= n <= 3 then 1 else 0
  {
    var g := GenerateLifts(lifter, firstId);
    assert AppendAttempts(lifter, lifts, firstId) == lifts + g;
    assert (lifts + g)[|lifts|..] == g;
  }

  /** Registration appends exactly one lift for each attempt 1 to 3 of each
      lift type with an opener, and none for the others. */
  lemma RegisterLifterSlots(lifter: Lifter, weightClasses: seq<WeightClass>, ageClasses: seq<AgeClass>,
                            today: Date, lifts: seq<Lift>, firstLiftId: Id)
    ensures var r := RegisterLifter(lifter, weightClasses, ageClasses, today, lifts, firstLiftId).1;
            forall t, n :: multiset(Slots(r[|lifts|..]))[(t, n)] ==
              if lifter.Opener(t).Some? && 1 <= n <= 3 then 1 else 0
  {
    AppendAttemptsSlots(lifter, lifts, firstLiftId);
  }

  /** With a squat opener only, the generated lifts are the three squat
      attempts, in order. */
  lemma SquatOnlyLifts(lifter: Lifter, firstId: Id)
    requires lifter.openerSquat.Some? && lifter.openerBench.None? && lifter.openerDeadlift.None?
    ensures GenerateLifts(lifter, firstId) == ThreeAttempts(lifter, Squat, lifter.openerSquat.value, firstId)
  {
    var g := GenerateLifts(lifter, firstId);
    var tail := GenerateFor(lifter, LiftOrder[1..], firstId + 3);
    assert LiftOrder[1..] == [Bench, Deadlift];
    assert |tail| == 0 by {
      assert [Bench, Deadlift][1..] == [Deadlift];
      assert [Deadlift][1..] == [];
      assert OpenedCount(lifter, [Deadlift]) == 0;
    }
    assert g == ThreeAttempts(lifter, Squat, lifter.openerSquat.value, firstId) + tail;
  }

  /** Against the seeded tables, a 68 kg female lifter is assigned the
      primary weight class "Women's 69kg" (id 13). */
  lemma AssignFemaleAt68(lifter: Lifter, today: Date)
    requires lifter.gender == "Female" && lifter.actualWeight == 68.0
    ensures AssignPrimaryClasses(lifter, DefaultWeightClasses, DefaultAgeClasses, today).primaryWeightClass == Some(13)
  {
    FemaleAt68IsWomens69();
    assert DefaultWeightClasses[12].id == 13;
  }

  /** A female lifter of 68 kg with a 100 kg squat opener only, registered
      against the seeded tables, is placed in "Women's 69kg" (id 13) and gets
      pending squat attempts of 100, 105 and 110. */
  lemma RegisterFemaleAt68(lifter: Lifter, today: Date, firstLiftId: Id)
    requires lifter.gender == "Female" && lifter.actualWeight == 68.0
    requires lifter.openerSquat == Some(100.0) && lifter.openerBench.None? && lifter.openerDeadlift.None?
    ensures RegisterLifter(lifter, DefaultWeightClasses, DefaultAgeClasses, today, [], firstLiftId).0.primaryWeightClass == Some(13)
    ensures RegisterLifter(lifter, DefaultWeightClasses, DefaultAgeClasses, today, [], firstLiftId).1 ==
              [NewLift(firstLiftId, lifter.id, Squat, 1, 100.0),
               NewLift(firstLiftId + 1, lifter.id, Squat, 2, 105.0),
               NewLift(firstLiftId + 2, lifter.id, Squat, 3, 110.0)]
  {
    AssignFemaleAt68(lifter, today);
    SquatOnlyLifts(lifter, firstLiftId);
  }
}
