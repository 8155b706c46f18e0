/** The meet-progress routes as one state machine over the meet-state row and
    the lift table. A rejected request leaves the store as it was. */
module MeetRun {
  import opened Wrappers
  import opened Records
  import opened Cursor
  import opened Queue
  import opened Verdict
  import opened Registration

  /** The requests that drive a meet. */
  datatype Request =
    | PostState(liftType: Option<LiftType>)
    | Advance
    | SetActive(targetId: Option<int>)
    | ScoreRequest(scoredId: int, pin: string, score: Option<bool>)

  /** The store invariant the meet keeps: the attempt number is 1 to 3 and
      lift ids are unique. */
  ghost predicate Valid(meet: Meet) {
    (meet.cursor.Some? ==> AttemptInRange(meet.cursor.value)) && UniqueLiftIds(meet.lifts)
  }

  /** One request. Cursor routes never touch a lift, scoring never touches the
      cursor, and no route adds, removes or renumbers a lift. */
  function Step(meet: Meet, req: Request): (r: Result<Meet, Error>)
    ensures r.Ok? && (req.PostState? || req.Advance?) ==> r.value.lifts == meet.lifts
    ensures r.Ok? && req.ScoreRequest? ==> r.value.cursor == meet.cursor
    ensures r.Ok? ==> SameIds(meet.lifts, r.value.lifts)
    ensures r.Ok? && req.SetActive? ==>
              r.value.cursor.Some? && meet.cursor.Some?
              && r.value.cursor.value.liftType == meet.cursor.value.liftType
              && r.value.cursor.value.attempt == meet.cursor.value.attempt
  {
    match req
    case PostState(t) => Ok(meet.(cursor := Some(PostMeetState(meet.cursor, t))))
    case Advance =>
      (match AdvanceAttempt(meet.cursor)
       case Ok(ms) => Ok(meet.(cursor := Some(ms)))
       case Err(e) => Err(e))
    case SetActive(id) => SetActiveLift(meet, id)
    case ScoreRequest(id, pin, score) =>
      (match ScoreLift(meet.lifts, id, pin, score)
       case Ok(lifts) => Ok(meet.(lifts := lifts))
       case Err(e) => Err(e))
  }

  /** Every request keeps the store invariant. */
  lemma StepKeepsValid(meet: Meet, req: Request)
    requires Valid(meet)
    ensures Step(meet, req).Ok? ==> Valid(Step(meet, req).value)
  {
    if Step(meet, req).Ok? {
      var m' := Step(meet, req).value;
      CursorRoutesKeepAttemptInRange(meet.cursor, if req.PostState? then req.liftType else None);
      assert SameIds(meet.lifts, m'.lifts);
    }
  }

  /** The store after a sequence of requests; rejected requests change
      nothing. */
  function Run(meet: Meet, reqs: seq<Request>): Meet
    decreases |reqs|
  {
    if |reqs| == 0 then meet
    else
      match Step(meet, reqs[0])
      case Ok(m') => Run(m', reqs[1..])
      case Err(_) => Run(meet, reqs[1..])
  }

  /** However the operator and judges drive the meet, the attempt number stays
      within 1 to 3, lift ids stay unique, and the lift table keeps its size
      and ids. */
  lemma {:induction false} RunKeepsValid(meet: Meet, reqs: seq<Request>)
    requires Valid(meet)
    ensures Valid(Run(meet, reqs))
    ensures SameIds(meet.lifts, Run(meet, reqs).lifts)
    decreases |reqs|
  {
    if |reqs| > 0 {
      StepKeepsValid(meet, reqs[0]);
      match Step(meet, reqs[0])
      case Ok(m') => RunKeepsValid(m', reqs[1..]);
      case Err(_) => RunKeepsValid(meet, reqs[1..]);
    }
  }

  /** Registering a lifter is the only way lifts are added. When the new
      lift ids lie above every stored one, the store stays valid, the old
      lifts keep their places, and every new lift starts out pending. */
  lemma RegistrationKeepsValid(meet: Meet, lifter: Lifter, weightClasses: seq<WeightClass>,
                               ageClasses: seq<AgeClass>, today: Date, firstLiftId: Id)
    requires Valid(meet)
    requires forall j :: 0 <= j < |meet.lifts| ==> meet.lifts[j].id < firstLiftId
    ensures var lifts' := RegisterLifter(lifter, weightClasses, ageClasses, today, meet.lifts, firstLiftId).1;
            && Valid(meet.(lifts := lifts'))
            && lifts'[..|meet.lifts|] == meet.lifts
            && forall k :: |meet.lifts| <= k < |lifts'| ==> lifts'[k].status == Pending
  {
  }

  /** Advancing the attempt while a lift is on the platform clears the cursor
      but leaves that lift active. It has left the queue, and the
      explicit-id route rejects it as not pending, so it cannot be put on the
      platform again. */
  lemma AdvanceStrandsActiveLift(l: Lift)
    requires l.status == Pending && l.liftType == Squat && l.attempt == 1
    ensures var m0 := Meet(Some(MeetState(Squat, 1, None)), [l]);
            var m1 := Step(m0, SetActive(None));
            && m1.Ok? && m1.value.lifts[0].status == Active
            && var m2 := Step(m1.value, Advance);
            && m2.Ok? && m2.value.cursor.value.active.None? && m2.value.lifts[0].status == Active
            && Step(m2.value, SetActive(Some(l.id))) == Err(NotPending)
            && NextInQueue(m2.value.lifts, m2.value.cursor.value).None?
  {
    var m0 := Meet(Some(MeetState(Squat, 1, None)), [l]);
    assert InQueue(l, m0.cursor.value);
    AutoSelectActivatesQueueHead(m0);
  }

  /** Switching the lift type while a lift is on the platform clears the
      cursor but leaves that lift active, so activating another lift then
      leaves two lifts active. */
  lemma LiftTypeChangeLeavesTwoActive(a: Lift, b: Lift)
    requires a.id != b.id
    requires a.status == Pending && a.liftType == Squat && a.attempt == 1
    requires b.status == Pending && b.liftType == Bench && b.attempt == 1
    ensures var m0 := Meet(Some(MeetState(Squat, 1, None)), [a, b]);
            var m1 := Step(m0, SetActive(None));
            && m1.Ok?
            && var m2 := Step(m1.value, PostState(Some(Bench)));
            && m2.Ok?
            && var m3 := Step(m2.value, SetActive(None));
            && m3.Ok? && m3.value.lifts[0].status == Active && m3.value.lifts[1].status == Active
  {
    var m0 := Meet(Some(MeetState(Squat, 1, None)), [a, b]);
    assert InQueue(m0.lifts[0], m0.cursor.value) && !InQueue(m0.lifts[1], m0.cursor.value);
    assert NextInQueue(m0.lifts, m0.cursor.value) == Some(0);
    AutoSelectActivatesQueueHead(m0);
    var m1 := Step(m0, SetActive(None)).value;
    var m2 := Step(m1, PostState(Some(Bench))).value;
    assert !InQueue(m2.lifts[0], m2.cursor.value) && InQueue(m2.lifts[1], m2.cursor.value);
    assert UniqueLiftIds(m2.lifts);
    assert NextInQueue(m2.lifts, m2.cursor.value) == Some(1);
    AutoSelectActivatesQueueHead(m2);
  }
}
