/** Choosing and activating the lift on the platform. Without an id the next
    lift is taken from the queue: pending lifts of the current lift type and
    attempt number, lightest first, then by lifter id. With an id, any pending
    lift may be activated, whatever its type or attempt number. */
module Queue {
  import opened Wrappers
  import opened Records
  import opened Selection

  /** Lift `l` is waiting in the queue of cursor `ms`. */
  predicate InQueue(l: Lift, ms: MeetState) {
    l.status == Pending && l.liftType == ms.liftType && l.attempt == ms.attempt
  }

  /** Queue order: ascending weight, then ascending lifter id. */
  predicate RunsBefore(a: Lift, b: Lift) {
    a.weight < b.weight || (a.weight == b.weight && a.lifterId <= b.lifterId)
  }

  /** The position of the next lift in the queue: a queued lift that runs
      before every queued lift, or `None` when the queue is empty. */
  function NextInQueue(lifts: seq<Lift>, ms: MeetState): (r: Option<nat>)
    ensures r.Some? ==> r.value < |lifts| && InQueue(lifts[r.value], ms)
    ensures r.Some? ==> forall j :: 0 <= j < |lifts| && InQueue(lifts[j], ms) ==> RunsBefore(lifts[r.value], lifts[j])
    ensures r.None? <==> forall j :: 0 <= j < |lifts| ==> !InQueue(lifts[j], ms)
  {
    assert TotalPreorder(RunsBefore);
    FirstLeast(lifts, (l: Lift) => InQueue(l, ms), RunsBefore)
  }

  /** The pick is reproducible: it is the one queued lift that runs before all
      queued lifts and strictly after no earlier-stored queued lift, so lifts
      tied on weight and lifter id go in table order. */
  lemma NextInQueueIsDetermined(lifts: seq<Lift>, ms: MeetState, i: int)
    ensures NextInQueue(lifts, ms) == Some(i) <==> IsFirstLeast(lifts, (l: Lift) => InQueue(l, ms), RunsBefore, i)
  {
    assert TotalPreorder(RunsBefore);
    FirstLeastCharacterized(lifts, (l: Lift) => InQueue(l, ms), RunsBefore, i);
  }

  /** A lift as it goes on the platform: active, with its scores and overall
      result cleared so it can be judged afresh. */
  function Activated(l: Lift): (r: Lift)
    ensures r.status == Active && r.overall.None?
    ensures forall j: Judge :: r.Vote(j).None?
    ensures r.(status := l.status, judge1 := l.judge1, judge2 := l.judge2, judge3 := l.judge3, overall := l.overall) == l
  {
    l.(status := Active, judge1 := None, judge2 := None, judge3 := None, overall := None)
  }

  /** The position of the lift the cursor points at, when that lift is still
      active: the one lift activation sends back to pending. */
  function PreviousActive(lifts: seq<Lift>, ms: MeetState): (r: Option<nat>)
    ensures r.Some? ==> r.value < |lifts| && ms.active == Some(lifts[r.value].id) && lifts[r.value].status == Active
    ensures r.None? ==> ms.active.None? || IndexOfLift(lifts, ms.active.value).None?
                        || lifts[IndexOfLift(lifts, ms.active.value).value].status != Active
    ensures r.Some? ==> r == IndexOfLift(lifts, ms.active.value)
  {
    match ms.active
    case None => None
    case Some(p) =>
      match IndexOfLift(lifts, p)
      case None => None
      case Some(k) => if lifts[k].status == Active then Some(k) else None
  }

  /** Ids and table positions are the same in `a` and `b`. */
  ghost predicate SameIds(a: seq<Lift>, b: seq<Lift>) {
    |a| == |b| && forall j :: 0 <= j < |a| ==> a[j].id == b[j].id
  }

  /** Activates the lift with id `id` under cursor `ms`. A missing id or a lift
      that is not pending is rejected. Otherwise the previously active lift
      returns to pending if it is still active (a completed one is left
      alone), the target becomes active with cleared scores, the cursor points
      at it, and no other lift changes. The lift type and attempt number of
      the target are not checked against the cursor. */
  function Activate(lifts: seq<Lift>, ms: MeetState, id: int): (r: Result<Meet, Error>)
    ensures IndexOfLift(lifts, id).None? ==> r == Err(LiftNotFound)
    ensures IndexOfLift(lifts, id).Some? && lifts[IndexOfLift(lifts, id).value].status != Pending ==> r == Err(NotPending)
    ensures IndexOfLift(lifts, id).Some? && lifts[IndexOfLift(lifts, id).value].status == Pending ==> r.Ok?
    ensures r.Ok? ==>
              var i := IndexOfLift(lifts, id).value;
              var lifts' := r.value.lifts;
              && r.value.cursor == Some(ms.(active := Some(lifts[i].id)))
              && SameIds(lifts, lifts')
              && lifts'[i] == Activated(lifts[i])
              && (PreviousActive(lifts, ms).Some? ==>
                    lifts'[PreviousActive(lifts, ms).value] == lifts[PreviousActive(lifts, ms).value].(status := Pending))
              && (forall j :: 0 <= j < |lifts| && j != i && Some(j) != PreviousActive(lifts, ms) ==> lifts'[j] == lifts[j])
  {
    match IndexOfLift(lifts, id)
    case None => Err(LiftNotFound)
    case Some(i) =>
      if lifts[i].status != Pending then Err(NotPending)
      else
        var demoted :=
          match PreviousActive(lifts, ms)
          case Some(k) => lifts[k := lifts[k].(status := Pending)]
          case None => lifts;
        Ok(Meet(Some(ms.(active := Some(lifts[i].id))), demoted[i := Activated(demoted[i])]))
  }

  /** The set-active-lift route. Without an id it activates the head of the
      queue, or, when the queue is empty, clears the cursor's active lift and
      changes no lift. With an id it activates that lift as `Activate` says. */
  function SetActiveLift(meet: Meet, liftId: Option<int>): (r: Result<Meet, Error>)
    ensures meet.cursor.None? ==> r == Err(MeetStateNotInitialized)
    ensures meet.cursor.Some? && liftId.None? && NextInQueue(meet.lifts, meet.cursor.value).None? ==>
              r == Ok(Meet(Some(meet.cursor.value.(active := None)), meet.lifts))
    ensures meet.cursor.Some? && liftId.None? && NextInQueue(meet.lifts, meet.cursor.value).Some? ==>
              r == Activate(meet.lifts, meet.cursor.value, meet.lifts[NextInQueue(meet.lifts, meet.cursor.value).value].id)
    ensures meet.cursor.Some? && liftId.Some? ==> r == Activate(meet.lifts, meet.cursor.value, liftId.value)
  {
    match meet.cursor
    case None => Err(MeetStateNotInitialized)
    case Some(ms) =>
      match liftId
      case Some(id) => Activate(meet.lifts, ms, id)
      case None =>
        match NextInQueue(meet.lifts, ms)
        case None => Ok(Meet(Some(ms.(active := None)), meet.lifts))
        case Some(i) => Activate(meet.lifts, ms, meet.lifts[i].id)
  }

  /** With unique lift ids, auto-selection never fails on a non-empty queue:
      it activates the queue head, points the cursor at it, and leaves the
      lift type and attempt number alone. */
  lemma AutoSelectActivatesQueueHead(meet: Meet)
    requires meet.cursor.Some? && UniqueLiftIds(meet.lifts)
    requires NextInQueue(meet.lifts, meet.cursor.value).Some?
    ensures var i := NextInQueue(meet.lifts, meet.cursor.value).value;
            var r := SetActiveLift(meet, None);
            && r.Ok?
            && r.value.cursor == Some(meet.cursor.value.(active := Some(meet.lifts[i].id)))
            && r.value.lifts[i] == Activated(meet.lifts[i])
  {
    var i := NextInQueue(meet.lifts, meet.cursor.value).value;
    IndexOfOwnId(meet.lifts, i);
  }

  /** Every active lift is the one the cursor points at. */
  ghost predicate SingleActive(meet: Meet) {
    forall j :: 0 <= j < |meet.lifts| && meet.lifts[j].status == Active ==>
      meet.cursor.Some? && meet.cursor.value.active == Some(meet.lifts[j].id)
  }

  /** Activating a lift keeps at most one lift active, provided that held
      before: the previous one goes back to pending and the cursor moves to
      the new one. Both paths of the set-active-lift route that activate a
      lift go through here; clearing the cursor on an empty queue does not
      send the previous lift back. */
  lemma ActivationKeepsSingleActive(lifts: seq<Lift>, ms: MeetState, id: int)
    requires UniqueLiftIds(lifts) && SingleActive(Meet(Some(ms), lifts))
    requires Activate(lifts, ms, id).Ok?
    ensures SingleActive(Activate(lifts, ms, id).value)
    ensures UniqueLiftIds(Activate(lifts, ms, id).value.lifts)
  {
    var m' := Activate(lifts, ms, id).value;
    var i := IndexOfLift(lifts, id).value;
    forall j | 0 <= j < |m'.lifts| && m'.lifts[j].status == Active
      ensures m'.cursor.value.active == Some(m'.lifts[j].id)
    {
      if j != i && Some(j) != PreviousActive(lifts, ms) {
        assert false;
      }
    }
  }

  /** Auto-selection takes the queue head out of the queue: afterwards the
      next pick, if any, is a different lift from the one now on the
      platform. */
  lemma AutoSelectTwicePicksAnother(meet: Meet)
    requires meet.cursor.Some? && UniqueLiftIds(meet.lifts)
    requires NextInQueue(meet.lifts, meet.cursor.value).Some?
    ensures var m1 := SetActiveLift(meet, None);
            && m1.Ok? && m1.value.cursor.Some? && m1.value.cursor.value.active.Some?
            && var next := NextInQueue(m1.value.lifts, m1.value.cursor.value);
            && (next.Some? ==> m1.value.lifts[next.value].id != m1.value.cursor.value.active.value)
  {
    var i := NextInQueue(meet.lifts, meet.cursor.value).value;
    AutoSelectActivatesQueueHead(meet);
    var m1 := SetActiveLift(meet, None).value;
    assert m1.lifts[i].status == Active;
    var next := NextInQueue(m1.lifts, m1.cursor.value);
    if next.Some? {
      assert m1.lifts[next.value].status == Pending;
      assert SameIds(meet.lifts, m1.lifts);
      assert next.value != i;
    }
  }
}
