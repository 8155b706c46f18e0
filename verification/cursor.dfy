/** The meet-state cursor routes: switching the current lift type and
    advancing the attempt number. Both clear the lift on the platform. */
module Cursor {
  import opened Wrappers
  import opened Records

  /** Attempt numbers run from 1 to 3. */
  predicate AttemptInRange(ms: MeetState) {
    1 <= ms.attempt <= 3
  }

  /** The meet-state row as the routes see it: the stored row, or the default
      row created on first access. */
  function Initialized(state: Option<MeetState>): (ms: MeetState)
    ensures state.Some? ==> ms == state.value
    ensures state.None? ==> ms.liftType == Squat && ms.attempt == 1 && ms.active.None?
  {
    state.GetOr(DefaultMeetState)
  }

  /** The meet-state update route. Naming a lift type switches to it, restarts
      at attempt 1 and clears the active lift, even when the type is the
      current one; naming none leaves the row as it is. */
  function PostMeetState(state: Option<MeetState>, liftType: Option<LiftType>): (ms: MeetState)
    ensures liftType.Some? ==> ms.liftType == liftType.value && ms.attempt == 1 && ms.active.None?
    ensures liftType.None? ==> ms == Initialized(state)
  {
    var current := Initialized(state);
    match liftType
    case Some(t) => current.(liftType := t, attempt := 1, active := None)
    case None => current
  }

  /** The advance-attempt route: moves to the next attempt number and clears
      the active lift while the attempt number is below 3; at 3 it is
      rejected. It never creates a missing row. */
  function AdvanceAttempt(state: Option<MeetState>): (r: Result<MeetState, Error>)
    ensures r.Ok? <==> state.Some? && state.value.attempt < 3
    ensures r.Ok? ==> && r.value.liftType == state.value.liftType
                      && r.value.attempt == state.value.attempt + 1
                      && r.value.active.None?
    ensures state.None? ==> r == Err(MeetStateNotInitialized)
    ensures state.Some? && state.value.attempt >= 3 ==> r == Err(MaxAttemptReached)
  {
    match state
    case None => Err(MeetStateNotInitialized)
    case Some(ms) =>
      if ms.attempt < 3 then Ok(ms.(attempt := ms.attempt + 1, active := None))
      else Err(MaxAttemptReached)
  }

  /** Both cursor routes keep the attempt number within 1 to 3. */
  lemma CursorRoutesKeepAttemptInRange(state: Option<MeetState>, liftType: Option<LiftType>)
    requires state.Some? ==> AttemptInRange(state.value)
    ensures AttemptInRange(PostMeetState(state, liftType))
    ensures AdvanceAttempt(state).Ok? ==> AttemptInRange(AdvanceAttempt(state).value)
  {
  }

  /** The attempt number after advancing `n` times from `ms`, stopping at the
      first rejected advance. */
  function AdvanceTimes(ms: MeetState, n: nat): (r: MeetState)
    decreases n
  {
    if n == 0 then ms
    else match AdvanceAttempt(Some(ms))
      case Ok(next) => AdvanceTimes(next, n - 1)
      case Err(_) => ms
  }

  /** However often the operator advances, the attempt number climbs one at a
      time and stops at 3. */
  lemma {:induction false} AdvanceStopsAtThree(ms: MeetState, n: nat)
    requires AttemptInRange(ms)
    ensures AdvanceTimes(ms, n).attempt == if ms.attempt + n <= 3 then ms.attempt + n else 3
    ensures AdvanceTimes(ms, n).liftType == ms.liftType
    decreases n
  {
    if n > 0 && ms.attempt < 3 {
      AdvanceStopsAtThree(ms.(attempt := ms.attempt + 1, active := None), n - 1);
    }
  }

  /** From attempt 1 the third advance is the first to be rejected. */
  lemma ThirdAdvanceRejected(ms: MeetState)
    requires ms.attempt == 1
    ensures AdvanceAttempt(Some(ms)).Ok?
    ensures AdvanceAttempt(Some(AdvanceAttempt(Some(ms)).value)).Ok?
    ensures AdvanceAttempt(Some(AdvanceAttempt(Some(AdvanceAttempt(Some(ms)).value)).value)) == Err(MaxAttemptReached)
  {
  }
}
