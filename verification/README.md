# Powerlifting meet core, modelled in Dafny

The system runs a powerlifting meet. Lifters register with a body weight, a
birth date and up to three openers (squat, bench, deadlift). At registration
they are placed in a primary weight class and a primary age class. Three
attempts are generated for every lift type that has an opener. During the
meet a single meet-state row (the cursor) holds the current lift type, the
attempt number (1 to 3) and the lift on the platform. The operator switches
lift type, advances the attempt, and puts lifts on the platform, either the
next one from the queue or a chosen one. Three judges, identified by PIN,
score each lift. Once at least two scores are in and one side has a strict
majority, the lift is decided and completed.

The model is functional. Every table is a sequence of immutable records, and
every route is a pure function that returns the new table or an error
(`Result`). The modules are:

- `Wrappers`: `Option` and `Result`.
- `Selection`: "filter, order by a key, take the first row", the shape of the
  class queries and the queue query.
- `Records`: lifts, lifters, classes, the cursor, and the lookup by primary
  key.
- `Classification`: age, and the primary weight and age classes.
- `Registration`: the lifts generated for a new lifter.
- `Verdict`: the judge PINs, scoring, and the overall result.
- `Cursor`: the lift-type and advance-attempt routes.
- `Queue`: the next lift in the queue, and activation.
- `MeetRun`: all meet routes as one state machine, and invariants over any
  run of requests.
- `Membership`: the add/remove additional-class routes.

Where `Backend/app.py` behaves in ways a reader might not expect, the model
follows the code:

- **Decision rule.** A lift is decided by a strict majority once at least
  two scores are cast, so two agreeing judges decide without the third.
- **Weight-class tie-break.** Among matching weight classes the one with
  the lowest lower bound wins.
- **Queue order.** The queue is ordered by weight and then by lifter id.
- **Activation by id.** Activating a lift by id does not check that its
  type or attempt number matches the cursor.
- **Scoring.** Scoring does not check that the lift is active, and it does
  not move the cursor.

## Model

| member | source | states |
|---|---|---|
| Selection.FirstLeast | Backend/app.py:198-202 | the first row, in key order, among rows passing the filter; `None` exactly when no row passes |
| Selection.FirstLeastCharacterized | Backend/app.py:198-202 | the pick is exactly the unique index that passes the filter, is least by the key, and comes first among ties |
| Classification.CalculateAge | Backend/app.py:53-55 | the age is the number of birthday anniversaries reached: the age-th anniversary is on or before today and the next one is after it |
| Classification.AgeIsAnniversaryCount | Backend/app.py:53-55 | any count of anniversaries reached, with the next one not reached, equals the computed age |
| Classification.AgeNonNegative | Backend/app.py:53-55 | a lifter born on or before today has a non-negative age |
| Classification.PrimaryWeightClass | Backend/app.py:198-202 | the chosen weight class covers the weight with a matching or "Both" gender, has the lowest lower bound among covering classes, and is absent only when none covers |
| Classification.PrimaryAgeClass | Backend/app.py:210-214 | the chosen age class covers the age, has the lowest lower bound among covering classes, and is absent only when none covers |
| Classification.AssignPrimaryClasses | Backend/app.py:195-219 | each primary class is unset exactly when no class matches, otherwise is the id of a matching class with the lowest lower bound among matching classes; no other lifter field changes |
| Classification.OnlyCoveringClass | Backend/app.py:198-202 | a weight class that is the only one covering the lifter is the one chosen |
| Classification.FemaleAt68IsWomens69 | Backend/app.py:198-202 | against the seeded weight classes a 68 kg female is placed in "Women's 69kg" |
| Classification.MaleAt125IsMens120Plus | Backend/app.py:198-202 | against the seeded weight classes a 125 kg male is placed in the open-ended "Men's 120+kg" |
| Classification.ThirteenIsUnclassified | Backend/app.py:210-219 | against the seeded age classes a 13-year-old gets no primary age class |
| Registration.GenerateLifts | Backend/app.py:223-248 | exactly one pending, unscored lift per attempt 1-3 of each lift type that has an opener and none for the others (three per opener), weighing opener, +5, +10, with weights rising within a type |
| Registration.RegisterLifter | Backend/app.py:387-404 | registration classifies the lifter and keeps the existing lifts in place; it appends three new lifts per opener, each a pending, unscored attempt of this lifter at its opener plus 5 per earlier attempt, numbered consecutively from the first new id; lift ids stay unique when every existing id lies below that first id (one lift per slot: `Registration.RegisterLifterSlots`) |
| Registration.AppendAttempts | Backend/app.py:223-248 | the lift table keeps its lifts in place and gains three pending, unscored attempts of the lifter per opener, at its opener plus 5 per earlier attempt, numbered consecutively from the first new id; ids stay unique when that id is fresh (one lift per slot: `Registration.AppendAttemptsSlots`) |
| Registration.AppendAttemptsSlots | Backend/app.py:223-248 | the appended lifts hold exactly one lift for each attempt 1 to 3 of each lift type with an opener, and none for the others |
| Registration.RegisterLifterSlots | Backend/app.py:387-404 | registration appends exactly one lift for each attempt 1 to 3 of each lift type with an opener, and none for the others |
| Registration.RegisterFemaleAt68 | Backend/app.py:387-404 | a 68 kg female with only a 100 kg squat opener is placed in weight class 13 and gets pending squat attempts at 100, 105 and 110 |
| Verdict.PinsMapToSeats | Backend/app.py:46-50 | every PIN names a recognised judge seat, no two PINs share a seat, and every seat has a PIN |
| Verdict.CastScoresCount | Backend/app.py:254-260 | the cast scores, and the passes and fails among them, match the per-seat counts |
| Verdict.UpdateOverallResult | Backend/app.py:252-270 | reports true exactly when at least two scores are cast; a strict majority sets the result and completes the lift; a tie or fewer than two scores leaves the lift as it was; scores never change |
| Verdict.ThreeScoresDecide | Backend/app.py:252-266 | with all three scores cast the lift is always completed, passing exactly when at least two scores pass |
| Verdict.TwoAgreeingScoresDecide | Backend/app.py:258-266 | two agreeing scores decide the lift while the third seat is empty |
| Verdict.SplitScoresChangeNothing | Backend/app.py:258-270 | a one-to-one split changes nothing, although the aggregation reports that it ran |
| Verdict.AnyOrderGivesMajority | Backend/app.py:561-587 | three judges scoring an unscored lift from distinct seats, in any order, complete it with the majority's result |
| Verdict.CorrectionAfterDecisionKeepsResult | Backend/app.py:561-587 | a score changed after the decision into a split leaves the earlier result and the completed status in place |
| Verdict.ScoreLift | Backend/app.py:561-587 | an unknown lift is rejected, then an unknown PIN; a known PIN always succeeds; only the scored lift changes, the judge's seat holds the score, the other seats are kept, and the result is re-derived |
| Cursor.PostMeetState | Backend/app.py:280-295 | naming a lift type switches to it, resets the attempt to 1 and clears the active lift; naming none leaves the row, or creates the default row |
| Cursor.AdvanceAttempt | Backend/app.py:298-311 | succeeds exactly when the row exists and the attempt is below 3, incrementing it and clearing the active lift; otherwise the matching error |
| Cursor.CursorRoutesKeepAttemptInRange | Backend/app.py:287-311 | both cursor routes keep the attempt number within 1 to 3 |
| Cursor.AdvanceStopsAtThree | Backend/app.py:298-311 | advancing n times from a valid attempt reaches min(attempt + n, 3), with the lift type unchanged |
| Cursor.ThirdAdvanceRejected | Backend/app.py:304-311 | from attempt 1 two advances succeed and the third is rejected |
| Queue.NextInQueue | Backend/app.py:324-328 | the next lift is a pending lift of the cursor's type and attempt that runs before every such lift by weight then lifter id; none exactly when there is no such lift |
| Queue.NextInQueueIsDetermined | Backend/app.py:324-328 | the queue head is the unique first-least queued lift, so ties go in table order |
| Queue.Activate | Backend/app.py:337-356 | unknown id, then non-pending lift, is rejected; otherwise the cursor points at the lift, which becomes active with cleared scores, a still-active previous lift returns to pending, and no other lift changes |
| Queue.SetActiveLift | Backend/app.py:313-362 | a missing cursor is rejected; without an id the queue head is activated, or on an empty queue the active lift is cleared and no lift changes; with an id that lift is activated |
| Queue.AutoSelectActivatesQueueHead | Backend/app.py:323-356 | with unique ids auto-selection on a non-empty queue succeeds and activates the queue head |
| Queue.ActivationKeepsSingleActive | Backend/app.py:343-356 | activating a lift keeps every active lift equal to the cursor's lift, if that held before, and keeps ids unique |
| Queue.AutoSelectTwicePicksAnother | Backend/app.py:323-356 | auto-selection on a non-empty queue succeeds, and the next queue head, if any, is not the lift now on the platform |
| MeetRun.Step | Backend/app.py:280-362 | cursor routes never touch a lift, scoring (the score route, `Backend/app.py:561-587`) never touches the cursor, and no route adds, removes or renumbers a lift |
| MeetRun.StepKeepsValid | Backend/app.py:280-362 | every request keeps the attempt within 1 to 3 and lift ids unique |
| MeetRun.RunKeepsValid | Backend/app.py:280-362 | over any sequence of requests the attempt stays within 1 to 3, lift ids stay unique, and the lift table keeps its size and ids |
| MeetRun.AdvanceStrandsActiveLift | Backend/app.py:304-341 | advancing while a lift is on the platform leaves it active but off the cursor; it is out of the queue and activating it by id is rejected |
| MeetRun.RegistrationKeepsValid | Backend/app.py:387-404 | registering a lifter with fresh lift ids keeps the meet invariant, keeps the stored lifts in place, and adds only pending lifts |
| MeetRun.LiftTypeChangeLeavesTwoActive | Backend/app.py:289-356 | switching lift type while a lift is on the platform, then auto-selecting, leaves two lifts active |
| Membership.RemoveFirst | Backend/app.py:440-441 | removal takes out one occurrence of the class and keeps the other elements |
| Membership.AddClass | Backend/app.py:421-427 | succeeds exactly when the class is not yet on the lifter's list, appending it; otherwise "already added"; nothing else about the lifter changes |
| Membership.RemoveClass | Backend/app.py:440-445 | succeeds exactly when the class is on the lifter's list, removing one occurrence; otherwise "not on lifter"; nothing else about the lifter changes |
| Membership.AddThenRemoveRestores | Backend/app.py:421-445 | removing a class just added succeeds and gives the class list back exactly |
| Membership.RemoveThenAddRestoresMembership | Backend/app.py:421-445 | on a repeat-free list, adding a class just removed succeeds and restores the same classes and the same list length |
| Membership.AddKeepsNoRepeats | Backend/app.py:421-427 | adding keeps a lifter's class list free of repeats |
| Membership.AddAdditionalClass | Backend/app.py:411-427 | unknown lifter, then unknown or missing class id, then a class already listed is rejected; otherwise only that lifter changes, by the per-lifter add |
| Membership.RemoveAdditionalClass | Backend/app.py:429-445 | unknown lifter, then unknown or missing class id, then a class not listed is rejected; otherwise only that lifter changes, by the per-lifter remove |
| Membership.RouteAddThenRemoveRestores | Backend/app.py:411-445 | through the routes, removing a class just added restores the lifter table exactly |
| Membership.PrimaryClassCanBeAdditional | Backend/app.py:411-427 | nothing stops a lifter's primary weight class from also being added as additional |

The age-class routes (`Backend/app.py:447-481`) are the same functions with
`ClassKind` set to `AgeKind`.

## Left out

- HTTP, JSON parsing, status codes, SQLAlchemy sessions and commits, Socket.IO
  events, CORS, and the connect/disconnect handlers. These are transport and
  persistence. Each route returns the new tables or an error value instead.
- `date.today()` in `calculate_age` is a parameter, `today`.
- Weights are exact reals. Floating-point rounding of `opener + 5` and of
  class bounds is not modelled.
- Lift type is an enumeration. The source stores any string of up to 50
  characters that the client sends as `current_lift_type`
  (`Backend/app.py:60`); a string outside squat/bench/deadlift would give an
  empty queue.
- Scores are `bool` or null. Other JSON values, which the source writes into
  a Boolean column (`Backend/app.py:171-173`), are not modelled.
- When an SQL `ORDER BY` key ties, the row order is unspecified. The model
  breaks ties by table order.
- `Registration.GenerateLifts`: new lift ids are taken to be consecutive
  from a given first id. The database's key assignment is not modelled.
- `Registration.RegisterLifter`: the lifter is taken as already stored with
  its id, and there is no lifter table. The rejection of a duplicate
  `lifter_id_number`, which is a unique column (`Backend/app.py:76`) and
  makes the commit at `Backend/app.py:402` fail, is not modelled.
- `Membership.AddAdditionalClass`: a class on the list is matched by id.
  The source matches the ORM object, which is the same under unique primary
  keys.
- The "judge not recognised" branch of the score route cannot be reached:
  every PIN in the table names a seat (`Verdict.PinsMapToSeats`). It is kept
  as an error value.
- Not modelled:
  - the read-only routes: current lift, next lift in queue, lift list,
    lifter list and meet-state GET beyond row creation;
  - judge login, which is the same PIN lookup as scoring;
  - data export;
  - creating and deleting classes;
  - the frontend.
- The seeded class tables are modelled only as data
  (`Classification.DefaultWeightClasses`, `Classification.DefaultAgeClasses`).
  The table-creation routine itself is not modelled.
