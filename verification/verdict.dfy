/** Judging a lift: a judge identified by PIN records a score in their own
    seat, and the overall result is decided once at least two judges have
    scored and one side has a strict majority. */
module Verdict {
  import opened Wrappers
  import opened Records

  /** The static PIN table: PIN to judge name. */
  const JudgePins: map<string, string> := map["1111" := "Judge 1", "2222" := "Judge 2", "3333" := "Judge 3"]

  /** The seat a judge name stands for; other names are not recognised. */
  function SeatOfName(name: string): Option<Judge> {
    if name == "Judge 1" then Some(Judge1)
    else if name == "Judge 2" then Some(Judge2)
    else if name == "Judge 3" then Some(Judge3)
    else None
  }

  /** Every PIN in the table names a recognised seat, no two PINs share a
      seat, and every seat has a PIN. */
  lemma PinsMapToSeats()
    ensures forall p :: p in JudgePins ==> SeatOfName(JudgePins[p]).Some?
    ensures forall p, q :: p in JudgePins && q in JudgePins && p != q ==>
              SeatOfName(JudgePins[p]) != SeatOfName(JudgePins[q])
    ensures forall j: Judge :: exists p :: p in JudgePins && SeatOfName(JudgePins[p]) == Some(j)
  {
    assert JudgePins.Keys == {"1111", "2222", "3333"};
    forall j: Judge ensures exists p :: p in JudgePins && SeatOfName(JudgePins[p]) == Some(j) {
      match j
      case Judge1 => assert SeatOfName(JudgePins["1111"]) == Some(Judge1);
      case Judge2 => assert SeatOfName(JudgePins["2222"]) == Some(Judge2);
      case Judge3 => assert SeatOfName(JudgePins["3333"]) == Some(Judge3);
    }
  }

  /** The number of seats holding a pass. */
  function Passes(l: Lift): nat {
    (if l.judge1 == Some(true) then 1 else 0)
    + (if l.judge2 == Some(true) then 1 else 0)
    + (if l.judge3 == Some(true) then 1 else 0)
  }

  /** The number of seats holding a fail. */
  function Fails(l: Lift): nat {
    (if l.judge1 == Some(false) then 1 else 0)
    + (if l.judge2 == Some(false) then 1 else 0)
    + (if l.judge3 == Some(false) then 1 else 0)
  }

  /** The scores that have been cast, in seat order. */
  function CastScores(vs: seq<Option<bool>>): seq<bool> {
    if |vs| == 0 then []
    else (if vs[0].Some? then [vs[0].value] else []) + CastScores(vs[1..])
  }

  /** The number of occurrences of `b` in `bs`. */
  function Occurrences(bs: seq<bool>, b: bool): nat {
    if |bs| == 0 then 0
    else (if bs[0] == b then 1 else 0) + Occurrences(bs[1..], b)
  }

  /** Filtering out the missing scores and counting one value gives that
      value's multiplicity among the scores. */
  lemma {:induction false} CastScoresCount(vs: seq<Option<bool>>)
    ensures Occurrences(CastScores(vs), true) == multiset(vs)[Some(true)]
    ensures Occurrences(CastScores(vs), false) == multiset(vs)[Some(false)]
    ensures |CastScores(vs)| == multiset(vs)[Some(true)] + multiset(vs)[Some(false)]
    decreases |vs|
  {
    if |vs| > 0 {
      CastScoresCount(vs[1..]);
      assert vs == [vs[0]] + vs[1..];
      assert multiset(vs) == multiset{vs[0]} + multiset(vs[1..]);
      var head := if vs[0].Some? then [vs[0].value] else [];
      var rest := CastScores(vs[1..]);
      assert CastScores(vs) == head + rest;
      OccurrencesAppend(head, rest);
      assert Occurrences(head, true) == (if vs[0] == Some(true) then 1 else 0);
      assert Occurrences(head, false) == (if vs[0] == Some(false) then 1 else 0);
    }
  }

  lemma {:induction false} OccurrencesAppend(a: seq<bool>, b: seq<bool>)
    ensures Occurrences(a + b, true) == Occurrences(a, true) + Occurrences(b, true)
    ensures Occurrences(a + b, false) == Occurrences(a, false) + Occurrences(b, false)
    decreases |a|
  {
    if |a| > 0 {
      assert (a + b)[1..] == a[1..] + b;
      OccurrencesAppend(a[1..], b);
    } else {
      assert a + b == b;
    }
  }

  /** Re-derives the overall result after a score changes. With fewer than two
      scores cast the lift is untouched and the answer is `false`. With two or
      more, a strict majority of passes or of fails decides the result and
      completes the lift, while a tie leaves the lift untouched; either way
      the answer is `true`. The scores themselves never change. */
  function UpdateOverallResult(l: Lift): (r: (Lift, bool))
    ensures r.1 <==> Passes(l) + Fails(l) >= 2
    ensures Passes(l) + Fails(l) >= 2 && Passes(l) > Fails(l) ==>
              r.0 == l.(overall := Some(true), status := Completed)
    ensures Passes(l) + Fails(l) >= 2 && Fails(l) > Passes(l) ==>
              r.0 == l.(overall := Some(false), status := Completed)
    ensures Passes(l) + Fails(l) < 2 || Passes(l) == Fails(l) ==> r.0 == l
    ensures r.0.(overall := l.overall, status := l.status) == l
  {
    var valid := CastScores(l.Votes());
    CastScoresCount(l.Votes());
    VotesCount(l, Some(true));
    VotesCount(l, Some(false));
    if |valid| >= 2 then
      var good := Occurrences(valid, true);
      var no := Occurrences(valid, false);
      if good > no then (l.(overall := Some(true), status := Completed), true)
      else if no > good then (l.(overall := Some(false), status := Completed), true)
      else (l, true)
    else (l, false)
  }

  /** Records `score` in seat `j` and nothing else. */
  function SetVote(l: Lift, j: Judge, score: Option<bool>): (r: Lift)
    ensures r.Vote(j) == score
    ensures forall k: Judge :: k != j ==> r.Vote(k) == l.Vote(k)
    ensures r.(judge1 := l.judge1, judge2 := l.judge2, judge3 := l.judge3) == l
  {
    match j
    case Judge1 => l.(judge1 := score)
    case Judge2 => l.(judge2 := score)
    case Judge3 => l.(judge3 := score)
  }

  /** One judge's score followed by re-deriving the result: the judge's seat
      holds the new score and the other seats are as they were. */
  function Score(l: Lift, j: Judge, score: Option<bool>): (r: Lift)
    ensures r.Vote(j) == score
    ensures forall k: Judge :: k != j ==> r.Vote(k) == l.Vote(k)
  {
    var r := UpdateOverallResult(SetVote(l, j, score)).0;
    assert r.Votes() == SetVote(l, j, score).Votes();
    r
  }

  /** The multiplicity of a value among the three scores counts the seats
      holding it. */
  lemma VotesCount(l: Lift, v: Option<bool>)
    ensures multiset(l.Votes())[v] ==
              (if l.judge1 == v then 1 else 0) + (if l.judge2 == v then 1 else 0) + (if l.judge3 == v then 1 else 0)
  {
    assert l.Votes() == [l.judge1] + [l.judge2] + [l.judge3];
  }

  /** A cast score is a pass or a fail. */
  lemma CastIsPassOrFail(v: Option<bool>)
    requires v.Some?
    ensures v == Some(true) || v == Some(false)
  {
    if v.value { assert v == Some(true); } else { assert v == Some(false); }
  }

  /** Once all three seats hold a score, aggregation always completes the
      lift with the majority's result: three scores cannot tie. */
  lemma ThreeScoresDecide(l: Lift)
    requires l.judge1.Some? && l.judge2.Some? && l.judge3.Some?
    ensures UpdateOverallResult(l).0.status == Completed
    ensures UpdateOverallResult(l).0.overall == Some(Passes(l) >= 2)
  {
    CastIsPassOrFail(l.judge1);
    CastIsPassOrFail(l.judge2);
    CastIsPassOrFail(l.judge3);
  }

  /** Unlike a wait-for-all-three rule, two agreeing scores decide the lift
      while the third seat is still empty. */
  lemma TwoAgreeingScoresDecide(l: Lift, v: bool)
    requires l.judge1 == Some(v) && l.judge2 == Some(v) && l.judge3.None?
    ensures UpdateOverallResult(l) == (l.(overall := Some(v), status := Completed), true)
  {
  }

  /** A one-to-one split with the third seat empty changes nothing, although
      the aggregation reports that it ran. */
  lemma SplitScoresChangeNothing(l: Lift)
    requires l.judge1 == Some(true) && l.judge2 == Some(false) && l.judge3.None?
    ensures UpdateOverallResult(l) == (l, true)
  {
  }

  /** Three distinct seats are all the seats. */
  lemma SeatsCovered(j1: Judge, j2: Judge, j3: Judge, k: Judge)
    requires j1 != j2 && j2 != j3 && j1 != j3
    ensures k == j1 || k == j2 || k == j3
  {
  }

  /** Starting from a lift with no scores, three judges in distinct seats
      scoring in any order end with the lift completed and the majority's
      result: pass, pass, fail gives a pass however the scores arrive. */
  lemma {:induction false} AnyOrderGivesMajority(l: Lift, j1: Judge, j2: Judge, j3: Judge, v1: bool, v2: bool, v3: bool)
    requires l.judge1.None? && l.judge2.None? && l.judge3.None?
    requires j1 != j2 && j2 != j3 && j1 != j3
    ensures Score(Score(Score(l, j1, Some(v1)), j2, Some(v2)), j3, Some(v3)).status == Completed
    ensures Score(Score(Score(l, j1, Some(v1)), j2, Some(v2)), j3, Some(v3)).overall ==
              Some((if v1 then 1 else 0) + (if v2 then 1 else 0) + (if v3 then 1 else 0) >= 2)
  {
    var l1 := Score(l, j1, Some(v1));
    var l2 := Score(l1, j2, Some(v2));
    var l3 := SetVote(l2, j3, Some(v3));
    assert l3.Vote(j1) == Some(v1) && l3.Vote(j2) == Some(v2) && l3.Vote(j3) == Some(v3);
    SeatsCovered(j1, j2, j3, Judge1);
    SeatsCovered(j1, j2, j3, Judge2);
    SeatsCovered(j1, j2, j3, Judge3);
    assert l3.judge1 == l3.Vote(Judge1) && l3.judge2 == l3.Vote(Judge2) && l3.judge3 == l3.Vote(Judge3);
    assert Passes(l3) == (if v1 then 1 else 0) + (if v2 then 1 else 0) + (if v3 then 1 else 0);
    ThreeScoresDecide(l3);
  }

  /** A judge may change a score after the lift is decided; a resulting
      one-to-one split leaves the earlier result and the completed status in
      place, so the recorded result can disagree with the scores shown. */
  lemma CorrectionAfterDecisionKeepsResult(l: Lift)
    requires l.judge1.None? && l.judge2.None? && l.judge3.None?
    ensures var decided := Score(Score(l, Judge1, Some(true)), Judge2, Some(true));
            && decided.overall == Some(true) && decided.status == Completed
            && Score(decided, Judge1, Some(false)).overall == Some(true)
            && Score(decided, Judge1, Some(false)).status == Completed
  {
  }

  /** The seat a PIN unlocks, if the PIN is known and its judge name is
      recognised. */
  function SeatOfPin(pin: string): Option<Judge> {
    if pin in JudgePins then SeatOfName(JudgePins[pin]) else None
  }

  /** The score route: look the lift up, check the PIN, record the score in
      that judge's seat, then re-derive the result. The lift need not be the
      active one, and the meet state is not consulted or changed. */
  function ScoreLift(lifts: seq<Lift>, liftId: int, pin: string, score: Option<bool>): (r: Result<seq<Lift>, Error>)
    ensures IndexOfLift(lifts, liftId).None? ==> r == Err(LiftNotFound)
    ensures IndexOfLift(lifts, liftId).Some? && pin !in JudgePins ==> r == Err(InvalidJudgePin)
    ensures IndexOfLift(lifts, liftId).Some? && pin in JudgePins ==> r.Ok?
    ensures r.Ok? ==>
              var i := IndexOfLift(lifts, liftId).value;
              var j := SeatOfPin(pin).value;
              && |r.value| == |lifts|
              && (forall k :: 0 <= k < |lifts| && k != i ==> r.value[k] == lifts[k])
              && r.value[i].Vote(j) == score
              && (forall k: Judge :: k != j ==> r.value[i].Vote(k) == lifts[i].Vote(k))
              && r.value[i] == UpdateOverallResult(SetVote(lifts[i], j, score)).0
  {
    match IndexOfLift(lifts, liftId)
    case None => Err(LiftNotFound)
    case Some(i) =>
      if pin !in JudgePins then Err(InvalidJudgePin)
      else
        match SeatOfName(JudgePins[pin])
        case None => Err(JudgeNotRecognized)
        case Some(j) =>
          PinsMapToSeats();
          Ok(lifts[i := UpdateOverallResult(SetVote(lifts[i], j, score)).0])
  }
}
