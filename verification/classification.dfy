/** Classification of a lifter into a primary weight class and a primary age
    class: the first class whose range holds the lifter, lowest lower bound
    first. No matching class leaves the primary class unset. */
module Classification {
  import opened Wrappers
  import opened Records
  import opened Selection

  /** Age in whole years on `today`: the year difference, minus one when the
      birthday has not yet come round this year. */
  function CalculateAge(born: Date, today: Date): (age: int)
    ensures DateLeq(Date(born.year + age, born.month, born.day), today)
    ensures !DateLeq(Date(born.year + age + 1, born.month, born.day), today)
  {
    today.year - born.year
      - (if today.month < born.month || (today.month == born.month && today.day < born.day) then 1 else 0)
  }

  /** The age is the number of birthdays reached by `today`: any `n` whose
      `n`-th anniversary is reached and whose next one is not is the age. */
  lemma AgeIsAnniversaryCount(born: Date, today: Date, n: int)
    requires DateLeq(Date(born.year + n, born.month, born.day), today)
    requires !DateLeq(Date(born.year + n + 1, born.month, born.day), today)
    ensures CalculateAge(born, today) == n
  {
  }

  /** A lifter born on or before `today` has a non-negative age. */
  lemma AgeNonNegative(born: Date, today: Date)
    requires DateLeq(born, today)
    ensures CalculateAge(born, today) >= 0
  {
  }

  /** Weight class `c` covers a lifter of `gender` weighing `w`. */
  predicate WeightMatches(c: WeightClass, gender: string, w: real) {
    && c.minWeight <= w
    && (c.maxWeight.None? || w <= c.maxWeight.value)
    && (c.gender == gender || c.gender == "Both")
  }

  /** Age class `c` covers `age`. */
  predicate AgeMatches(c: AgeClass, age: int) {
    c.minAge <= age && (c.maxAge.None? || age <= c.maxAge.value)
  }

  predicate ByMinWeight(a: WeightClass, b: WeightClass) {
    a.minWeight <= b.minWeight
  }

  predicate ByMinAge(a: AgeClass, b: AgeClass) {
    a.minAge <= b.minAge
  }

  /** The position of the primary weight class: a class covering the lifter
      whose lower bound is the smallest among covering classes, or `None` when
      no class covers the lifter. */
  function PrimaryWeightClass(classes: seq<WeightClass>, gender: string, w: real): (r: Option<nat>)
    ensures r.Some? ==> r.value < |classes| && WeightMatches(classes[r.value], gender, w)
    ensures r.Some? ==> forall j :: 0 <= j < |classes| && WeightMatches(classes[j], gender, w) ==>
                          classes[r.value].minWeight <= classes[j].minWeight
    ensures r.None? <==> forall j :: 0 <= j < |classes| ==> !WeightMatches(classes[j], gender, w)
  {
    assert TotalPreorder(ByMinWeight);
    FirstLeast(classes, (c: WeightClass) => WeightMatches(c, gender, w), ByMinWeight)
  }

  /** The position of the primary age class: a class covering `age` whose
      lower bound is the smallest among covering classes, or `None`. */
  function PrimaryAgeClass(classes: seq<AgeClass>, age: int): (r: Option<nat>)
    ensures r.Some? ==> r.value < |classes| && AgeMatches(classes[r.value], age)
    ensures r.Some? ==> forall j :: 0 <= j < |classes| && AgeMatches(classes[j], age) ==>
                          classes[r.value].minAge <= classes[j].minAge
    ensures r.None? <==> forall j :: 0 <= j < |classes| ==> !AgeMatches(classes[j], age)
  {
    assert TotalPreorder(ByMinAge);
    FirstLeast(classes, (c: AgeClass) => AgeMatches(c, age), ByMinAge)
  }

  /** Sets both primary classes of `lifter` from the class tables: each is
      the id of a covering class with the lowest lower bound, or unset when no
      class covers the lifter. Nothing else about the lifter changes. */
  function AssignPrimaryClasses(lifter: Lifter, weightClasses: seq<WeightClass>, ageClasses: seq<AgeClass>, today: Date): (r: Lifter)
    ensures r.primaryWeightClass.None? <==>
              forall j :: 0 <= j < |weightClasses| ==> !WeightMatches(weightClasses[j], lifter.gender, lifter.actualWeight)
    ensures r.primaryWeightClass.Some? ==>
              exists j :: 0 <= j < |weightClasses| && weightClasses[j].id == r.primaryWeightClass.value
                          && WeightMatches(weightClasses[j], lifter.gender, lifter.actualWeight)
                          && forall k :: 0 <= k < |weightClasses| && WeightMatches(weightClasses[k], lifter.gender, lifter.actualWeight) ==>
                               weightClasses[j].minWeight <= weightClasses[k].minWeight
    ensures r.primaryAgeClass.None? <==>
              forall j :: 0 <= j < |ageClasses| ==> !AgeMatches(ageClasses[j], CalculateAge(lifter.birthDate, today))
    ensures r.primaryAgeClass.Some? ==>
              exists j :: 0 <= j < |ageClasses| && ageClasses[j].id == r.primaryAgeClass.value
                          && AgeMatches(ageClasses[j], CalculateAge(lifter.birthDate, today))
                          && forall k :: 0 <= k < |ageClasses| && AgeMatches(ageClasses[k], CalculateAge(lifter.birthDate, today)) ==>
                               ageClasses[j].minAge <= ageClasses[k].minAge
    ensures r.(primaryWeightClass := lifter.primaryWeightClass, primaryAgeClass := lifter.primaryAgeClass) == lifter
  {
    var wc := PrimaryWeightClass(weightClasses, lifter.gender, lifter.actualWeight);
    var ac := PrimaryAgeClass(ageClasses, CalculateAge(lifter.birthDate, today));
    lifter.(
      primaryWeightClass := if wc.Some? then Some(weightClasses[wc.value].id) else None,
      primaryAgeClass := if ac.Some? then Some(ageClasses[ac.value].id) else None)
  }

  /** The weight classes the store is seeded with. */
  const DefaultWeightClasses: seq<WeightClass> := [
    WeightClass(1, "Men's 59kg", 0.0, Some(59.0), "Male"),
    WeightClass(2, "Men's 66kg", 59.01, Some(66.0), "Male"),
    WeightClass(3, "Men's 74kg", 66.01, Some(74.0), "Male"),
    WeightClass(4, "Men's 83kg", 74.01, Some(83.0), "Male"),
    WeightClass(5, "Men's 93kg", 83.01, Some(93.0), "Male"),
    WeightClass(6, "Men's 105kg", 93.01, Some(105.0), "Male"),
    WeightClass(7, "Men's 120kg", 105.01, Some(120.0), "Male"),
    WeightClass(8, "Men's 120+kg", 120.01, None, "Male"),
    WeightClass(9, "Women's 47kg", 0.0, Some(47.0), "Female"),
    WeightClass(10, "Women's 52kg", 47.01, Some(52.0), "Female"),
    WeightClass(11, "Women's 57kg", 52.01, Some(57.0), "Female"),
    WeightClass(12, "Women's 63kg", 57.01, Some(63.0), "Female"),
    WeightClass(13, "Women's 69kg", 63.01, Some(69.0), "Female"),
    WeightClass(14, "Women's 76kg", 69.01, Some(76.0), "Female"),
    WeightClass(15, "Women's 84kg", 76.01, Some(84.0), "Female"),
    WeightClass(16, "Women's 84+kg", 84.01, None, "Female")
  ]

  /** The age classes the store is seeded with. */
  const DefaultAgeClasses: seq<AgeClass> := [
    AgeClass(1, "Sub-Junior", 14, Some(18)),
    AgeClass(2, "Junior", 19, Some(23)),
    AgeClass(3, "Open", 24, Some(39)),
    AgeClass(4, "Master I", 40, Some(49)),
    AgeClass(5, "Master II", 50, Some(59)),
    AgeClass(6, "Master III", 60, Some(69)),
    AgeClass(7, "Master IV", 70, None)
  ]

  /** A class that is the only one covering the lifter is the primary one. */
  lemma OnlyCoveringClass(classes: seq<WeightClass>, gender: string, w: real, i: nat)
    requires i < |classes| && WeightMatches(classes[i], gender, w)
    requires forall j :: 0 <= j < |classes| && j != i ==> !WeightMatches(classes[j], gender, w)
    ensures PrimaryWeightClass(classes, gender, w) == Some(i)
  {
  }

  /** With the seeded table, a 68 kg female lifter falls in "Women's 69kg". */
  lemma FemaleAt68IsWomens69()
    ensures PrimaryWeightClass(DefaultWeightClasses, "Female", 68.0) == Some(12)
  {
    var cs := DefaultWeightClasses;
    assert forall j :: 0 <= j < 8 ==> cs[j].gender == "Male";
    assert forall j :: 8 <= j < 12 ==> cs[j].maxWeight.Some? && cs[j].maxWeight.value <= 63.0;
    assert forall j :: 13 <= j < 16 ==> cs[j].minWeight >= 69.01;
    OnlyCoveringClass(cs, "Female", 68.0, 12);
  }

  /** With the seeded table, a 125 kg male lifter falls in the open-ended
      "Men's 120+kg" class. */
  lemma MaleAt125IsMens120Plus()
    ensures PrimaryWeightClass(DefaultWeightClasses, "Male", 125.0) == Some(7)
  {
    var cs := DefaultWeightClasses;
    assert forall j :: 0 <= j < 7 ==> cs[j].maxWeight.Some? && cs[j].maxWeight.value <= 120.0;
    assert forall j :: 8 <= j < 16 ==> cs[j].gender == "Female";
    OnlyCoveringClass(cs, "Male", 125.0, 7);
  }

  /** With the seeded table, a 13-year-old has no age class. */
  lemma ThirteenIsUnclassified()
    ensures PrimaryAgeClass(DefaultAgeClasses, 13).None?
  {
    assert forall j :: 0 <= j < |DefaultAgeClasses| ==> !AgeMatches(DefaultAgeClasses[j], 13);
  }
}
