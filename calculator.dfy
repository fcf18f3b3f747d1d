/** The calorie and weight projection engine: BMR by the Mifflin-St Jeor
    formula, TDEE by an activity-factor table, the daily calorie adjustment
    that closes the gap to a target weight, and a day-by-day weight
    projection. Every quantity is an exact `real`; the time frame is a
    whole number of days. */
module Calculator {

  datatype Gender = Male | Female

  datatype ActivityLevel = Sedentary | Light | Moderate | Active | VeryActive

  /** The user profile every operation reads. */
  datatype UserData = UserData(
    weight: real,               // kg
    targetWeight: real,         // kg
    height: real,               // cm
    age: real,                  // years
    gender: Gender,
    activityLevel: ActivityLevel,
    currentCalorieIntake: real, // kcal per day
    timeFrame: int              // days
  )

  /** One entry of the projection: the weight expected at the end of `day`. */
  datatype DayWeight = DayWeight(day: int, weight: real)

  /** Energy content of one kilogram of body weight, in kcal. */
  const OneKgBodyWeightKcal: real := 7700.0

  /** Position of an activity level from sedentary (0) to very active (4). */
  function Rank(level: ActivityLevel): (r: nat)
  {
    match level
    case Sedentary => 0
    case Light => 1
    case Moderate => 2
    case Active => 3
    case VeryActive => 4
  }

  /** The activity-factor table. */
  function ActivityFactor(level: ActivityLevel): (f: real)
    ensures 1.2 <= f <= 1.9
    ensures f == 1.2 <==> level == Sedentary
    ensures f == 1.9 <==> level == VeryActive
  {
    match level
    case Sedentary => 1.2
    case Light => 1.375
    case Moderate => 1.55
    case Active => 1.725
    case VeryActive => 1.9
  }

  /** The table grows strictly with the activity level. */
  lemma ActivityFactorStrictlyIncreasing(a: ActivityLevel, b: ActivityLevel)
    ensures Rank(a) < Rank(b) <==> ActivityFactor(a) < ActivityFactor(b)
  {
  }

  /** Basal metabolic rate (Mifflin-St Jeor); every gender other than male
      takes the female branch. */
  function BMR(u: UserData): (r: real)
  {
    if u.gender == Male then
      10.0 * u.weight + 6.25 * u.height - 5.0 * u.age + 5.0
    else
      10.0 * u.weight + 6.25 * u.height - 5.0 * u.age - 161.0
  }

  /** With everything else equal, the male BMR is 166 kcal above the female one. */
  lemma BmrGenderGap(u: UserData)
    ensures BMR(u.(gender := Male)) - BMR(u.(gender := Female)) == 166.0
  {
  }

  /** In either gender, BMR rises by 10 per kg and by 6.25 per cm and falls
      by 5 per year of age. */
  lemma BmrSlopes(u: UserData, dWeight: real, dHeight: real, dAge: real)
    ensures BMR(u.(weight := u.weight + dWeight)) == BMR(u) + 10.0 * dWeight
    ensures BMR(u.(height := u.height + dHeight)) == BMR(u) + 6.25 * dHeight
    ensures BMR(u.(age := u.age + dAge)) == BMR(u) - 5.0 * dAge
  {
  }

  /** BMR reads only weight, height, age and gender. */
  lemma BmrIgnoresOtherFields(u: UserData, v: UserData)
    requires u.weight == v.weight && u.height == v.height
    requires u.age == v.age && u.gender == v.gender
    ensures BMR(u) == BMR(v)
  {
  }

  /** Total daily energy expenditure: BMR scaled by the activity factor. */
  function TDEE(u: UserData): (r: real)
    ensures BMR(u) > 0.0 ==> 1.2 * BMR(u) <= r <= 1.9 * BMR(u)
    ensures BMR(u) < 0.0 ==> 1.9 * BMR(u) <= r <= 1.2 * BMR(u)
  {
    BMR(u) * ActivityFactor(u.activityLevel)
  }

  /** For a positive BMR, a higher activity level gives a strictly higher TDEE. */
  lemma TdeeStrictlyIncreasing(u: UserData, a: ActivityLevel, b: ActivityLevel)
    requires BMR(u) > 0.0
    ensures Rank(a) < Rank(b) <==>
            TDEE(u.(activityLevel := a)) < TDEE(u.(activityLevel := b))
  {
  }

  /** The daily calorie change that moves `weight` to `targetWeight` in
      `timeFrame` days, at 7700 kcal per kg. It does not involve the
      current intake. */
  function CalorieAdjustment(u: UserData): (r: real)
    requires u.timeFrame != 0
    ensures r * (u.timeFrame as real) == (u.targetWeight - u.weight) * OneKgBodyWeightKcal
    ensures u.timeFrame > 0 ==> (r < 0.0 <==> u.targetWeight < u.weight)
    ensures u.timeFrame > 0 ==> (r == 0.0 <==> u.targetWeight == u.weight)
    ensures u.timeFrame > 0 ==> (r > 0.0 <==> u.targetWeight > u.weight)
  {
    var weightDifference := u.targetWeight - u.weight;
    var totalCaloriesNeeded := weightDifference * OneKgBodyWeightKcal;
    totalCaloriesNeeded / (u.timeFrame as real)
  }

  /** The daily energy balance at the current intake: a surplus when the
      intake exceeds the TDEE, a deficit when it falls short. */
  function NetCalories(u: UserData): (r: real)
  {
    u.currentCalorieIntake - TDEE(u)
  }

  /** The weight change per projected day: the balance at the current intake
      plus the adjustment, in kg. It is the drift at the current intake plus
      an equal share of the weight gap for each day. */
  function DailyWeightChange(u: UserData): (r: real)
    requires u.timeFrame != 0
    ensures r == NetCalories(u) / OneKgBodyWeightKcal
                 + (u.targetWeight - u.weight) / (u.timeFrame as real)
  {
    (NetCalories(u) + CalorieAdjustment(u)) / OneKgBodyWeightKcal
  }

  /** Number of entries the projection holds: the loop runs from day 1 up
      to `timeFrame`, so not at all when `timeFrame` is not positive. */
  function Days(u: UserData): (n: nat)
  {
    if u.timeFrame > 0 then u.timeFrame else 0
  }

  /** Closed form of the projected weight at the end of `day`. */
  function ProjectedWeight(u: UserData, day: int): (w: real)
    requires u.timeFrame != 0
  {
    u.weight + (day as real) * DailyWeightChange(u)
  }

  /** Iterative projection: starting from the current weight, add the daily
      change once per day and record each day's weight. */
  method PredictWeightOverTime(u: UserData) returns (result: seq<DayWeight>)
    ensures |result| == Days(u)
    ensures forall i :: 0 <= i < |result| ==> result[i].day == i + 1
    ensures forall i :: 0 <= i < |result| ==> result[i].weight == ProjectedWeight(u, i + 1)
  {
    // When timeFrame is 0 the adjustment is not finite, but the loop below
    // never runs and the value is never read.
    var dailyCalorieAdjustment := if u.timeFrame != 0 then CalorieAdjustment(u) else 0.0;
    var tdee := TDEE(u);
    var netCalories := u.currentCalorieIntake - tdee;
    var days := u.timeFrame;
    result := [];

    var currentWeight := u.weight;

    var day := 1;
    while day <= days
      invariant 1 <= day <= Days(u) + 1
      invariant |result| == day - 1
      invariant day > 1 ==> currentWeight == ProjectedWeight(u, day - 1)
      invariant day == 1 ==> currentWeight == u.weight
      invariant forall i :: 0 <= i < |result| ==> result[i] == DayWeight(i + 1, ProjectedWeight(u, i + 1))
    {
      var dailyWeightChange := (netCalories + dailyCalorieAdjustment) / OneKgBodyWeightKcal;
      currentWeight := currentWeight + dailyWeightChange;
      result := result + [DayWeight(day, currentWeight)];
      day := day + 1;
    }
  }

  /** Consecutive projected weights differ by the same daily change. */
  lemma ProjectionStep(u: UserData, day: int)
    requires u.timeFrame != 0
    ensures ProjectedWeight(u, day + 1) - ProjectedWeight(u, day) == DailyWeightChange(u)
  {
  }

  /** A negative daily change makes the projection strictly decreasing, a
      positive one strictly increasing. */
  lemma ProjectionMonotone(u: UserData, i: int, j: int)
    requires u.timeFrame != 0
    requires i < j
    ensures DailyWeightChange(u) < 0.0 ==> ProjectedWeight(u, j) < ProjectedWeight(u, i)
    ensures DailyWeightChange(u) > 0.0 ==> ProjectedWeight(u, j) > ProjectedWeight(u, i)
    ensures DailyWeightChange(u) == 0.0 ==> ProjectedWeight(u, j) == ProjectedWeight(u, i)
  {
  }

  /** The weight on the last day is the target weight plus the drift that
      the current intake alone would cause over the whole time frame. */
  lemma FinalWeight(u: UserData)
    requires u.timeFrame > 0
    ensures ProjectedWeight(u, u.timeFrame)
            == u.targetWeight + (u.timeFrame as real) * NetCalories(u) / OneKgBodyWeightKcal
  {
  }

  /** The projection ends exactly at the target weight when, and only
      when, the current intake equals the TDEE. */
  lemma ReachesTargetAtMaintenance(u: UserData)
    requires u.timeFrame > 0
    ensures ProjectedWeight(u, u.timeFrame) == u.targetWeight <==> u.currentCalorieIntake == TDEE(u)
  {
    FinalWeight(u);
  }
}
