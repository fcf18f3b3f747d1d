/** The two default profiles the application ships, and the figures the
    engine gives for them. */
module Defaults {
  import opened Calculator

  /** Default profile of the application's default-data module. */
  const MaleDefault: UserData := UserData(
    weight := 70.0, targetWeight := 65.0, height := 170.0, age := 30.0,
    gender := Male, activityLevel := Moderate,
    currentCalorieIntake := 2500.0, timeFrame := 30)

  /** Default profile kept with the application's constants. */
  const FemaleDefault: UserData := UserData(
    weight := 55.0, targetWeight := 50.0, height := 165.0, age := 30.0,
    gender := Female, activityLevel := Moderate,
    currentCalorieIntake := 1900.0, timeFrame := 90)

  lemma MaleDefaultFigures()
    ensures BMR(MaleDefault) == 1617.5
    ensures TDEE(MaleDefault) == 2507.125
    ensures CalorieAdjustment(MaleDefault) == -3850.0 / 3.0
    ensures ProjectedWeight(MaleDefault, 30) == 65.0 - 213.75 / 7700.0
  {
  }

  lemma FemaleDefaultFigures()
    ensures BMR(FemaleDefault) == 1270.25
    ensures TDEE(FemaleDefault) == 1968.8875
    ensures CalorieAdjustment(FemaleDefault) == -3850.0 / 9.0
    ensures ProjectedWeight(FemaleDefault, 90) == 50.0 - 90.0 * 68.8875 / 7700.0
  {
  }

  /** The male default projects 30 entries, ending just below its target. */
  method MaleDefaultProjection() returns (last: DayWeight)
    ensures last == DayWeight(30, 65.0 - 213.75 / 7700.0)
  {
    var projection := PredictWeightOverTime(MaleDefault);
    MaleDefaultFigures();
    last := projection[29];
  }
}
