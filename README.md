# Weight projection engine, modelled in Dafny

This project models the calculation core of a small weight-prediction web
application: the engine in `src/utils/calculator.ts` that turns one user
profile (`UserData`: weight, target weight, height, age, gender, activity
level, current daily intake, time frame in days) into

- the basal metabolic rate (BMR, Mifflin-St Jeor formula, one branch for
  male and one for everything else),
- the total daily energy expenditure (TDEE, BMR times a fixed
  activity-factor table: 1.2, 1.375, 1.55, 1.725, 1.9),
- the daily calorie adjustment, `(targetWeight - weight) * 7700 / timeFrame`,
  at 7700 kcal per kg of body weight,
- a day-by-day weight projection: a loop from day 1 to `timeFrame` that adds
  `(currentCalorieIntake - TDEE + adjustment) / 7700` to a running weight
  each day and records `(day, weight)`.

`calculator.dfy` (module `Calculator`) holds the record, the table, the
constants and the four operations. BMR, TDEE and the adjustment are pure
functions. The projection is a method with a `while` loop, proved equal to
the closed form `weight + day * DailyWeightChange` (`ProjectedWeight`).
`defaults.dfy` (module `Defaults`) holds the two default profiles the
application ships, with their computed figures.

All quantities are exact `real`s and the time frame is an `int`. The
division in the adjustment needs only `timeFrame != 0`. The projection has
no precondition: for a time frame of zero or less, the source loop never
runs and the result is empty, and the model gives the same result.

Three consequences of the formulas as the code writes them:

- The adjustment does not involve the current intake.
- The daily change is `(intake - TDEE + adjustment) / 7700`. So the last
  projected weight is the target plus the drift the current intake alone
  would cause (`FinalWeight`). It reaches the target only when the intake
  equals the TDEE.
- Gender is the closed two-value type of the `UserData` interface, so no
  value is rejected.

## Model

| member | source | states |
|---|---|---|
| Calculator.ActivityFactor | src/utils/calculator.ts:12-18 | every factor lies between 1.2 and 1.9; 1.2 only for sedentary, 1.9 only for very active |
| Calculator.ActivityFactorStrictlyIncreasing | src/utils/calculator.ts:12-18 | the factor grows strictly from sedentary to very active, in both directions of the iff |
| Calculator.BmrGenderGap | src/utils/calculator.ts:24-28 | with weight, height and age equal, the male BMR is exactly 166 above the female BMR |
| Calculator.BmrSlopes | src/utils/calculator.ts:22-29 | in both branches BMR rises 10 per kg and 6.25 per cm and falls 5 per year of age |
| Calculator.BmrIgnoresOtherFields | src/utils/calculator.ts:23 | BMR depends only on weight, height, age and gender |
| Calculator.TDEE | src/utils/calculator.ts:31-35 | for a positive BMR the TDEE lies between 1.2·BMR and 1.9·BMR; for a negative BMR (no field is checked) it lies between 1.9·BMR and 1.2·BMR |
| Calculator.TdeeStrictlyIncreasing | src/utils/calculator.ts:12-35 | for a positive BMR, a higher activity level gives a strictly higher TDEE, and only then |
| Calculator.CalorieAdjustment | src/utils/calculator.ts:37-42 | the adjustment times the time frame is the weight gap times 7700; for a positive time frame its sign is the sign of target minus weight |
| Calculator.DailyWeightChange | src/utils/calculator.ts:47-57 | the daily change is the current-intake balance over 7700 plus the weight gap divided by the time frame |
| Calculator.PredictWeightOverTime | src/utils/calculator.ts:44-63 | the result has timeFrame entries (none if it is not positive); entry i has day i+1 and weight `weight + (i+1)·change` |
| Calculator.ProjectionStep | src/utils/calculator.ts:56-58 | consecutive projected weights differ by the same daily change |
| Calculator.ProjectionMonotone | src/utils/calculator.ts:55-59 | a negative daily change makes the weights strictly decreasing, a positive one strictly increasing, a zero one constant |
| Calculator.FinalWeight | src/utils/calculator.ts:38-59 | the last projected weight is the target weight plus timeFrame·(intake − TDEE)/7700 |
| Calculator.ReachesTargetAtMaintenance | src/utils/calculator.ts:47-59 | the last projected weight is exactly the target weight if and only if the current intake equals the TDEE |
| Defaults.MaleDefaultFigures | src/utils/defaultData.ts:3-12 | default male profile: BMR 1617.5, TDEE 2507.125, adjustment −3850/3, day-30 weight 65 − 213.75/7700 |
| Defaults.FemaleDefaultFigures | src/constants.ts:3-12 | default female profile: BMR 1270.25, TDEE 1968.8875, adjustment −3850/9, day-90 weight 50 − 90·68.8875/7700 |
| Defaults.MaleDefaultProjection | src/utils/defaultData.ts:3-12 | the projection of the male default ends with day 30 at weight 65 − 213.75/7700 |

## Left out

- Floating point: every quantity is an exact real. In IEEE-754 doubles the accumulated running weight drifts from the closed form, and the last weight need not equal the target bit for bit.
- Non-integer time frames: the source loop would run `floor(timeFrame)` times. The model's time frame is an integer.
- A zero time frame in the adjustment: the source returns ±Infinity or NaN; the model requires a non-zero time frame there.
- Age is any real, as the source's `number` is. No field is checked for being positive, because the source checks none.
- The browser storage wrapper (`src/services/storage.ts`): local-storage I/O and JSON encoding with errors logged and swallowed. Nothing in it computes.
- Application start-up, routing, internationalisation and build configuration (`src/main.ts`, `src/router/index.ts`, `vue.config.js`): framework plumbing.
- `src/interfaces/UserData.ts` duplicates the record type and is not part of this model. The two default profiles appear only as example inputs.
