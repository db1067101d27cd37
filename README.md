# Infection: a within-host disease episode

This project models `Infection` from FRED's `src/Infection.cc`. An
infection is one disease episode of one host. The infection owns a
*trajectory*: a day-indexed curve of (infectivity, symptomaticity) points,
with offset 0 on the exposure day. From the trajectory it derives the
episode's transition dates:

- infectious start and end;
- symptoms start and end;
- asymptomatic onset;
- immunity end.

It also derives two day counters, one for symptomatic days and one for
asymptomatic-infective days.

Each day, `update` refreshes the live infectivity and symptoms from the
trajectory. It then tells the host about each transition that falls on that
day, and may mark the infection fatal. Interventions reshape the trajectory
and re-derive every date. A seed infection can be moved earlier in time.

The model is organised in five modules:

- `Trajectories`: the trajectory point, out-of-range lookup, and the
  trajectory's reshaping operations, which are left uninterpreted.
- `Diseases`: the disease parameters the infection reads (the two
  thresholds, the case-fatality switch, the name test for the chronic
  variant) and the fatality query.
- `TransitionDates`: the reference definition `Derive` of the dates a
  trajectory determines, built from first and last offsets and counts. It
  also holds the one-step scan (`ScanStep`/`ScanUpTo`), which is proved
  equal to `Derive` on every prefix.
- `HostNotifications`: the five host notifications, and which of them a day
  or a seeding fires.
- `Infections`: the `Infection` class. It keeps the mutable scalar state and
  dates as fields, keeps the owned trajectory as a `seq` field, and logs the
  host notifications in a ghost `seq`. Its loop `ScanTrajectory` is proved
  against `Derive`, and every state-changing operation states its new state
  against `Derive`, `DayNotifications` or `SeedNotifications`.

`Scenario` works one concrete ten-day trajectory through the derivation.

`NEVER` is the integer -1, and the model does ordinary arithmetic on it, as
the code does. For example, the immunity end computed with no infective
point is `NEVER + recovery period` (`ImmunityEndWithoutInfection`). A seeded
infection with no symptoms still fires `become_symptomatic` whenever the
epidemic offset is -1 or later (`SeedFiresNeverDates`).

In these places the code does something its names or comments do not
suggest; the model follows the code:

- `modify_develops_symptoms` takes the disease's symptomatic duration when
  `will_be_symptomatic` is *true* (that is, when symptoms are being
  suppressed), and 0 otherwise.
- Re-derivation never clears `will_be_symptomatic`.
- When the last symptomatic point is also the last infective point, the
  symptoms end and the infectious end fall on the same day, and `update` on
  that day fires both `become_asymptomatic` and `recover`. In the ten-day
  example that day is 107 (`Scenario.ExampleDay107`).
- The comment in `modify_symptomatic_period` about turning a zero
  `days_left` into 1 is not implemented by the code, and so not by the model.
- `modify_infectious_period` can fail in its symptomatic leg after its
  asymptomatic leg has already reshaped the trajectory. The model keeps that
  partial change (`ModifyInfectiousPeriod`).

The infection calls into parts of the simulator that this model does not
include. Each becomes a parameter or an uninterpreted function:

- the trajectory the disease selects for the host's age, and the infection's
  immune response;
- the disease's recovery period (`get_days_recovered`) and symptomatic
  duration (`get_days_symp`);
- the fatality decision (`is_fatal`) and the `Global::Enable_Chronic_Condition`
  switch;
- the epidemic offset `Global::Epidemic_offset`;
- whether the host is already infectious;
- the trajectory's reshaping operations.

## Model

| member | source | states |
|---|---|---|
| TransitionDates.Derive | src/Infection.cc:79-127 | the reference result of the deriving loop, defined from `FirstOffset`, `LastOffset` and `CountOf` rather than from the loop; what it means is stated by `DeriveMeaning`, and `ScanTrajectory` is proved to compute it |
| TransitionDates.ScanStep | src/Infection.cc:93-126 | the loop body on one point: the classification of lines 93-95 and the five updates of lines 97-126; `ScanStepDerives` proves that it carries the dates of a prefix to the dates of the prefix one longer |
| TransitionDates.ImmunityEnd | src/Infection.cc:129-135 | the recovery period added to the infectious end when the period is above -1, else NEVER; `SetTransitionDates` stores it and `ImmunityEndWithoutInfection` states its value with no infective point |
| Diseases.Disease.IsChronic | src/Infection.cc:141 | the `strcmp` test that the disease name is "hiv", which sends `Update` to `ChronicUpdate` |
| TransitionDates.FirstOffset | src/Infection.cc:97-105 | the first offset of a point of the given kind, or -1 exactly when no such point exists; that point has the kind and none before it does |
| TransitionDates.LastOffset | src/Infection.cc:107-109 | the last offset of a point of the given kind, or -1 exactly when none exists; no later point has the kind |
| TransitionDates.CountOf | src/Infection.cc:119-126 | the count equals the number of offsets whose point has the kind |
| TransitionDates.DeriveMeaning | src/Infection.cc:97-126 | infectious start is exposure plus the first infective offset and the end is one past the last, both NEVER when no point is infective; likewise for symptoms; the asymptomatic onset is the infectious start exactly when the first infective point is not symptomatic; the counters count symptomatic and asymptomatic-infective points |
| TransitionDates.ScanStepDerives | src/Infection.cc:92-127 | one pass of the loop body over the next point turns the dates of a prefix into the dates of the prefix one longer, with the latent and incubating flags meaning "no infective / symptomatic point yet" |
| TransitionDates.PrefixExtends | src/Infection.cc:97-126 | growing a prefix by one point keeps its first offset of a kind once one exists and otherwise takes the new offset if the point has the kind; the last offset moves to the new point exactly when it has the kind; the count grows by one exactly then |
| TransitionDates.ScanUpToDerives | src/Infection.cc:79-127 | starting from the reset values (all dates NEVER, counters 0, both flags set), the scan over the first n points yields the dates of that prefix |
| TransitionDates.DatesOrdered | src/Infection.cc:97-122 | when an infective (symptomatic) point exists, the infectious (symptoms) start is strictly before its end; the asymptomatic onset is NEVER or the infectious start |
| TransitionDates.ImmunityEndWithoutInfection | src/Infection.cc:129-135 | with no infective point and a recovery period of at least 0, the immunity end is NEVER plus the recovery period |
| TransitionDates.PeriodsWithinLength | src/Infection.cc:119-126 | the symptomatic and asymptomatic counters together never exceed the trajectory length |
| TransitionDates.DeriveShift | src/Infection.cc:341-346 | moving the exposure k days earlier moves each derived date that is not NEVER k days earlier, and leaves both counters unchanged |
| HostNotifications.DayNotifications | src/Infection.cc:156-175 | a notification is sent on a day exactly when its date is that day; each at most once, in the order infectious, symptomatic, asymptomatic, recover, unsusceptible |
| HostNotifications.SeedNotifications | src/Infection.cc:347-358 | seeding sends each notification but become-asymptomatic exactly when its date is on or before the epidemic offset, each at most once, in the fixed order |
| HostNotifications.SeedFiresNeverDates | src/Infection.cc:350-358 | with an epidemic offset of -1 or later, a NEVER symptoms start or immunity end still fires its notification |
| Infections.TruncateTowardZero | src/Infection.cc:376-377 | the double-to-int conversion of `days_left *= multp`: the integer part, rounded toward zero for either sign |
| Infections.ScanTrajectory | src/Infection.cc:79-127 | the loop yields exactly `Derive` of the trajectory, and reports a symptomatic point exactly when one exists |
| Infections.Infection.constructor | src/Infection.cc:38-76 | the neutral defaults (multiplier 1, values and counters 0, susceptible, not fatal), the given exposure day, immune response and trajectory, then dates consistent with that trajectory, no notification sent, and `will_be_symptomatic` true exactly when some point is symptomatic |
| Infections.Infection.SetTransitionDates | src/Infection.cc:78-136 | the dates and counters equal `Derive` of the current trajectory; the immunity end is infectious end plus the recovery period when that period is not negative, else NEVER; `will_be_symptomatic` is set if some point is symptomatic and never cleared; nothing else changes |
| Infections.Infection.SetTransitionDatesTwice | src/Infection.cc:82-89 | running the deriver a second time leaves the dates and counters as the first run left them (idempotence); only the derived fields may change, so both runs see the same trajectory and exposure date, and `will_be_symptomatic` is set exactly when it was set before or some point is symptomatic |
| Infections.Infection.IsInfectious | src/Infection.cc:209-211 | the live infectivity is classified as the deriver classifies an infective point |
| Infections.Infection.IsSymptomatic | src/Infection.cc:213-215 | the live symptoms are classified as the deriver classifies a symptomatic point |
| Infections.Infection.GetInfectivity | src/Infection.cc:324-328 | the trajectory infectivity at `day - exposure` times the multiplier, and the out-of-range point's infectivity times the multiplier outside the curve |
| Infections.Infection.GetSymptoms | src/Infection.cc:330-334 | the trajectory symptomaticity at `day - exposure`, with no multiplier, and the out-of-range point's outside the curve |
| Infections.Infection.Update | src/Infection.cc:138-198 | the chronic variant changes nothing but the one chronic notification; otherwise the live values become today's trajectory point, the log grows by exactly `DayNotifications` of today, susceptibility is lost exactly on the immunity-end date, and the fatal flag is set exactly when case fatality is enabled, the live symptoms pass the threshold and the fatality query holds; dates and trajectory are never touched |
| Infections.Infection.ChronicUpdate | src/Infection.cc:200-206 | become-infectious is sent exactly when more than three days have passed since exposure and the host is not yet infectious; nothing else changes |
| Infections.Infection.SetTrajectory | src/Infection.cc:228-231 | the new trajectory is installed and the dates are consistent with it |
| Infections.Infection.AdvanceSeedInfection | src/Infection.cc:341-359 | exposure moves `days` earlier and the dates are re-derived; from consistent dates, every date that was not NEVER drops by exactly `days` and the counters stay; the log grows by exactly `SeedNotifications` of the new dates |
| Infections.Infection.NotifySeedTransitions | src/Infection.cc:347-358 | the log grows by exactly `SeedNotifications` of the current dates |
| Infections.Infection.ModifySymptomaticPeriod | src/Infection.cc:361-381 | a negative multiplier, or a day on or after the infectious end, fails with no state change; otherwise the trajectory is reshaped from the symptoms start by the scaled symptomatic period (before onset) or from today by the truncated scaled days left (during), and the dates are re-derived |
| Infections.Infection.ModifyAsymptomaticPeriod | src/Infection.cc:383-404 | a negative multiplier, or a day on or after the symptoms start, fails with no state change; otherwise the trajectory is reshaped from the exposure day by the scaled asymptomatic period (before the infectious start) or from today by the scaled days left until symptoms, and the dates are re-derived |
| Infections.Infection.ModifyInfectiousPeriod | src/Infection.cc:406-412 | before symptom onset the asymptomatic leg runs first and a failure stops there; the symptomatic leg then runs on the re-derived dates, and if it fails the first leg's reshape stays in place; the dates are consistent on every branch that reshapes |
| Infections.Infection.ModifyDevelopsSymptoms | src/Infection.cc:414-425 | fails with no state change once past symptom onset without an asymptomatic onset, or on or after the infectious end; when the request equals `will_be_symptomatic` nothing changes; otherwise the trajectory develops symptoms from the symptoms start for the symptomatic duration (if the episode was to be symptomatic) or 0 days, and the dates are re-derived |
| Scenario.ExampleDates | src/Infection.cc:78-136 | with days 2-3 asymptomatic-infective and days 4-6 symptomatic, exposure on day 100 and thresholds 0: infectious and asymptomatic from 102, symptoms from 104, both spans ending on 107, two asymptomatic and three symptomatic days |
| Scenario.ExampleDay107 | src/Infection.cc:156-175 | in that example, with a positive recovery period, day 107 fires become-asymptomatic and then recover, and nothing else |

## Left out

- `report_infection` and `print` (src/Infection.cc:218-322) are text output through `printf`/`fprintf`, distance computations in floating point and census-tract lookups. They are not modelled.
- The `printf` before the `past asymptomatic period` failure is output only and is not modelled.
- The strain bookkeeping (`get_strains`, `mutate`, `get_num_past_infections`, `get_past_infection`) only delegates to the trajectory or the host, and is not modelled. Nor is the call to `get_all_strains` in `update`, whose result is discarded.
- `Trajectory`, `Disease`, `Person` and `Household` are not part of this model. The trajectory's reshaping operations are uninterpreted functions of the old curve and their arguments (`Trajectories.Reshaper`). `get_data_point` outside the curve yields a fixed point `OUTSIDE` with zero infectivity and symptomaticity.
- Infectivity and symptom values, and the thresholds, are integers, so fractional values are not represented. `get_infectivity` multiplies the infectivity by `infectivity_multp`, and the model computes that product exactly as a real; the rounding of the double product is not represented. The same holds for the symptom value that `update` passes to `is_fatal`, which is an integer here.
- Infections.TruncateTowardZero: the model truncates the exact real product `days_left * multp`. C++ first rounds that product to a double, so the results can differ. For example, with `days_left = 3` and `multp` the double nearest 1/3, C++ gets 1 and the model gets 0. The 32-bit width of `int` is not modelled, and neither is the undefined behaviour of converting an out-of-range double to `int`. `Infections.Scale` likewise multiplies exactly, for the lengths passed to the reshaping operations.
- `Infection.h`, `Trajectory.h` and `Disease.h` are not part of this model, so the model relies on these assumptions about them:
  - `get_unsusceptible_date()` returns the immunity-end date.
  - `get_asymptomatic_date()` returns `asymptomatic_date`.
  - `set_fatal_infection()` sets `infection_is_fatal_today`.
  - The trajectory iterator visits the points in offset order. `has_next()` advances to the next point, while `next()` and `get_current()` only read the current point and its offset. This matters because the loop body calls `next()` twice.
- Update: the guard that returns when the trajectory pointer is NULL is not modelled, because the model's infection always owns a trajectory. The constructor's assertion that a trajectory was found is likewise not modelled.
- Update: the host, place and infector identities are not modelled. The host's state reaches the model only through parameters: whether the host is infectious, and the fatality query.
- Update: the contract states the live values and the getters separately. `GetInfectivity(today)` equals the live infectivity times the multiplier only by combining the two contracts; `Update` does not state it.
- Infections.ScanTrajectory: in the code, the loop of `set_transition_dates` writes the date and counter fields as it goes. The model's loop runs on local variables, and `SetTransitionDates` stores them when the loop ends. Nothing can read the fields in between, so the two agree.
- The host notifications are a ghost log of the calls made on the host (`become_infectious`, `become_symptomatic`, `become_asymptomatic`, `recover`, `become_unsusceptible`). What these calls do to the host is not modelled.
- Concurrency is not modelled. Each infection is mutated by one thread.
