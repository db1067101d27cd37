/** One disease episode of one host: the trajectory it owns, the dates
    derived from it, the daily advance and the interventions that reshape
    the trajectory. */
module Infections {
  import opened Trajectories
  import opened Diseases
  import opened TransitionDates
  import opened HostNotifications

  /** Why an intervention was refused (the `out_of_range` exceptions). */
  datatype Failure =
    | NegativeMultiplier      // "cannot modify: negative multiplier"
    | PastSymptomaticPeriod   // "cannot modify: past symptomatic period"
    | PastAsymptomaticPeriod  // "cannot modify: past asymptomatic period"

  datatype Outcome = Done | Failed(failure: Failure)

  /** The fields neither the deriver nor the interventions touch. */
  datatype Live = Live(
    exposureDate: int,
    infectivity: int,
    symptoms: int,
    infectivityMultp: real,
    susceptibility: real,
    isSusceptible: bool,
    infectionIsFatalToday: bool,
    immuneResponse: bool,
    infecteeCount: int)

  /** The C++ conversion of a double to an int: truncation toward zero. */
  function TruncateTowardZero(x: real): (r: int)
    ensures x >= 0.0 ==> r >= 0 && r as real <= x < r as real + 1.0
    ensures x < 0.0 ==> r <= 0 && r as real - 1.0 < x <= r as real
  {
    if x >= 0.0 then x.Floor else -((-x).Floor)
  }

  /** An `int` times a `double` multiplier, computed as the exact real
      product: the rounding of that product to a double is not modelled. */
  function Scale(n: int, multp: real): real
  {
    n as real * multp
  }

  /** The trajectory after the symptomatic-period intervention passed its
      checks: before symptom onset the whole symptomatic span is scaled,
      from the symptoms start on; otherwise the days left until the
      infectious end are scaled (and truncated), from today's offset on. */
  function SymptomaticReshape(t: seq<Point>, exposure: int, dates: Dates, multp: real, today: int, r: Reshaper): seq<Point>
  {
    if today < dates.symptomsStart then
      ReshapeSymptomatic(r, t, dates.symptomsStart, Scale(dates.symptomaticPeriod, multp))
    else
      var daysLeft := TruncateTowardZero(Scale(dates.infectiousEnd - today, multp));
      ReshapeSymptomatic(r, t, today - exposure, daysLeft as real)
  }

  /** The trajectory after the asymptomatic-period intervention passed its
      checks: before the infectious start the whole asymptomatic span is
      scaled, from the exposure date on; otherwise the days left until
      symptom onset are scaled, from today's offset on. */
  function AsymptomaticReshape(t: seq<Point>, exposure: int, dates: Dates, multp: real, today: int, r: Reshaper): seq<Point>
  {
    if today < dates.infectiousStart then
      ReshapeAsymptomatic(r, t, exposure, Scale(dates.asymptomaticPeriod, multp), dates.symptomsStart)
    else
      ReshapeAsymptomatic(r, t, today - exposure, Scale(dates.symptomsStart - today, multp), dates.symptomsStart)
  }

  /** The loop of `set_transition_dates`: one pass over the trajectory
      points, offset by offset, recording the first and one-past-last
      infective and symptomatic offsets, the asymptomatic onset and the two
      counters; `sawSymptoms` tells whether a symptomatic point was met. */
  method ScanTrajectory(points: seq<Point>, exposure: int, d: Disease) returns (dates: Dates, sawSymptoms: bool)
    ensures dates == Derive(points, exposure, d)
    ensures sawSymptoms == Occurs(points, Symptomatic, d)
  {
    var wasLatent, wasIncubating := true, true;
    var infectiousStart, infectiousEnd, symptomsStart, symptomsEnd := NEVER, NEVER, NEVER, NEVER;
    var asymptomaticOnset, asymptomaticPeriod, symptomaticPeriod := NEVER, 0, 0;
    var current := 0;
    while current < |points|
      invariant 0 <= current <= |points|
      invariant ScanState(Dates(infectiousStart, infectiousEnd, symptomsStart, symptomsEnd,
                                asymptomaticOnset, asymptomaticPeriod, symptomaticPeriod),
                          wasLatent, wasIncubating)
             == ScanUpTo(points, current, exposure, d)
    {
      var point := points[current];
      var infective := point.infectivity > d.infectivityThreshold;
      var symptomatic := point.symptomaticity > d.symptomaticityThreshold;
      var asymptomatic := infective && !symptomatic;

      if infective && wasLatent {
        infectiousStart := exposure + current;
        if asymptomatic && wasLatent {
          asymptomaticOnset := infectiousStart;
        }
        wasLatent := false;
      }
      if infective {
        infectiousEnd := exposure + current + 1;
      }
      if symptomatic && wasIncubating {
        symptomsStart := exposure + current;
        wasIncubating := false;
      }
      if symptomatic {
        symptomaticPeriod := symptomaticPeriod + 1;
        symptomsEnd := exposure + current + 1;
      }
      if asymptomatic {
        asymptomaticPeriod := asymptomaticPeriod + 1;
      }
      current := current + 1;
    }
    ScanUpToDerives(points, current, exposure, d);
    assert points[..current] == points;
    dates := Dates(infectiousStart, infectiousEnd, symptomsStart, symptomsEnd,
                   asymptomaticOnset, asymptomaticPeriod, symptomaticPeriod);
    sawSymptoms := !wasIncubating;
  }

  class Infection {
    const disease: Disease

    // scalar state
    var infectivity: int
    var symptoms: int
    var infectivityMultp: real
    var susceptibility: real
    var isSusceptible: bool
    var infectionIsFatalToday: bool
    var immuneResponse: bool
    var infecteeCount: int
    var willBeSymptomatic: bool
    var asymptomaticPeriod: int
    var symptomaticPeriod: int

    // dates
    var exposureDate: int
    var infectiousStartDate: int
    var infectiousEndDate: int
    var symptomsStartDate: int
    var symptomsEndDate: int
    var asymptomaticDate: int
    var immunityEndDate: int

    /** The owned curve, one point per day offset. */
    var trajectory: seq<Point>

    /** Every notification sent to the host, oldest first. */
    ghost var notifications: seq<Notification>

    function CurrentDates(): Dates
      reads this
    {
      Dates(infectiousStartDate, infectiousEndDate, symptomsStartDate, symptomsEndDate,
            asymptomaticDate, asymptomaticPeriod, symptomaticPeriod)
    }

    function CurrentLive(): Live
      reads this
    {
      Live(exposureDate, infectivity, symptoms, infectivityMultp, susceptibility,
           isSusceptible, infectionIsFatalToday, immuneResponse, infecteeCount)
    }

    /** The derived dates and counters reflect the current trajectory. */
    ghost predicate Consistent()
      reads this
    {
      CurrentDates() == Derive(trajectory, exposureDate, disease)
    }

    /** Consistent, and the immunity end follows the given recovery period. */
    ghost predicate Rederived(recoveryPeriod: int)
      reads this
    {
      Consistent() && immunityEndDate == ImmunityEnd(infectiousEndDate, recoveryPeriod)
    }

    /** `immune_response` is the disease's immunity decision for the host's
        age and `t` the trajectory the disease chose for it; both, like the
        recovery period, are passed in. */
    constructor (disease: Disease, day: int, immuneResponse: bool, t: seq<Point>, recoveryPeriod: int)
      ensures this.disease == disease && trajectory == t
      ensures CurrentLive() == Live(day, 0, 0, 1.0, 0.0, true, false, immuneResponse, 0)
      ensures Rederived(recoveryPeriod)
      ensures willBeSymptomatic == Occurs(t, Symptomatic, disease)
      ensures notifications == []
    {
      this.disease := disease;
      infecteeCount := 0;
      isSusceptible := true;
      infectivityMultp := 1.0;
      infectivity := 0;
      susceptibility := 0.0;
      symptoms := 0;
      asymptomaticPeriod := 0;
      symptomaticPeriod := 0;
      exposureDate := day;
      infectiousStartDate := -1;
      infectiousEndDate := -1;
      symptomsStartDate := -1;
      symptomsEndDate := -1;
      immunityEndDate := -1;
      asymptomaticDate := -1;
      willBeSymptomatic := false;
      infectionIsFatalToday := false;
      this.immuneResponse := immuneResponse;
      trajectory := t;
      notifications := [];
      new;
      SetTransitionDates(recoveryPeriod);
    }

    /** `set_transition_dates`: the dates and counters are reset and then
        derived from the trajectory alone (by `ScanTrajectory`), so a second
        run changes nothing; `willBeSymptomatic` is only ever set. */
    method SetTransitionDates(recoveryPeriod: int)
      modifies this`infectiousStartDate, this`infectiousEndDate, this`symptomsStartDate, this`symptomsEndDate
      modifies this`asymptomaticDate, this`asymptomaticPeriod, this`symptomaticPeriod
      modifies this`immunityEndDate, this`willBeSymptomatic
      ensures Rederived(recoveryPeriod)
      ensures willBeSymptomatic == (old(willBeSymptomatic) || Occurs(trajectory, Symptomatic, disease))
    {
      var dates, sawSymptoms := ScanTrajectory(trajectory, exposureDate, disease);
      infectiousStartDate, infectiousEndDate := dates.infectiousStart, dates.infectiousEnd;
      symptomsStartDate, symptomsEndDate := dates.symptomsStart, dates.symptomsEnd;
      asymptomaticDate := dates.asymptomaticOnset;
      asymptomaticPeriod, symptomaticPeriod := dates.asymptomaticPeriod, dates.symptomaticPeriod;
      if sawSymptoms {
        willBeSymptomatic := true;
      }
      if recoveryPeriod > -1 {
        immunityEndDate := infectiousEndDate + recoveryPeriod;
      } else {
        immunityEndDate := NEVER;
      }
    }

    /** Running the deriver twice in a row gives what one run gives, on the
        same trajectory, and the second run changes no field at all. */
    method SetTransitionDatesTwice(recoveryPeriod: int) returns (once: Dates, twice: Dates)
      modifies this`infectiousStartDate, this`infectiousEndDate, this`symptomsStartDate, this`symptomsEndDate
      modifies this`asymptomaticDate, this`asymptomaticPeriod, this`symptomaticPeriod
      modifies this`immunityEndDate, this`willBeSymptomatic
      ensures once == twice == CurrentDates()
      ensures Rederived(recoveryPeriod)
      ensures willBeSymptomatic == (old(willBeSymptomatic) || Occurs(trajectory, Symptomatic, disease))
    {
      SetTransitionDates(recoveryPeriod);
      once := CurrentDates();
      ghost var will := willBeSymptomatic;
      ghost var immunity := immunityEndDate;
      SetTransitionDates(recoveryPeriod);
      twice := CurrentDates();
      assert willBeSymptomatic == will && immunityEndDate == immunity;
    }

    /** `is_infectious`: the live infectivity, classified as the deriver
        classifies trajectory points. */
    predicate IsInfectious()
      reads this
      ensures IsInfectious() <==> Holds(Infective, disease, Point(infectivity, symptoms))
    {
      infectivity > disease.infectivityThreshold
    }

    /** `is_symptomatic`: the live symptoms, classified as the deriver
        classifies trajectory points. */
    predicate IsSymptomatic()
      reads this
      ensures IsSymptomatic() <==> Holds(Symptomatic, disease, Point(infectivity, symptoms))
    {
      symptoms > disease.symptomaticityThreshold
    }

    /** `get_infectivity(day)`: the trajectory's infectivity on that day,
        scaled by the multiplier. */
    function GetInfectivity(day: int): (r: real)
      reads this
      ensures 0 <= day - exposureDate < |trajectory| ==>
                r == trajectory[day - exposureDate].infectivity as real * infectivityMultp
      ensures !(0 <= day - exposureDate < |trajectory|) ==> r == OUTSIDE.infectivity as real * infectivityMultp
    {
      DataPoint(trajectory, day - exposureDate).infectivity as real * infectivityMultp
    }

    /** `get_symptoms(day)`: the trajectory's symptom severity on that day,
        with no multiplier. */
    function GetSymptoms(day: int): (r: int)
      reads this
      ensures 0 <= day - exposureDate < |trajectory| ==> r == trajectory[day - exposureDate].symptomaticity
      ensures !(0 <= day - exposureDate < |trajectory|) ==> r == OUTSIDE.symptomaticity
    {
      DataPoint(trajectory, day - exposureDate).symptomaticity
    }

    /** `update(today)`. The chronic disease takes `ChronicUpdate`; every
        other disease reads today's point, fires the notifications due
        today, loses susceptibility on the immunity-end date and, when case
        fatality is enabled and the host is symptomatic, asks `isFatal`.
        `hostIsInfectious` is the host's own infectious flag for this
        disease and `byHostState` the global chronic-condition switch. */
    method Update(today: int, hostIsInfectious: bool, byHostState: bool, isFatal: FatalityQuery -> bool)
      modifies this`infectivity, this`symptoms, this`isSusceptible, this`infectionIsFatalToday, this`notifications
      ensures disease.IsChronic() ==>
                && infectivity == old(infectivity) && symptoms == old(symptoms)
                && isSusceptible == old(isSusceptible) && infectionIsFatalToday == old(infectionIsFatalToday)
                && notifications == old(notifications)
                   + When(today - exposureDate > 3 && !hostIsInfectious, BecomeInfectious)
      ensures !disease.IsChronic() ==>
                && infectivity == DataPoint(trajectory, today - exposureDate).infectivity
                && symptoms == DataPoint(trajectory, today - exposureDate).symptomaticity
                && notifications == old(notifications) + DayNotifications(today, CurrentDates(), immunityEndDate)
                && isSusceptible == (old(isSusceptible) && today != immunityEndDate)
                && infectionIsFatalToday ==
                   (old(infectionIsFatalToday)
                    || (disease.caseFatalityEnabled && IsSymptomatic()
                        && isFatal(FatalityQuery(byHostState, symptoms, today - symptomsStartDate))))
    {
      if disease.IsChronic() {
        ChronicUpdate(today, hostIsInfectious);
        return;
      }

      var daysPostExposure := today - exposureDate;
      var point := DataPoint(trajectory, daysPostExposure);
      infectivity := point.infectivity;
      symptoms := point.symptomaticity;

      // each transition due today notifies the host, in this order
      ghost var sent := When(today == infectiousStartDate, BecomeInfectious);
      sent := sent + When(today == symptomsStartDate, BecomeSymptomatic);
      sent := sent + When(today == symptomsEndDate, BecomeAsymptomatic);
      sent := sent + When(today == infectiousEndDate, Recover);
      sent := sent + When(today == immunityEndDate, BecomeUnsusceptible);
      notifications := notifications + sent;
      if today == immunityEndDate {
        isSusceptible := false;
      }

      if disease.caseFatalityEnabled && IsSymptomatic() {
        var daysSymptomatic := today - symptomsStartDate;
        if isFatal(FatalityQuery(byHostState, symptoms, daysSymptomatic)) {
          infectionIsFatalToday := true;
          return;
        }
      }
    }

    /** `chronic_update(today)`: once more than three days have passed since
        exposure, tell a host that is not yet infectious that it is. */
    method ChronicUpdate(today: int, hostIsInfectious: bool)
      modifies this`notifications
      ensures notifications == old(notifications) + When(today - exposureDate > 3 && !hostIsInfectious, BecomeInfectious)
    {
      var daysPostExposure := today - exposureDate;
      if daysPostExposure > 3 && !hostIsInfectious {
        notifications := notifications + [BecomeInfectious];
      }
    }

    /** `setTrajectory`: replace the curve and re-derive the dates. */
    method SetTrajectory(t: seq<Point>, recoveryPeriod: int)
      modifies this`trajectory
      modifies this`infectiousStartDate, this`infectiousEndDate, this`symptomsStartDate, this`symptomsEndDate
      modifies this`asymptomaticDate, this`asymptomaticPeriod, this`symptomaticPeriod
      modifies this`immunityEndDate, this`willBeSymptomatic
      ensures trajectory == t && Rederived(recoveryPeriod)
      ensures willBeSymptomatic == (old(willBeSymptomatic) || Occurs(t, Symptomatic, disease))
    {
      trajectory := t;
      SetTransitionDates(recoveryPeriod);
    }

    /** `advance_seed_infection(days)`: only for an infection whose exposure
        and infectious-end dates are set. Moves the exposure `days` earlier,
        re-derives, and notifies the host of every transition due on or
        before the epidemic offset. */
    method AdvanceSeedInfection(days: int, epidemicOffset: int, recoveryPeriod: int)
      requires infectiousEndDate != -1 && exposureDate != -1
      modifies this`exposureDate, this`notifications
      modifies this`infectiousStartDate, this`infectiousEndDate, this`symptomsStartDate, this`symptomsEndDate
      modifies this`asymptomaticDate, this`asymptomaticPeriod, this`symptomaticPeriod
      modifies this`immunityEndDate, this`willBeSymptomatic
      ensures exposureDate == old(exposureDate) - days
      ensures Rederived(recoveryPeriod)
      ensures willBeSymptomatic == (old(willBeSymptomatic) || Occurs(trajectory, Symptomatic, disease))
      ensures notifications == old(notifications) + SeedNotifications(CurrentDates(), immunityEndDate, epidemicOffset)
      ensures old(Consistent()) ==>
                && (old(infectiousStartDate) != NEVER ==> infectiousStartDate == old(infectiousStartDate) - days)
                && infectiousEndDate == old(infectiousEndDate) - days
                && (old(symptomsStartDate) != NEVER ==> symptomsStartDate == old(symptomsStartDate) - days)
                && (old(symptomsEndDate) != NEVER ==> symptomsEndDate == old(symptomsEndDate) - days)
                && (old(asymptomaticDate) != NEVER ==> asymptomaticDate == old(asymptomaticDate) - days)
                && symptomaticPeriod == old(symptomaticPeriod)
                && asymptomaticPeriod == old(asymptomaticPeriod)
    {
      DeriveShift(trajectory, exposureDate, days, disease);
      exposureDate := exposureDate - days;
      SetTransitionDates(recoveryPeriod);
      NotifySeedTransitions(epidemicOffset);
    }

    /** The notifications of `advance_seed_infection`: each transition due
        on or before the epidemic offset notifies the host, in this order. */
    method NotifySeedTransitions(epidemicOffset: int)
      modifies this`notifications
      ensures notifications == old(notifications) + SeedNotifications(CurrentDates(), immunityEndDate, epidemicOffset)
    {
      ghost var sent := When(infectiousStartDate <= epidemicOffset, BecomeInfectious);
      sent := sent + When(symptomsStartDate <= epidemicOffset, BecomeSymptomatic);
      sent := sent + When(infectiousEndDate <= epidemicOffset, Recover);
      sent := sent + When(immunityEndDate <= epidemicOffset, BecomeUnsusceptible);
      notifications := notifications + sent;
    }

    /** `modify_symptomatic_period(multp, today)`. */
    method ModifySymptomaticPeriod(multp: real, today: int, recoveryPeriod: int, reshape: Reshaper)
      returns (outcome: Outcome)
      modifies this`trajectory
      modifies this`infectiousStartDate, this`infectiousEndDate, this`symptomsStartDate, this`symptomsEndDate
      modifies this`asymptomaticDate, this`asymptomaticPeriod, this`symptomaticPeriod
      modifies this`immunityEndDate, this`willBeSymptomatic
      ensures multp < 0.0 ==> outcome == Failed(NegativeMultiplier) && unchanged(this)
      ensures multp >= 0.0 && today >= old(infectiousEndDate) ==>
                outcome == Failed(PastSymptomaticPeriod) && unchanged(this)
      ensures multp >= 0.0 && today < old(infectiousEndDate) ==>
                && outcome == Done
                && trajectory == SymptomaticReshape(old(trajectory), old(exposureDate), old(CurrentDates()), multp, today, reshape)
                && Rederived(recoveryPeriod)
                && willBeSymptomatic == (old(willBeSymptomatic) || Occurs(trajectory, Symptomatic, disease))
    {
      if multp < 0.0 {
        return Failed(NegativeMultiplier);
      }
      if today >= infectiousEndDate {
        return Failed(PastSymptomaticPeriod);
      } else if today < symptomsStartDate {
        var length := Scale(symptomaticPeriod, multp);
        trajectory := ReshapeSymptomatic(reshape, trajectory, symptomsStartDate, length);
        SetTransitionDates(recoveryPeriod);
      } else {
        var daysLeft := infectiousEndDate - today;
        daysLeft := TruncateTowardZero(Scale(daysLeft, multp));
        trajectory := ReshapeSymptomatic(reshape, trajectory, today - exposureDate, daysLeft as real);
        SetTransitionDates(recoveryPeriod);
      }
      outcome := Done;
    }

    /** `modify_asymptomatic_period(multp, today)`. */
    method ModifyAsymptomaticPeriod(multp: real, today: int, recoveryPeriod: int, reshape: Reshaper)
      returns (outcome: Outcome)
      modifies this`trajectory
      modifies this`infectiousStartDate, this`infectiousEndDate, this`symptomsStartDate, this`symptomsEndDate
      modifies this`asymptomaticDate, this`asymptomaticPeriod, this`symptomaticPeriod
      modifies this`immunityEndDate, this`willBeSymptomatic
      ensures multp < 0.0 ==> outcome == Failed(NegativeMultiplier) && unchanged(this)
      ensures multp >= 0.0 && today >= old(symptomsStartDate) ==>
                outcome == Failed(PastAsymptomaticPeriod) && unchanged(this)
      ensures multp >= 0.0 && today < old(symptomsStartDate) ==>
                && outcome == Done
                && trajectory == AsymptomaticReshape(old(trajectory), old(exposureDate), old(CurrentDates()), multp, today, reshape)
                && Rederived(recoveryPeriod)
                && willBeSymptomatic == (old(willBeSymptomatic) || Occurs(trajectory, Symptomatic, disease))
    {
      if multp < 0.0 {
        return Failed(NegativeMultiplier);
      }
      if today >= symptomsStartDate {
        return Failed(PastAsymptomaticPeriod);
      } else if today < infectiousStartDate {
        var length := Scale(asymptomaticPeriod, multp);
        trajectory := ReshapeAsymptomatic(reshape, trajectory, exposureDate, length, symptomsStartDate);
        SetTransitionDates(recoveryPeriod);
      } else {
        var daysLeft := symptomsStartDate - today;
        var length := Scale(daysLeft, multp);
        trajectory := ReshapeAsymptomatic(reshape, trajectory, today - exposureDate, length, symptomsStartDate);
        SetTransitionDates(recoveryPeriod);
      }
      outcome := Done;
    }

    /** `modify_infectious_period(multp, today)`: the asymptomatic leg when
        today is before symptom onset, then the symptomatic leg on the
        re-derived dates. A failure of the first leg propagates; a failure
        of the second leaves the first leg's changes in place. */
    method ModifyInfectiousPeriod(multp: real, today: int, recoveryPeriod: int, reshape: Reshaper)
      returns (outcome: Outcome)
      modifies this`trajectory
      modifies this`infectiousStartDate, this`infectiousEndDate, this`symptomsStartDate, this`symptomsEndDate
      modifies this`asymptomaticDate, this`asymptomaticPeriod, this`symptomaticPeriod
      modifies this`immunityEndDate, this`willBeSymptomatic
      ensures multp < 0.0 ==> outcome == Failed(NegativeMultiplier) && unchanged(this)
      ensures multp >= 0.0 && today >= old(symptomsStartDate) ==>
                && (today >= old(infectiousEndDate) ==> outcome == Failed(PastSymptomaticPeriod) && unchanged(this))
                && (today < old(infectiousEndDate) ==>
                      && outcome == Done
                      && trajectory == SymptomaticReshape(old(trajectory), old(exposureDate), old(CurrentDates()), multp, today, reshape)
                      && Rederived(recoveryPeriod)
                      && willBeSymptomatic == (old(willBeSymptomatic) || Occurs(trajectory, Symptomatic, disease)))
      ensures multp >= 0.0 && today < old(symptomsStartDate) ==>
                var t1 := AsymptomaticReshape(old(trajectory), old(exposureDate), old(CurrentDates()), multp, today, reshape);
                var d1 := Derive(t1, old(exposureDate), disease);
                && Rederived(recoveryPeriod)
                && (today >= d1.infectiousEnd ==> outcome == Failed(PastSymptomaticPeriod) && trajectory == t1)
                && (today < d1.infectiousEnd ==>
                      outcome == Done && trajectory == SymptomaticReshape(t1, old(exposureDate), d1, multp, today, reshape))
                && willBeSymptomatic == (old(willBeSymptomatic) || Occurs(t1, Symptomatic, disease) || Occurs(trajectory, Symptomatic, disease))
    {
      if today < symptomsStartDate {
        outcome := ModifyAsymptomaticPeriod(multp, today, recoveryPeriod, reshape);
        if outcome.Failed? {
          return;
        }
      }
      outcome := ModifySymptomaticPeriod(multp, today, recoveryPeriod, reshape);
    }

    /** `modify_develops_symptoms(symptoms, today)`: refused once the
        symptomatic span has begun without an asymptomatic onset, or once
        the infectious span is over. When the request differs from
        `willBeSymptomatic`, the trajectory is told to develop symptoms
        from the symptoms start for `daysSymp` days when the episode was to
        be symptomatic and for 0 days otherwise, and the dates are
        re-derived; `willBeSymptomatic` itself is never cleared. */
    method ModifyDevelopsSymptoms(develops: bool, today: int, daysSymp: int, recoveryPeriod: int, reshape: Reshaper)
      returns (outcome: Outcome)
      modifies this`trajectory
      modifies this`infectiousStartDate, this`infectiousEndDate, this`symptomsStartDate, this`symptomsEndDate
      modifies this`asymptomaticDate, this`asymptomaticPeriod, this`symptomaticPeriod
      modifies this`immunityEndDate, this`willBeSymptomatic
      ensures (today >= old(symptomsStartDate) && old(asymptomaticDate) == -1) || today >= old(infectiousEndDate) ==>
                outcome == Failed(PastSymptomaticPeriod) && unchanged(this)
      ensures !((today >= old(symptomsStartDate) && old(asymptomaticDate) == -1) || today >= old(infectiousEndDate)) ==>
                && outcome == Done
                && (old(willBeSymptomatic) == develops ==> unchanged(this))
                && (old(willBeSymptomatic) != develops ==>
                      && trajectory == ReshapeDevelopsSymptoms(reshape, old(trajectory), old(symptomsStartDate),
                                                               if old(willBeSymptomatic) then daysSymp else 0)
                      && Rederived(recoveryPeriod)
                      && willBeSymptomatic == (old(willBeSymptomatic) || Occurs(trajectory, Symptomatic, disease)))
    {
      if (today >= symptomsStartDate && asymptomaticDate == -1) || today >= infectiousEndDate {
        return Failed(PastSymptomaticPeriod);
      }
      if willBeSymptomatic != develops {
        symptomaticPeriod := if willBeSymptomatic then daysSymp else 0;
        trajectory := ReshapeDevelopsSymptoms(reshape, trajectory, symptomsStartDate, symptomaticPeriod);
        SetTransitionDates(recoveryPeriod);
      }
      outcome := Done;
    }
  }
}
