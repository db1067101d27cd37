/** A worked example: a ten-day trajectory with two asymptomatic-infective
    days followed by three symptomatic days, for a disease whose thresholds
    are both 0, exposed on day 100. */
module Scenario {
  import opened Trajectories
  import opened Diseases
  import opened TransitionDates
  import opened HostNotifications

  const Quiet: Point := Point(0, 0)
  const Carrier: Point := Point(1, 0)
  const Sick: Point := Point(1, 1)

  function ExampleTrajectory(): seq<Point>
  {
    [Quiet, Quiet, Carrier, Carrier, Sick, Sick, Sick, Quiet, Quiet, Quiet]
  }

  /** The derived dates: infectious and asymptomatic from day 102, symptoms
      from day 104, both spans ending on day 107; two asymptomatic and three
      symptomatic days. */
  lemma {:induction false} ExampleDates(d: Disease)
    requires d.infectivityThreshold == 0 && d.symptomaticityThreshold == 0
    ensures Derive(ExampleTrajectory(), 100, d) == Dates(102, 107, 104, 107, 102, 2, 3)
  {
    var t := ExampleTrajectory();
    var none := Dates(NEVER, NEVER, NEVER, NEVER, NEVER, 0, 0);
    assert ScanUpTo(t, 0, 100, d) == ScanState(none, true, true);
    assert ScanUpTo(t, 1, 100, d) == ScanState(none, true, true);
    assert ScanUpTo(t, 2, 100, d) == ScanState(none, true, true);
    assert ScanUpTo(t, 3, 100, d) == ScanState(Dates(102, 103, NEVER, NEVER, 102, 1, 0), false, true);
    assert ScanUpTo(t, 4, 100, d) == ScanState(Dates(102, 104, NEVER, NEVER, 102, 2, 0), false, true);
    assert ScanUpTo(t, 5, 100, d) == ScanState(Dates(102, 105, 104, 105, 102, 2, 1), false, false);
    assert ScanUpTo(t, 6, 100, d) == ScanState(Dates(102, 106, 104, 106, 102, 2, 2), false, false);
    assert ScanUpTo(t, 7, 100, d) == ScanState(Dates(102, 107, 104, 107, 102, 2, 3), false, false);
    assert ScanUpTo(t, 8, 100, d) == ScanState(Dates(102, 107, 104, 107, 102, 2, 3), false, false);
    assert ScanUpTo(t, 9, 100, d) == ScanState(Dates(102, 107, 104, 107, 102, 2, 3), false, false);
    assert ScanUpTo(t, 10, 100, d) == ScanState(Dates(102, 107, 104, 107, 102, 2, 3), false, false);
    ScanUpToDerives(t, |t|, 100, d);
    assert t[..|t|] == t;
  }

  /** On day 107 the host is told it is no longer symptomatic and then that
      it has recovered; with a positive recovery period nothing else fires. */
  lemma {:induction false} ExampleDay107(d: Disease, recoveryPeriod: int)
    requires d.infectivityThreshold == 0 && d.symptomaticityThreshold == 0
    requires recoveryPeriod > 0
    ensures var dates := Derive(ExampleTrajectory(), 100, d);
            DayNotifications(107, dates, ImmunityEnd(dates.infectiousEnd, recoveryPeriod))
            == [BecomeAsymptomatic, Recover]
  {
    ExampleDates(d);
  }
}
