/** The one-shot notifications an infection sends its host, and which of
    them a given day (or the seeding of an infection) fires. */
module HostNotifications {
  import opened TransitionDates

  datatype Notification =
    | BecomeInfectious
    | BecomeSymptomatic
    | BecomeAsymptomatic
    | Recover
    | BecomeUnsusceptible

  /** The date on which each notification is due. */
  function DueDate(n: Notification, dates: Dates, immunityEnd: int): int
  {
    match n
    case BecomeInfectious => dates.infectiousStart
    case BecomeSymptomatic => dates.symptomsStart
    case BecomeAsymptomatic => dates.symptomsEnd
    case Recover => dates.infectiousEnd
    case BecomeUnsusceptible => immunityEnd
  }

  /** The fixed order in which the infection tests the dates. */
  function Rank(n: Notification): nat
  {
    match n
    case BecomeInfectious => 0
    case BecomeSymptomatic => 1
    case BecomeAsymptomatic => 2
    case Recover => 3
    case BecomeUnsusceptible => 4
  }

  /** `[n]` when `fire`, else nothing. */
  function When(fire: bool, n: Notification): seq<Notification>
  {
    if fire then [n] else []
  }

  /** The notifications a day fires: exactly those due that day, each once,
      in the fixed order. */
  function DayNotifications(today: int, dates: Dates, immunityEnd: int): (r: seq<Notification>)
    ensures forall n :: n in r <==> today == DueDate(n, dates, immunityEnd)
    ensures forall i, j :: 0 <= i < j < |r| ==> Rank(r[i]) < Rank(r[j])
  {
    When(today == dates.infectiousStart, BecomeInfectious)
    + When(today == dates.symptomsStart, BecomeSymptomatic)
    + When(today == dates.symptomsEnd, BecomeAsymptomatic)
    + When(today == dates.infectiousEnd, Recover)
    + When(today == immunityEnd, BecomeUnsusceptible)
  }

  /** The notifications the seeding of an infection fires against the
      epidemic offset: every one but `BecomeAsymptomatic` whose date is on
      or before that day, each once, in the fixed order. */
  function SeedNotifications(dates: Dates, immunityEnd: int, epidemicOffset: int): (r: seq<Notification>)
    ensures forall n :: n in r <==> n != BecomeAsymptomatic && DueDate(n, dates, immunityEnd) <= epidemicOffset
    ensures forall i, j :: 0 <= i < j < |r| ==> Rank(r[i]) < Rank(r[j])
  {
    When(dates.infectiousStart <= epidemicOffset, BecomeInfectious)
    + When(dates.symptomsStart <= epidemicOffset, BecomeSymptomatic)
    + When(dates.infectiousEnd <= epidemicOffset, Recover)
    + When(immunityEnd <= epidemicOffset, BecomeUnsusceptible)
  }

  /** Because NEVER is -1, seeding an infection that never shows symptoms
      (or never loses immunity) still fires the corresponding notification
      whenever the epidemic offset is -1 or later. */
  lemma SeedFiresNeverDates(dates: Dates, immunityEnd: int, epidemicOffset: int)
    requires epidemicOffset >= NEVER
    ensures dates.symptomsStart == NEVER ==> BecomeSymptomatic in SeedNotifications(dates, immunityEnd, epidemicOffset)
    ensures immunityEnd == NEVER ==> BecomeUnsusceptible in SeedNotifications(dates, immunityEnd, epidemicOffset)
  {
  }
}
