/** The transition dates a trajectory determines, as a reference definition
    over the whole curve: the deriving loop of the infection is proved
    against `Derive`. */
module TransitionDates {
  import opened Trajectories
  import opened Diseases

  /** "No such transition". It is an ordinary integer, compared and added
      to like any date. */
  const NEVER: int := -1

  /** The three classes a trajectory point is tested for. */
  datatype Kind = Infective | Symptomatic | AsymptomaticInfective

  predicate Holds(k: Kind, d: Disease, p: Point)
  {
    match k
    case Infective => p.infectivity > d.infectivityThreshold
    case Symptomatic => p.symptomaticity > d.symptomaticityThreshold
    case AsymptomaticInfective =>
      p.infectivity > d.infectivityThreshold && !(p.symptomaticity > d.symptomaticityThreshold)
  }

  /** Some point of `t` is of kind `k`. */
  predicate Occurs(t: seq<Point>, k: Kind, d: Disease)
  {
    exists i :: 0 <= i < |t| && Holds(k, d, t[i])
  }

  /** The offsets of the points of kind `k`. */
  function Indices(t: seq<Point>, k: Kind, d: Disease): set<int>
  {
    set i | 0 <= i < |t| && Holds(k, d, t[i])
  }

  /** The offset of the first point of kind `k`, or -1 when there is none. */
  function FirstOffset(t: seq<Point>, k: Kind, d: Disease): (r: int)
    ensures -1 <= r < |t|
    ensures r == -1 <==> !Occurs(t, k, d)
    ensures r >= 0 ==> Holds(k, d, t[r]) && forall i :: 0 <= i < r ==> !Holds(k, d, t[i])
  {
    if |t| == 0 then -1
    else
      var r0 := FirstOffset(t[..|t| - 1], k, d);
      assert forall i :: 0 <= i < |t| - 1 ==> t[..|t| - 1][i] == t[i];
      if r0 >= 0 then r0
      else if Holds(k, d, t[|t| - 1]) then |t| - 1
      else -1
  }

  /** The offset of the last point of kind `k`, or -1 when there is none. */
  function LastOffset(t: seq<Point>, k: Kind, d: Disease): (r: int)
    ensures -1 <= r < |t|
    ensures r == -1 <==> !Occurs(t, k, d)
    ensures r >= 0 ==> Holds(k, d, t[r]) && forall i :: r < i < |t| ==> !Holds(k, d, t[i])
  {
    if |t| == 0 then -1
    else if Holds(k, d, t[|t| - 1]) then |t| - 1
    else
      assert forall i :: 0 <= i < |t| - 1 ==> t[..|t| - 1][i] == t[i];
      LastOffset(t[..|t| - 1], k, d)
  }

  /** The number of points of kind `k`. */
  function CountOf(t: seq<Point>, k: Kind, d: Disease): (r: nat)
    ensures r == |Indices(t, k, d)|
  {
    if |t| == 0 then
      assert Indices(t, k, d) == {};
      0
    else
      var n := |t| - 1;
      var r0 := CountOf(t[..n], k, d);
      assert forall i :: 0 <= i < n ==> t[..n][i] == t[i];
      assert Indices(t, k, d) == Indices(t[..n], k, d) + (if Holds(k, d, t[n]) then {n} else {});
      assert n !in Indices(t[..n], k, d);
      r0 + (if Holds(k, d, t[n]) then 1 else 0)
  }

  /** The trajectory-derived dates and day counters of an infection. */
  datatype Dates = Dates(
    infectiousStart: int,
    infectiousEnd: int,
    symptomsStart: int,
    symptomsEnd: int,
    asymptomaticOnset: int,
    asymptomaticPeriod: int,
    symptomaticPeriod: int)

  /** The dates of a trajectory whose offset 0 lies on day `exposure`:
      the infectious span runs from the first infective point to one past
      the last one, the symptomatic span likewise, the asymptomatic onset
      is the infectious start when the first infective point shows no
      symptoms, and the counters count symptomatic and
      asymptomatic-infective points. Every missing span is NEVER. */
  function Derive(t: seq<Point>, exposure: int, d: Disease): Dates
  {
    var fi := FirstOffset(t, Infective, d);
    var li := LastOffset(t, Infective, d);
    var fs := FirstOffset(t, Symptomatic, d);
    var ls := LastOffset(t, Symptomatic, d);
    Dates(
      infectiousStart := if fi == -1 then NEVER else exposure + fi,
      infectiousEnd := if li == -1 then NEVER else exposure + li + 1,
      symptomsStart := if fs == -1 then NEVER else exposure + fs,
      symptomsEnd := if ls == -1 then NEVER else exposure + ls + 1,
      asymptomaticOnset := if fi != -1 && !Holds(Symptomatic, d, t[fi]) then exposure + fi else NEVER,
      asymptomaticPeriod := CountOf(t, AsymptomaticInfective, d),
      symptomaticPeriod := CountOf(t, Symptomatic, d))
  }

  /** What `Derive` means, point by point. */
  lemma DeriveMeaning(t: seq<Point>, exposure: int, d: Disease)
    ensures var r := Derive(t, exposure, d);
            && (!Occurs(t, Infective, d) ==>
                r.infectiousStart == NEVER && r.infectiousEnd == NEVER && r.asymptomaticOnset == NEVER)
            && (Occurs(t, Infective, d) ==>
                var s, e := r.infectiousStart - exposure, r.infectiousEnd - exposure;
                && 0 <= s < e <= |t|
                && Holds(Infective, d, t[s]) && Holds(Infective, d, t[e - 1])
                && (forall i :: 0 <= i < s ==> !Holds(Infective, d, t[i]))
                && (forall i :: e <= i < |t| ==> !Holds(Infective, d, t[i]))
                && r.asymptomaticOnset == (if Holds(Symptomatic, d, t[s]) then NEVER else r.infectiousStart))
            && (!Occurs(t, Symptomatic, d) ==> r.symptomsStart == NEVER && r.symptomsEnd == NEVER)
            && (Occurs(t, Symptomatic, d) ==>
                var s, e := r.symptomsStart - exposure, r.symptomsEnd - exposure;
                && 0 <= s < e <= |t|
                && Holds(Symptomatic, d, t[s]) && Holds(Symptomatic, d, t[e - 1])
                && (forall i :: 0 <= i < s ==> !Holds(Symptomatic, d, t[i]))
                && (forall i :: e <= i < |t| ==> !Holds(Symptomatic, d, t[i])))
            && (r.symptomaticPeriod == |Indices(t, Symptomatic, d)|)
            && (r.asymptomaticPeriod == |Indices(t, AsymptomaticInfective, d)|)
  {
  }

  /** The state of the one-pass scan over a trajectory: the dates and
      counters so far, and whether no infective (`latent`) and no
      symptomatic (`incubating`) point has been seen yet. */
  datatype ScanState = ScanState(dates: Dates, latent: bool, incubating: bool)

  /** What the scan does with the point at `offset`. */
  function ScanStep(s: ScanState, offset: int, p: Point, exposure: int, d: Disease): ScanState
  {
    var infective := Holds(Infective, d, p);
    var symptomatic := Holds(Symptomatic, d, p);
    var asymptomatic := Holds(AsymptomaticInfective, d, p);
    var r := s.dates;
    ScanState(
      Dates(
        infectiousStart := if infective && s.latent then exposure + offset else r.infectiousStart,
        infectiousEnd := if infective then exposure + offset + 1 else r.infectiousEnd,
        symptomsStart := if symptomatic && s.incubating then exposure + offset else r.symptomsStart,
        symptomsEnd := if symptomatic then exposure + offset + 1 else r.symptomsEnd,
        asymptomaticOnset := if asymptomatic && s.latent then exposure + offset else r.asymptomaticOnset,
        asymptomaticPeriod := r.asymptomaticPeriod + (if asymptomatic then 1 else 0),
        symptomaticPeriod := r.symptomaticPeriod + (if symptomatic then 1 else 0)),
      s.latent && !infective,
      s.incubating && !symptomatic)
  }

  /** Extending a trajectory prefix by the point at offset `i` changes its
      derived dates as one step of the scan does: a first crossing is
      recorded only while none has been seen, an end date moves to one past
      every point of its kind, and each counter counts the new point. */
  lemma {:induction false} ScanStepDerives(t: seq<Point>, i: nat, exposure: int, d: Disease)
    requires i < |t|
    ensures ScanStep(PrefixState(t, i, exposure, d), i, t[i], exposure, d) == PrefixState(t, i + 1, exposure, d)
  {
    var r := ScanStep(PrefixState(t, i, exposure, d), i, t[i], exposure, d);
    var b := Derive(t[..i + 1], exposure, d);
    StepInfectious(t, i, exposure, d);
    StepSymptoms(t, i, exposure, d);
    StepCounts(t, i, exposure, d);
    StepOnset(t, i, exposure, d);
    PrefixExtends(t, i, Infective, d);
    PrefixExtends(t, i, Symptomatic, d);
    assert r.dates == b;
  }

  /** The scan state that the first `n` points of `t` should leave: their
      dates, and whether no infective (symptomatic) point is among them. */
  function PrefixState(t: seq<Point>, n: nat, exposure: int, d: Disease): ScanState
    requires n <= |t|
  {
    ScanState(Derive(t[..n], exposure, d),
              FirstOffset(t[..n], Infective, d) == -1,
              FirstOffset(t[..n], Symptomatic, d) == -1)
  }

  /** One step of the scan keeps the infectious span. */
  lemma {:induction false} StepInfectious(t: seq<Point>, i: nat, exposure: int, d: Disease)
    requires i < |t|
    ensures var r, b := ScanStep(PrefixState(t, i, exposure, d), i, t[i], exposure, d).dates, Derive(t[..i + 1], exposure, d);
            r.infectiousStart == b.infectiousStart && r.infectiousEnd == b.infectiousEnd
  {
    PrefixExtends(t, i, Infective, d);
  }

  /** One step of the scan keeps the symptomatic span. */
  lemma {:induction false} StepSymptoms(t: seq<Point>, i: nat, exposure: int, d: Disease)
    requires i < |t|
    ensures var r, b := ScanStep(PrefixState(t, i, exposure, d), i, t[i], exposure, d).dates, Derive(t[..i + 1], exposure, d);
            r.symptomsStart == b.symptomsStart && r.symptomsEnd == b.symptomsEnd
  {
    PrefixExtends(t, i, Symptomatic, d);
  }

  /** One step of the scan keeps both counters. */
  lemma {:induction false} StepCounts(t: seq<Point>, i: nat, exposure: int, d: Disease)
    requires i < |t|
    ensures var r, b := ScanStep(PrefixState(t, i, exposure, d), i, t[i], exposure, d).dates, Derive(t[..i + 1], exposure, d);
            r.asymptomaticPeriod == b.asymptomaticPeriod && r.symptomaticPeriod == b.symptomaticPeriod
  {
    PrefixExtends(t, i, Symptomatic, d);
    PrefixExtends(t, i, AsymptomaticInfective, d);
  }

  /** One step of the scan keeps the asymptomatic onset. */
  lemma {:induction false} StepOnset(t: seq<Point>, i: nat, exposure: int, d: Disease)
    requires i < |t|
    ensures ScanStep(PrefixState(t, i, exposure, d), i, t[i], exposure, d).dates.asymptomaticOnset
         == Derive(t[..i + 1], exposure, d).asymptomaticOnset
  {
    PrefixExtends(t, i, Infective, d);
    var fi, fj := FirstOffset(t[..i], Infective, d), FirstOffset(t[..i + 1], Infective, d);
    assert fj != -1 ==> t[..i + 1][fj] == t[fj];
    assert fi != -1 ==> t[..i][fi] == t[fi];
  }

  /** How the first and last offsets and the count of a kind change when a
      prefix grows by the point at offset `i`. */
  lemma {:induction false} PrefixExtends(t: seq<Point>, i: nat, k: Kind, d: Disease)
    requires i < |t|
    ensures var f := FirstOffset(t[..i], k, d);
            FirstOffset(t[..i + 1], k, d) == if f != -1 then f else if Holds(k, d, t[i]) then i else -1
    ensures LastOffset(t[..i + 1], k, d) == if Holds(k, d, t[i]) then i else LastOffset(t[..i], k, d)
    ensures CountOf(t[..i + 1], k, d) == CountOf(t[..i], k, d) + if Holds(k, d, t[i]) then 1 else 0
  {
    var u := t[..i + 1];
    assert u[..|u| - 1] == t[..i];
    assert u[|u| - 1] == t[i];
  }

  /** The scan state after the first `n` points, starting from all dates
      NEVER and both counters 0. */
  function ScanUpTo(t: seq<Point>, n: nat, exposure: int, d: Disease): ScanState
    requires n <= |t|
  {
    if n == 0 then ScanState(Dates(NEVER, NEVER, NEVER, NEVER, NEVER, 0, 0), true, true)
    else ScanStep(ScanUpTo(t, n - 1, exposure, d), n - 1, t[n - 1], exposure, d)
  }

  /** The scan computes `Derive` on every prefix of the trajectory. */
  lemma {:induction false} ScanUpToDerives(t: seq<Point>, n: nat, exposure: int, d: Disease)
    requires n <= |t|
    ensures ScanUpTo(t, n, exposure, d) == PrefixState(t, n, exposure, d)
  {
    if n == 0 {
      assert t[..0] == [];
    } else {
      var m := n - 1;
      ScanUpToDerives(t, m, exposure, d);
      ScanStepDerives(t, m, exposure, d);
      assert m + 1 == n;
    }
  }

  /** The immunity-end date for a recovery period: `recoveryPeriod` days
      after the infectious end when the period is not negative, else NEVER. */
  function ImmunityEnd(infectiousEnd: int, recoveryPeriod: int): int
  {
    if recoveryPeriod > -1 then infectiousEnd + recoveryPeriod else NEVER
  }

  /** A span that is present starts strictly before it ends, and the
      asymptomatic onset, when there is one, is the infectious start. */
  lemma {:induction false} DatesOrdered(t: seq<Point>, exposure: int, d: Disease)
    ensures var r := Derive(t, exposure, d);
            && (Occurs(t, Infective, d) ==> r.infectiousStart < r.infectiousEnd)
            && (Occurs(t, Symptomatic, d) ==> r.symptomsStart < r.symptomsEnd)
            && (r.asymptomaticOnset == NEVER || r.asymptomaticOnset == r.infectiousStart)
  {
    DeriveMeaning(t, exposure, d);
  }

  /** With no infective point the infectious end stays NEVER, and the
      immunity end is then NEVER plus the recovery period. */
  lemma {:induction false} ImmunityEndWithoutInfection(t: seq<Point>, exposure: int, d: Disease, recoveryPeriod: int)
    requires !Occurs(t, Infective, d) && recoveryPeriod > -1
    ensures ImmunityEnd(Derive(t, exposure, d).infectiousEnd, recoveryPeriod) == recoveryPeriod - 1
  {
    DeriveMeaning(t, exposure, d);
  }

  /** No point is both symptomatic and asymptomatic-infective, so the two
      counters together never exceed the length of the trajectory. */
  lemma {:induction false} PeriodsWithinLength(t: seq<Point>, exposure: int, d: Disease)
    ensures Derive(t, exposure, d).symptomaticPeriod + Derive(t, exposure, d).asymptomaticPeriod <= |t|
  {
    CountsWithinLength(t, d);
  }

  lemma {:induction false} CountsWithinLength(t: seq<Point>, d: Disease)
    ensures CountOf(t, Symptomatic, d) + CountOf(t, AsymptomaticInfective, d) <= |t|
  {
    if |t| > 0 {
      CountsWithinLength(t[..|t| - 1], d);
    }
  }

  /** Moving the exposure day `k` days earlier moves every date that is not
      NEVER `k` days earlier and leaves the counters alone. */
  lemma DeriveShift(t: seq<Point>, exposure: int, k: int, d: Disease)
    ensures var a, b := Derive(t, exposure, d), Derive(t, exposure - k, d);
            && (a.infectiousStart != NEVER ==> b.infectiousStart == a.infectiousStart - k)
            && (a.infectiousEnd != NEVER ==> b.infectiousEnd == a.infectiousEnd - k)
            && (a.symptomsStart != NEVER ==> b.symptomsStart == a.symptomsStart - k)
            && (a.symptomsEnd != NEVER ==> b.symptomsEnd == a.symptomsEnd - k)
            && (a.asymptomaticOnset != NEVER ==> b.asymptomaticOnset == a.asymptomaticOnset - k)
            && b.symptomaticPeriod == a.symptomaticPeriod
            && b.asymptomaticPeriod == a.asymptomaticPeriod
  {
  }
}
