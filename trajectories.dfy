/** The disease-progression curve an infection owns: one point per day
    offset, visited by the trajectory iterator in offset order. */
module Trajectories {

  /** One day of the curve. Infectivity and symptom severity are kept as
      integers, so fractional values are not represented. */
  datatype Point = Point(infectivity: int, symptomaticity: int)

  /** The point `get_data_point` yields at an offset the curve holds no
      point for (before exposure or after the curve's end). */
  const OUTSIDE: Point := Point(0, 0)

  /** `Trajectory::get_data_point(offset)`. */
  function DataPoint(t: seq<Point>, offset: int): Point
  {
    if 0 <= offset < |t| then t[offset] else OUTSIDE
  }

  /** The in-place reshaping operations of the trajectory, left
      uninterpreted: each yields the new curve and touches nothing else.
      - `symptomatic(t, day, length)`: `modify_symp_period(day, length)`
      - `asymptomatic(t, day, length, symptomsStart)`:
        `modify_asymp_period(day, length, symptomsStart)`
      - `developsSymptoms(t, day, length)`: `modify_develops_symp(day, length)` */
  datatype Reshaper = Reshaper(
    symptomatic: (seq<Point>, int, real) -> seq<Point>,
    asymptomatic: (seq<Point>, int, real, int) -> seq<Point>,
    developsSymptoms: (seq<Point>, int, int) -> seq<Point>)

  /** Applying the reshaping operations; these do not depend on the heap. */
  function ReshapeSymptomatic(r: Reshaper, t: seq<Point>, day: int, length: real): seq<Point>
  {
    r.symptomatic(t, day, length)
  }

  function ReshapeAsymptomatic(r: Reshaper, t: seq<Point>, day: int, length: real, symptomsStart: int): seq<Point>
  {
    r.asymptomatic(t, day, length, symptomsStart)
  }

  function ReshapeDevelopsSymptoms(r: Reshaper, t: seq<Point>, day: int, length: int): seq<Point>
  {
    r.developsSymptoms(t, day, length)
  }
}
