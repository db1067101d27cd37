/** What an infection asks of its disease: identity, the two thresholds
    and whether case fatality is evaluated. */
module Diseases {

  datatype Disease = Disease(
    id: int,
    name: string,
    infectivityThreshold: int,
    symptomaticityThreshold: int,
    caseFatalityEnabled: bool)
  {
    /** The disease whose name is "hiv" follows the chronic update rule. */
    predicate IsChronic() { name == "hiv" }
  }

  /** The arguments of a fatality decision `is_fatal`: `byHostState` is
      true when the host's chronic-condition-aware overload is used and
      false when the host's real age is passed instead. */
  datatype FatalityQuery = FatalityQuery(byHostState: bool, symptoms: int, daysSymptomatic: int)
}
