/** Identifiers the source draws from the clock and a random number
 *  generator. Neither is modelled: a generated id is its prefix and a fixed
 *  placeholder, and no property of the model compares generated ids. */
module Ids {
  function GeneratedId(prefix: string): (r: string)
    ensures |r| > |prefix| && r[..|prefix|] == prefix
  {
    prefix + "-id"
  }
}
