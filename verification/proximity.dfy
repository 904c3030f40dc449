/**
 * Classification of the ranged beacon's distance estimate (the platform's
 * `accuracy`, in metres; negative when unknown) into the proximity text the
 * monitor shows.  The cases are tried in order and the first match wins.
 */
module Proximity {
  import opened Wrappers

  const VeryClose: string := "Very Close"
  const Near: string := "Near"
  const Far: string := "Far"

  /** The new proximity text, or `None` for a negative (unknown) distance, which keeps the old text. */
  function DistanceClass(d: real): (p: Option<string>)
    ensures p.None? <==> d < 0.0
    ensures p == Some(VeryClose) <==> 0.0 <= d <= 10.0
    ensures p == Some(Near) <==> 10.0 < d <= 20.0
    ensures p == Some(Far) <==> 20.0 < d
  {
    if d < 0.0 then None
    else if 0.0 <= d <= 10.0 then Some(VeryClose)
    else if 10.0 <= d <= 20.0 then Some(Near)
    else if d > 20.0 then Some(Far)
    else None
  }

  /** How far a class is: 0 for "Very Close", 1 for "Near", 2 for "Far". */
  function Rank(p: Option<string>): nat {
    if p == Some(VeryClose) then 0 else if p == Some(Near) then 1 else 2
  }

  /** Classification is monotone: a beacon further away is never shown as closer. */
  lemma CloserNeverFarther(d1: real, d2: real)
    requires 0.0 <= d1 <= d2
    ensures Rank(DistanceClass(d1)) <= Rank(DistanceClass(d2))
  {
  }

  /** The shared boundaries belong to the closer class: 10 m is "Very Close", 20 m is "Near". */
  lemma BoundariesGoToCloserClass()
    ensures DistanceClass(10.0) == Some(VeryClose)
    ensures DistanceClass(20.0) == Some(Near)
  {
  }
}
