/**
 * The 0.8 / 0.6 threshold chain that the dashboard's components apply to
 * confidences and quality scores ("x >= 0.8", then "x >= 0.6", else the
 * lowest band).
 */
module Thresholds {

  datatype Band = High | Medium | Low

  function BandOf(x: real): (b: Band)
    ensures b == High <==> x >= 0.8
    ensures b == Medium <==> 0.6 <= x < 0.8
    ensures b == Low <==> x < 0.6
  {
    if x >= 0.8 then High else if x >= 0.6 then Medium else Low
  }

  /** The bands are ordered: a larger score never lands in a lower band. */
  lemma BandMonotone(x: real, y: real)
    requires x <= y
    ensures BandOf(x) == High ==> BandOf(y) == High
    ensures BandOf(x) == Medium ==> BandOf(y) != Low
  {
  }

  /** Display colour class used with a band. */
  datatype Colour = Green | Yellow | Orange | Red | Gray
}
