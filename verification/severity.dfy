/** The four severity classes the dashboard colours magnitudes with. The
    map markers, the map popup badge, the statistics table and the globe
    each write the same thresholds 6, 4 and 2 out again; this module is the
    single reference those copies are proved against. */
module Severity {

  datatype Severity = Green | Yellow | Orange | Red

  function Rank(s: Severity): nat {
    match s
    case Green => 0
    case Yellow => 1
    case Orange => 2
    case Red => 3
  }

  /** How many of the thresholds 2, 4 and 6 the magnitude reaches. */
  function ThresholdsReached(mag: real): (n: nat)
    ensures n <= 3
  {
    (if mag >= 2.0 then 1 else 0) + (if mag >= 4.0 then 1 else 0) + (if mag >= 6.0 then 1 else 0)
  }

  /** The class of a magnitude: one step up for every threshold reached. */
  function SeverityOf(mag: real): (s: Severity)
    ensures Rank(s) == ThresholdsReached(mag)
    ensures s == Red <==> 6.0 <= mag
    ensures s == Orange <==> 4.0 <= mag < 6.0
    ensures s == Yellow <==> 2.0 <= mag < 4.0
    ensures s == Green <==> mag < 2.0
  {
    match ThresholdsReached(mag)
    case 0 => Green
    case 1 => Yellow
    case 2 => Orange
    case 3 => Red
  }

  /** A larger magnitude never falls in a lower class. */
  lemma SeverityMonotone(m1: real, m2: real)
    requires m1 <= m2
    ensures Rank(SeverityOf(m1)) <= Rank(SeverityOf(m2))
  {
  }
}
