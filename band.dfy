/** The band classifier: the threshold chain that turns a priority score into
    the label shown to the user. */
module Band {

  datatype Band = Low | Medium | High

  /** Position of a band in the order Low < Medium < High. */
  function Rank(b: Band): int {
    match b
    case Low => 0
    case Medium => 1
    case High => 2
  }

  const HighThreshold: int := 75
  const MediumThreshold: int := 40

  /** `if score > 75: High elif score > 40: Medium else: Low`. */
  function BandOf(score: int): (b: Band)
    ensures b == High <==> score > 75
    ensures b == Medium <==> 40 < score <= 75
    ensures b == Low <==> score <= 40
  {
    if score > HighThreshold then High
    else if score > MediumThreshold then Medium
    else Low
  }

  /** A higher score never lands in a lower band. */
  lemma BandMonotone(score1: int, score2: int)
    requires score1 <= score2
    ensures Rank(BandOf(score1)) <= Rank(BandOf(score2))
  {
  }

  /** The boundary values belong to the band below: 75 is Medium and 40 is Low. */
  lemma BandBoundaries()
    ensures BandOf(76) == High && BandOf(75) == Medium
    ensures BandOf(41) == Medium && BandOf(40) == Low
    ensures BandOf(100) == High && BandOf(0) == Low
  {
  }
}
