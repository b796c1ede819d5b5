/** The priority combiner: a weighted sum of the three signal scores plus a VIP
    bonus, capped at 1.0, scaled to 100 and rounded. */
module Priority {
  import opened Rounding

  const UrgencyWeight: real := 0.4
  const EmotionWeight: real := 0.3
  const SentimentWeight: real := 0.3
  /** Added on top of the weighted sum, before the cap. */
  const VipBonus: real := 0.2

  predicate InUnit(x: real) {
    0.0 <= x <= 1.0
  }

  /** The value `score` at line 35, before the cap. */
  function RawScore(sentiment: real, emotion: real, urgency: real, vip: bool): (r: real)
    ensures InUnit(sentiment) && InUnit(emotion) && InUnit(urgency) ==>
              (if vip then 0.2 else 0.0) <= r <= (if vip then 1.2 else 1.0)
  {
    urgency * UrgencyWeight + emotion * EmotionWeight + sentiment * SentimentWeight
      + (if vip then VipBonus else 0.0)
  }

  function Min(a: real, b: real): (m: real)
    ensures m <= a && m <= b && (m == a || m == b)
  {
    if a <= b then a else b
  }

  /** `compute_priority`: `round(min(score, 1.0) * 100)`, rounding halves to even as
      Python 3 does. The inputs are not checked; out-of-range inputs still give a
      value, as they do in the source. */
  function ComputePriority(sentiment: real, emotion: real, urgency: real, vip: bool): (p: int)
    ensures p <= 100
    ensures RawScore(sentiment, emotion, urgency, vip) >= 0.0 ==> p >= 0
    ensures RawScore(sentiment, emotion, urgency, vip) >= 1.0 ==> p == 100
    ensures RawScore(sentiment, emotion, urgency, vip) <= 1.0 ==>
              IsRoundHalfEven(RawScore(sentiment, emotion, urgency, vip) * 100.0, p)
  {
    RoundHalfEven(Min(RawScore(sentiment, emotion, urgency, vip), 1.0) * 100.0)
  }

  /** Signal scores in [0, 1] give a priority in [0, 100]. */
  lemma PriorityInRange(sentiment: real, emotion: real, urgency: real, vip: bool)
    requires InUnit(sentiment) && InUnit(emotion) && InUnit(urgency)
    ensures 0 <= ComputePriority(sentiment, emotion, urgency, vip) <= 100
  {
  }

  /** Raising any signal score, or turning the VIP flag on, never lowers the priority. */
  lemma PriorityMonotone(s1: real, e1: real, u1: real, v1: bool,
                         s2: real, e2: real, u2: real, v2: bool)
    requires s1 <= s2 && e1 <= e2 && u1 <= u2 && (v1 ==> v2)
    ensures ComputePriority(s1, e1, u1, v1) <= ComputePriority(s2, e2, u2, v2)
  {
    var r1, r2 := RawScore(s1, e1, u1, v1), RawScore(s2, e2, u2, v2);
    assert r1 <= r2;
    RoundHalfEvenMonotone(Min(r1, 1.0) * 100.0, Min(r2, 1.0) * 100.0);
  }

  /** The VIP flag adds at most 20 points, and exactly 20 while the non-VIP raw
      score is at most 0.8, so that the cap is not reached. */
  lemma VipBonusEffect(sentiment: real, emotion: real, urgency: real)
    ensures 0 <= ComputePriority(sentiment, emotion, urgency, true)
                 - ComputePriority(sentiment, emotion, urgency, false) <= 20
    ensures RawScore(sentiment, emotion, urgency, false) <= 0.8 ==>
              ComputePriority(sentiment, emotion, urgency, true)
                == ComputePriority(sentiment, emotion, urgency, false) + 20
  {
    var r := RawScore(sentiment, emotion, urgency, false);
    assert RawScore(sentiment, emotion, urgency, true) == r + 0.2;
    PriorityMonotone(sentiment, emotion, urgency, false, sentiment, emotion, urgency, true);
    var x := Min(r, 1.0) * 100.0;
    RoundHalfEvenShift(x, 20);
    RoundHalfEvenMonotone(Min(r + 0.2, 1.0) * 100.0, x + 20.0);
    if r <= 0.8 {
      assert Min(r + 0.2, 1.0) * 100.0 == x + 20.0;
    }
  }

  /** The bonus comes before the cap: every signal at 1.0 on a VIP email gives a raw
      score of 1.2, which the cap turns into 100. */
  lemma VipCeiling()
    ensures RawScore(1.0, 1.0, 1.0, true) == 1.2
    ensures ComputePriority(1.0, 1.0, 1.0, true) == 100
  {
  }

  /** Worked examples: (sentiment, emotion, urgency) = (0.5, 0, 0), (1, 0, 0) and
      (0.5, 0.5, 0.5), none VIP, give 15, 30 and 50. */
  lemma PriorityExamples()
    ensures ComputePriority(0.5, 0.0, 0.0, false) == 15
    ensures ComputePriority(1.0, 0.0, 0.0, false) == 30
    ensures ComputePriority(0.5, 0.5, 0.5, false) == 50
  {
    RoundHalfEvenOfInt(15);
    RoundHalfEvenOfInt(30);
    RoundHalfEvenOfInt(50);
  }

  /** Raw scores 0.405 and 0.755 lie exactly halfway. At 0.405 the rounding rule
      decides the band: the even neighbour 40 is Low, where rounding halves up would
      give 41, Medium. At 0.755 the half goes up, to the even neighbour 76. */
  lemma HalfwayScores()
    ensures RawScore(1.0, 0.35, 0.0, false) == 0.405 && ComputePriority(1.0, 0.35, 0.0, false) == 40
    ensures RawScore(0.85, 1.0, 0.5, false) == 0.755 && ComputePriority(0.85, 1.0, 0.5, false) == 76
  {
    RoundHalfEvenExamples();
  }
}
