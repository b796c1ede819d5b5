/** The emotion aggregator: the post-processing of the emotion classifier's
    output, a list of (label, score) pairs. The classifier itself is not modelled. */
module Emotion {
  import opened Text

  /** One entry of the classifier's output. */
  datatype EmotionEntry = EmotionEntry(name: string, score: real)

  /** The labels whose scores count towards the negative-emotion score. */
  const NegativeEmotions: seq<string> := ["anger", "fear", "sadness"]

  predicate IsNegative(e: EmotionEntry) {
    Lower(e.name) in NegativeEmotions
  }

  predicate NonNegative(es: seq<EmotionEntry>) {
    forall i :: 0 <= i < |es| ==> es[i].score >= 0.0
  }

  /** The generator sum `sum(e['score'] for e in emotions if e['label'].lower() in [...])`. */
  function SelectedSum(es: seq<EmotionEntry>): (r: real)
    ensures NonNegative(es) ==> r >= 0.0
    ensures (forall i :: 0 <= i < |es| ==> !IsNegative(es[i])) ==> r == 0.0
  {
    if |es| == 0 then 0.0
    else (if IsNegative(es[0]) then es[0].score else 0.0) + SelectedSum(es[1..])
  }

  /** The entries the sum reads, in order. */
  function Selected(es: seq<EmotionEntry>): (sel: seq<EmotionEntry>)
    ensures forall e :: e in sel <==> e in es && IsNegative(e)
  {
    if |es| == 0 then []
    else (if IsNegative(es[0]) then [es[0]] else []) + Selected(es[1..])
  }

  /** The selection keeps every anger, fear and sadness entry as often as it
      occurs, repeats included, and no other entry. */
  lemma {:induction false} SelectedMultiset(es: seq<EmotionEntry>)
    ensures forall e :: multiset(Selected(es))[e] == if IsNegative(e) then multiset(es)[e] else 0
  {
    if |es| > 0 {
      SelectedMultiset(es[1..]);
      assert es == [es[0]] + es[1..];
      var head := if IsNegative(es[0]) then [es[0]] else [];
      assert multiset(Selected(es)) == multiset(head) + multiset(Selected(es[1..]));
      assert multiset(es) == multiset([es[0]]) + multiset(es[1..]);
    }
  }

  /** Plain sum of the scores of a list of entries. */
  function TotalScore(es: seq<EmotionEntry>): real {
    if |es| == 0 then 0.0 else es[0].score + TotalScore(es[1..])
  }

  /** `get_emotion_score`: the selected sum, capped at 1.0. */
  function EmotionScore(es: seq<EmotionEntry>): (r: real)
    ensures r <= 1.0
    ensures r <= SelectedSum(es)
    ensures r == 1.0 || r == SelectedSum(es)
  {
    var total := SelectedSum(es);
    if total <= 1.0 then total else 1.0
  }

  lemma {:induction false} TotalScoreAppend(a: seq<EmotionEntry>, b: seq<EmotionEntry>)
    ensures TotalScore(a + b) == TotalScore(a) + TotalScore(b)
  {
    if |a| > 0 {
      assert (a + b)[1..] == a[1..] + b;
      TotalScoreAppend(a[1..], b);
    } else {
      assert a + b == b;
    }
  }

  /** The selected sum is the plain sum over exactly the anger, fear and sadness
      entries: every other entry is ignored. */
  lemma {:induction false} SelectedSumIsTotalOfSelected(es: seq<EmotionEntry>)
    ensures SelectedSum(es) == TotalScore(Selected(es))
  {
    if |es| > 0 {
      SelectedSumIsTotalOfSelected(es[1..]);
      var head := if IsNegative(es[0]) then [es[0]] else [];
      TotalScoreAppend(head, Selected(es[1..]));
    }
  }

  /** The sum splits over concatenation. */
  lemma {:induction false} SelectedSumAppend(a: seq<EmotionEntry>, b: seq<EmotionEntry>)
    ensures SelectedSum(a + b) == SelectedSum(a) + SelectedSum(b)
  {
    if |a| > 0 {
      assert (a + b)[1..] == a[1..] + b;
      SelectedSumAppend(a[1..], b);
    } else {
      assert a + b == b;
    }
  }

  lemma SelectedSumSingle(e: EmotionEntry)
    ensures SelectedSum([e]) == if IsNegative(e) then e.score else 0.0
  {
    assert [e][1..] == [];
  }

  /** Inserting an entry with any other label leaves the score unchanged. */
  lemma IgnoresOtherEmotions(a: seq<EmotionEntry>, e: EmotionEntry, b: seq<EmotionEntry>)
    requires !IsNegative(e)
    ensures EmotionScore(a + [e] + b) == EmotionScore(a + b)
  {
    SelectedSumAppend(a + [e], b);
    SelectedSumAppend(a, [e]);
    SelectedSumAppend(a, b);
    SelectedSumSingle(e);
  }

  /** Swapping two blocks of entries leaves the score unchanged. */
  lemma OrderIrrelevant(a: seq<EmotionEntry>, b: seq<EmotionEntry>)
    ensures EmotionScore(a + b) == EmotionScore(b + a)
  {
    SelectedSumAppend(a, b);
    SelectedSumAppend(b, a);
  }

  lemma SelectedSumThree(p: seq<EmotionEntry>, x: seq<EmotionEntry>, q: seq<EmotionEntry>)
    ensures SelectedSum(p + x + q) == SelectedSum(p) + SelectedSum(x) + SelectedSum(q)
  {
    SelectedSumAppend(p + x, q);
    SelectedSumAppend(p, x);
  }

  lemma SplitAt(b: seq<EmotionEntry>, j: int)
    requires 0 <= j < |b|
    ensures b == b[..j] + [b[j]] + b[j + 1..]
  {
  }

  /** Taking entry `j` out of a list takes its share out of the sum. */
  lemma SelectedSumRemove(b: seq<EmotionEntry>, j: int)
    requires 0 <= j < |b|
    ensures SelectedSum(b) == SelectedSum([b[j]]) + SelectedSum(b[..j] + b[j + 1..])
  {
    SplitAt(b, j);
    SelectedSumThree(b[..j], [b[j]], b[j + 1..]);
    SelectedSumAppend(b[..j], b[j + 1..]);
  }

  lemma MultisetRemove(a: seq<EmotionEntry>, b: seq<EmotionEntry>, j: int)
    requires |a| > 0 && 0 <= j < |b| && b[j] == a[0] && multiset(a) == multiset(b)
    ensures multiset(a[1..]) == multiset(b[..j] + b[j + 1..])
  {
    SplitAt(a, 0);
    SplitAt(b, j);
    calc {
      multiset(a[1..]);
      multiset(a) - multiset{a[0]};
      multiset(b) - multiset{b[j]};
      multiset(b[..j]) + multiset{b[j]} + multiset(b[j + 1..]) - multiset{b[j]};
      multiset(b[..j] + b[j + 1..]);
    }
  }

  /** Reordering the entries in any way leaves the sum, and so the score, unchanged. */
  lemma {:induction false} PermutationInvariant(a: seq<EmotionEntry>, b: seq<EmotionEntry>)
    requires multiset(a) == multiset(b)
    ensures SelectedSum(a) == SelectedSum(b)
    ensures EmotionScore(a) == EmotionScore(b)
    decreases |a|
  {
    if |a| == 0 {
      assert |b| == |multiset(b)| == 0;
    } else {
      assert a[0] in multiset(b);
      var j :| 0 <= j < |b| && b[j] == a[0];
      MultisetRemove(a, b, j);
      PermutationInvariant(a[1..], b[..j] + b[j + 1..]);
      SelectedSumRemove(a, 0);
      SelectedSumRemove(b, j);
    }
  }

  /** A list with none of the three labels scores 0. */
  lemma {:induction false} NoneSelectedScoresZero(es: seq<EmotionEntry>)
    requires forall i :: 0 <= i < |es| ==> !IsNegative(es[i])
    ensures EmotionScore(es) == 0.0
  {
    if |es| > 0 {
      NoneSelectedScoresZero(es[1..]);
    }
  }

  /** With non-negative scores the result lies in [0, 1]; it is 1 exactly when the
      selected scores sum to 1 or more. */
  lemma EmotionScoreInUnit(es: seq<EmotionEntry>)
    requires NonNegative(es)
    ensures 0.0 <= EmotionScore(es) <= 1.0
    ensures EmotionScore(es) == 1.0 <==> SelectedSum(es) >= 1.0
  {
  }

  /** Matching ignores case: an entry counts exactly as any entry whose label is
      equal to its own after lower-casing, wherever it stands in the list. */
  lemma EmotionCaseInsensitive(a: seq<EmotionEntry>, n1: string, n2: string, s: real, b: seq<EmotionEntry>)
    requires Lower(n1) == Lower(n2)
    ensures EmotionScore(a + [EmotionEntry(n1, s)] + b) == EmotionScore(a + [EmotionEntry(n2, s)] + b)
  {
    SelectedSumThree(a, [EmotionEntry(n1, s)], b);
    SelectedSumThree(a, [EmotionEntry(n2, s)], b);
    SelectedSumSingle(EmotionEntry(n1, s));
    SelectedSumSingle(EmotionEntry(n2, s));
  }

  /** For instance, "ANGER" counts like "anger". */
  lemma AngerCaseInsensitive(a: seq<EmotionEntry>, s: real, b: seq<EmotionEntry>)
    ensures EmotionScore(a + [EmotionEntry("ANGER", s)] + b) == EmotionScore(a + [EmotionEntry("anger", s)] + b)
  {
    assert Lower("ANGER") == "anger";
    assert Lower("anger") == "anger";
    EmotionCaseInsensitive(a, "ANGER", "anger", s, b);
  }

  /** Anger 0.6, fear 0.5, sadness 0.1 and joy 0.2: the three selected scores sum
      to 1.2, which the cap brings down to 1.0. */
  lemma EmotionExample()
    ensures EmotionScore([EmotionEntry("anger", 0.6), EmotionEntry("fear", 0.5),
                          EmotionEntry("sadness", 0.1), EmotionEntry("joy", 0.2)]) == 1.0
  {
    var es := [EmotionEntry("anger", 0.6), EmotionEntry("fear", 0.5),
               EmotionEntry("sadness", 0.1), EmotionEntry("joy", 0.2)];
    assert Lower("anger") == "anger" && Lower("fear") == "fear";
    assert Lower("sadness") == "sadness" && Lower("joy") == "joy";
    assert es[1..][1..][1..][1..] == [];
    assert SelectedSum(es) == 1.2;
  }
}
