/** The scoring pipeline as the page runs it: the three signal scores, the
    priority and its band, for one email. The classifiers' outputs are inputs. */
module Pipeline {
  import opened Text
  import opened Urgency
  import opened Sentiment
  import opened Emotion
  import opened Priority
  import opened Band
  import Rounding

  datatype Option<T> = None | Some(value: T)

  /** What the page shows for one email. */
  datatype Breakdown = Breakdown(sentiment: real, emotion: real, urgency: real, vip: bool,
                                 priority: int, band: Band)

  /** One press of the button: a blank email is not scored; otherwise the signals
      are computed from the text, the sentiment label and the emotion entries. */
  function Analyze(text: string, vip: bool, sentimentLabel: string, emotions: seq<EmotionEntry>)
    : (r: Option<Breakdown>)
    ensures r.None? <==> IsBlank(text)
    ensures r.Some? ==> r.value.vip == vip && r.value.band == BandOf(r.value.priority)
    ensures r.Some? ==> r.value.priority == ComputePriority(r.value.sentiment, r.value.emotion, r.value.urgency, vip)
    ensures r.Some? ==> r.value.sentiment == SentimentScore(sentimentLabel)
                        && r.value.emotion == EmotionScore(emotions)
                        && r.value.urgency == UrgencyScore(text)
  {
    if IsBlank(text) then None
    else
      var sentiment := SentimentScore(sentimentLabel);
      var emotion := EmotionScore(emotions);
      var urgency := UrgencyScore(text);
      var priority := ComputePriority(sentiment, emotion, urgency, vip);
      Some(Breakdown(sentiment, emotion, urgency, vip, priority, BandOf(priority)))
  }

  /** With non-negative emotion scores, every signal lies in [0, 1] and the
      priority in [0, 100]. */
  lemma AnalyzeInRange(text: string, vip: bool, sentimentLabel: string, emotions: seq<EmotionEntry>)
    requires !IsBlank(text) && NonNegative(emotions)
    ensures Analyze(text, vip, sentimentLabel, emotions).Some?
    ensures var b := Analyze(text, vip, sentimentLabel, emotions).value;
            InUnit(b.sentiment) && InUnit(b.emotion) && InUnit(b.urgency) && 0 <= b.priority <= 100
  {
    EmotionScoreInUnit(emotions);
    var b := Analyze(text, vip, sentimentLabel, emotions).value;
    PriorityInRange(b.sentiment, b.emotion, b.urgency, vip);
  }

  /** The worked message from a VIP sender, classified "negative" and with the
      example emotion entries, scores 0.96 before rounding: 96, High. */
  lemma AnalyzeExample()
    ensures Analyze(ExampleText, true, "negative",
                    [EmotionEntry("anger", 0.6), EmotionEntry("fear", 0.5),
                     EmotionEntry("sadness", 0.1), EmotionEntry("joy", 0.2)])
            == Some(Breakdown(1.0, 1.0, 0.4, true, 96, High))
  {
    UrgencyExample();
    EmotionExample();
    assert SentimentScore("negative") == 1.0;
    ExampleNotBlank(ExampleText);
    assert RawScore(1.0, 1.0, 0.4, true) == 0.96;
    Rounding.RoundHalfEvenOfInt(96);
  }

  lemma ExampleNotBlank(text: string)
    requires text == ExampleText
    ensures !IsBlank(text)
  {
    assert text[0] == 'U';
  }
}
