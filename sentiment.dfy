/** The sentiment normaliser: the post-processing of the sentiment classifier's
    label. The classifier itself is not modelled; its label is the input. */
module Sentiment {
  import opened Text

  /** The label table: negative sentiment means high priority. */
  const SentimentTable: map<string, real> := map["negative" := 1.0, "neutral" := 0.5, "positive" := 0.0]

  /** The score of a label that is not in the table. */
  const DefaultSentiment: real := 0.5

  /** `table.get(label.lower(), 0.5)`. */
  function SentimentScore(name: string): (r: real)
    ensures r == 0.0 || r == 0.5 || r == 1.0
    ensures Lower(name) !in SentimentTable ==> r == DefaultSentiment
  {
    var key := Lower(name);
    if key in SentimentTable then SentimentTable[key] else DefaultSentiment
  }

  /** Each score singles out its labels, up to case: 1.0 exactly for "negative",
      0.0 exactly for "positive", and 0.5 for everything else ("neutral" included). */
  lemma SentimentIff(name: string)
    ensures SentimentScore(name) == 1.0 <==> Lower(name) == "negative"
    ensures SentimentScore(name) == 0.0 <==> Lower(name) == "positive"
    ensures SentimentScore(name) == 0.5 <==> Lower(name) != "negative" && Lower(name) != "positive"
  {
  }

  /** Labels that agree up to case score alike. */
  lemma SentimentCaseInsensitive(label1: string, label2: string)
    requires Lower(label1) == Lower(label2)
    ensures SentimentScore(label1) == SentimentScore(label2)
    ensures SentimentScore(Lower(label1)) == SentimentScore(label1)
  {
    LowerIdempotent(label1);
  }

  /** The table applies whatever the case of the classifier's label. */
  lemma SentimentExamples()
    ensures SentimentScore("NEGATIVE") == 1.0 && SentimentScore("Negative") == 1.0
    ensures SentimentScore("Neutral") == 0.5 && SentimentScore("POSITIVE") == 0.0
    ensures SentimentScore("") == 0.5 && SentimentScore("LABEL_0") == 0.5
  {
    LowerNegative();
    LowerOthers();
    LowerLabel0();
  }

  lemma LowerNegative()
    ensures Lower("NEGATIVE") == "negative" && Lower("Negative") == "negative"
  {
    assert Lower("NEGATIVE") == "negative";
  }

  lemma LowerOthers()
    ensures Lower("Neutral") == "neutral" && Lower("POSITIVE") == "positive"
  {
    assert Lower("POSITIVE") == "positive";
  }

  lemma LowerLabel0()
    ensures Lower("LABEL_0") == "label_0"
  {
  }
}
