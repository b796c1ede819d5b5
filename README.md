# Email priority scoring, modelled in Dafny

This project models the scoring core of the Smart Email Priority Analyzer. That
is a small page that gives a customer email a priority score from 0 to 100 and
labels it High, Medium or Low. The score combines three signals:

- **urgency**: the fraction of a fixed list of ten urgent phrases that occur in
  the lower-cased text;
- **sentiment**: the sentiment classifier's label mapped through a fixed table
  (negative 1.0, neutral 0.5, positive 0.0, anything else 0.5);
- **emotion**: the sum of the anger, fear and sadness scores from the emotion
  classifier, capped at 1.0.

The combiner takes 0.4·urgency + 0.3·emotion + 0.3·sentiment, adds 0.2 for a VIP
sender, caps the result at 1.0, multiplies by 100 and rounds. The band is High
above 75, Medium above 40, and Low otherwise.

All of it is pure, so the model is functions and lemmas:

- `text.dfy` (`Text`): ASCII lower-casing, Python's substring test `p in t` (a
  left-to-right scan proved equal to "some position holds `p`"), and the
  blank-text test.
- `urgency.dfy` (`Urgency`): the lexicon and the urgency score.
- `sentiment.dfy` (`Sentiment`): the label table and its default.
- `emotion.dfy` (`Emotion`): the filtered sum and its cap.
- `rounding.dfy` (`Rounding`): Python 3's `round`, which rounds halves to even.
- `priority.dfy` (`Priority`): `compute_priority`.
- `band.dfy` (`Band`): the High/Medium/Low thresholds.
- `pipeline.dfy` (`Pipeline`): one run of the page for one email, with the two
  classifiers' outputs as parameters.

Scores are exact `real`s. The final rounding follows Python 3's built-in
`round`: the nearest integer, with an exact half going to the even neighbour.
So a raw score of 0.405 gives 40 (Low) and 0.755 gives 76 (High).

Two choices follow the code exactly:

- The emotion classifier's output is a list of (label, score) entries, and
  line 27 sums over that list. So if a label appears twice, both scores are
  added. The model keeps a list, not a mapping from label to score.
- Line 36 calls Python's `round`, which rounds halves to even. The model rounds
  halves to even, not up.

The model does not cover which labels the deployed sentiment classifier
actually returns. Any label outside the table scores 0.5 (`SentimentExamples`
shows this for `LABEL_0`).

## Model

| member | source | states |
|---|---|---|
| Text.Lower | email_priority_app.py:31 | `text.lower()` keeps the length, leaves no upper-case ASCII letter, and leaves text that is already lower-case unchanged |
| Text.LowerCharwise | email_priority_app.py:31 | `text.lower()` works character by character: each 'A'..'Z' becomes the matching 'a'..'z' at the same position, and every other character stays as it is |
| Text.Contains | email_priority_app.py:31 | `word in text`: the empty phrase is in every text, a text contains itself, and a phrase longer than the text is never in it (its full meaning is `ContainsIff`) |
| Text.ContainsIff | email_priority_app.py:31 | the substring test `word in text` holds exactly when some position of the text starts a copy of the phrase |
| Urgency.UrgencyWordsWellFormed | email_priority_app.py:16-19 | the lexicon has 10 phrases, none repeated, all already lower-case (so matching the lower-cased text ignores case) |
| Urgency.FoundCount | email_priority_app.py:31 | the count of phrases found never exceeds the lexicon size |
| Urgency.UrgencyScore | email_priority_app.py:31 | the urgency score lies in [0,1] and is exactly (phrases found in the lower-cased text) / 10, so the cap never takes effect |
| Urgency.FoundCountIsFoundPhrases | email_priority_app.py:31 | over a lexicon without repeats, the count is the number of distinct phrases present: each phrase adds at most 1 however often it occurs |
| Urgency.UrgencyScoreCountsPhrases | email_priority_app.py:31 | the urgency score is the size of the set of lexicon phrases present, over 10 |
| Urgency.UrgencyZeroIff | email_priority_app.py:31 | the score is 0 exactly when no phrase occurs in the lower-cased text |
| Urgency.UrgencyOneIff | email_priority_app.py:31 | the score is 1 exactly when every phrase occurs |
| Urgency.UrgencyMonotone | email_priority_app.py:31 | a text that contains every phrase another text contains scores at least as high |
| Urgency.UrgencyCaseInsensitive | email_priority_app.py:31 | texts equal up to case score the same, and a text scores the same as its lower-cased form |
| Urgency.UrgencyExample | email_priority_app.py:16-31 | "URGENT - refund please, can't access my account, ASAP!!" matches exactly 4 phrases and scores 0.4 |
| Sentiment.SentimentScore | email_priority_app.py:22-23 | the sentiment score is always 0.0, 0.5 or 1.0, and a label not in the table (after lower-casing) gets the default 0.5 |
| Sentiment.SentimentIff | email_priority_app.py:23 | 1.0 exactly for "negative" and 0.0 exactly for "positive" (both up to case); 0.5 for every other label, "neutral" included |
| Sentiment.SentimentCaseInsensitive | email_priority_app.py:22-23 | labels equal up to case get the same score |
| Sentiment.SentimentExamples | email_priority_app.py:22-23 | "NEGATIVE" and "Negative" give 1.0, "POSITIVE" 0.0, "Neutral", "" and "LABEL_0" 0.5 |
| Emotion.SelectedSum | email_priority_app.py:27 | the generator sum is non-negative when every score is, and 0 when no entry is anger, fear or sadness (its full meaning is `SelectedSumIsTotalOfSelected`) |
| Emotion.Selected | email_priority_app.py:27 | an entry appears among the selected entries exactly when it is in the input and its lower-cased label is anger, fear or sadness |
| Emotion.SelectedMultiset | email_priority_app.py:27 | the selection keeps each anger, fear or sadness entry exactly as many times as it occurs in the input, repeats included, and no other entry |
| Emotion.EmotionScore | email_priority_app.py:27-28 | the emotion score is the minimum of the selected sum and 1.0 |
| Emotion.SelectedSumIsTotalOfSelected | email_priority_app.py:27 | the filtered sum equals the plain sum of the scores of the selected entries |
| Emotion.SelectedSumAppend | email_priority_app.py:27 | the filtered sum splits over concatenation of entry lists |
| Emotion.IgnoresOtherEmotions | email_priority_app.py:27 | adding an entry whose label is none of the three leaves the score unchanged |
| Emotion.OrderIrrelevant | email_priority_app.py:27-28 | swapping two blocks of entries leaves the score unchanged |
| Emotion.PermutationInvariant | email_priority_app.py:27-28 | any reordering of the entries (same multiset) leaves the sum and the score unchanged |
| Emotion.NoneSelectedScoresZero | email_priority_app.py:27-28 | a list with none of the three labels scores 0 |
| Emotion.EmotionScoreInUnit | email_priority_app.py:27-28 | with non-negative scores the result lies in [0,1], and it is 1 exactly when the selected scores sum to 1 or more |
| Emotion.EmotionCaseInsensitive | email_priority_app.py:27 | two entries with the same score whose labels are equal after lower-casing count alike at any position of the list, so "Fear", "SADNESS" or "AnGeR" count as their lower-case forms do |
| Emotion.AngerCaseInsensitive | email_priority_app.py:27 | an "ANGER" entry counts exactly as an "anger" entry does |
| Emotion.EmotionExample | email_priority_app.py:27-28 | anger 0.6, fear 0.5, sadness 0.1, joy 0.2 sum to 1.2 and are capped to 1.0 |
| Rounding.RoundHalfEven | email_priority_app.py:36 | `round` returns an integer within 1/2 of its argument, and an even one when the argument is exactly halfway |
| Rounding.RoundHalfEvenUnique | email_priority_app.py:36 | that rule allows only one integer, so it defines `round` completely |
| Rounding.RoundHalfEvenMonotone | email_priority_app.py:36 | rounding never reverses an order |
| Rounding.RoundHalfEvenShift | email_priority_app.py:36 | shifting the argument by an even integer shifts the result by the same amount |
| Rounding.RoundHalfEvenExamples | email_priority_app.py:36 | 0.5 gives 0, 1.5 and 2.5 give 2, 40.5 gives 40, 75.5 gives 76 |
| Priority.RawScore | email_priority_app.py:34-35 | the uncapped `score`: with signals in [0,1] it lies in [0,1] without VIP and in [0.2,1.2] with VIP |
| Priority.ComputePriority | email_priority_app.py:33-36 | the priority is at most 100 and non-negative when the raw score is; it is 100 once the raw score reaches 1.0; below that it is the raw score × 100 rounded half-to-even |
| Priority.PriorityInRange | email_priority_app.py:33-36 | signal scores in [0,1] give a priority in [0,100] |
| Priority.PriorityMonotone | email_priority_app.py:34-36 | the priority does not decrease when urgency, emotion or sentiment rise or vip goes from false to true |
| Priority.VipBonusEffect | email_priority_app.py:34-36 | the VIP flag adds between 0 and 20 points, and exactly 20 while the non-VIP raw score is at most 0.8 |
| Priority.VipCeiling | email_priority_app.py:34-36 | the bonus is added before the cap: all signals at 1.0 with vip give 1.2, which scores 100 |
| Priority.PriorityExamples | email_priority_app.py:33-36 | (sentiment, emotion, urgency) = (0.5,0,0), (1,0,0) and (0.5,0.5,0.5), none VIP, score 15, 30 and 50 |
| Priority.HalfwayScores | email_priority_app.py:35-36 | raw scores 0.405 and 0.755 lie exactly halfway and score 40 and 76, their even neighbours; at 0.405 this puts the email in Low rather than Medium |
| Band.BandOf | email_priority_app.py:61-66 | High exactly when score > 75, Medium exactly when 40 < score ≤ 75, Low exactly when score ≤ 40 |
| Band.BandMonotone | email_priority_app.py:61-66 | a higher score never gets a lower band |
| Band.BandBoundaries | email_priority_app.py:61-66 | 76 is High, 75 and 41 are Medium, 40 is Low |
| Text.StripLeft | email_priority_app.py:46 | `lstrip` removes only whitespace, from the front, and what remains does not start with whitespace |
| Text.StripRight | email_priority_app.py:46 | `rstrip` removes only whitespace, from the back, and what remains does not end with whitespace |
| Text.IsBlank | email_priority_app.py:46 | `email_text.strip()` is empty exactly when every character of the email is whitespace |
| Pipeline.Analyze | email_priority_app.py:46-50 | a blank email is not scored, and every other one is; the signals shown are the three scorers' results on the text and the classifier outputs, the priority is `compute_priority` of those signals, and the band is the band of that priority |
| Pipeline.AnalyzeInRange | email_priority_app.py:47-50 | with non-negative emotion scores, the three signals lie in [0,1] and the priority in [0,100] |
| Pipeline.AnalyzeExample | email_priority_app.py:46-66 | the example message from a VIP sender, classified "negative", with the example emotions, scores 96, High |

## Left out

- Loading and running the two classifiers (`load_models`, the cached
  resource, and the pipeline calls at lines 7-13, 22 and 26). These are foreign
  machine-learning services. Their outputs are parameters: a label string for
  sentiment, and a list of (label, score) entries for emotion.
- The Streamlit page: the page setup (done twice), the text area, the checkbox,
  the button, and drawing the metric, the breakdown and the band message. Only
  the blank-text guard (line 46) and the threshold chain (lines 61-66) are
  modelled.
- Floating-point arithmetic. The model uses exact reals, so a sum that IEEE-754
  would put a representation error away from a .5 boundary is rounded here by
  the exact rule.
- Full Unicode `str.lower()` and `str.strip()`. Lower-casing folds only ASCII
  `A`-`Z`. Stripping removes only the ASCII whitespace characters (space, tab,
  line feed, vertical tab, form feed, carriage return and U+001C to U+001F), not
  non-ASCII ones such as U+0085 or U+00A0.
- Idempotence of the pipeline (the same inputs give the same output). Every
  member is a total Dafny function with no state, so this holds by construction
  and is not stated as a separate lemma.
