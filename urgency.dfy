/** The urgency lexicon scorer: the fraction of a fixed list of urgent phrases
    that occur, as substrings, in the lower-cased email text. */
module Urgency {
  import opened Text

  /** The urgency lexicon, in the source's order. */
  const UrgencyWords: seq<string> := [
    "urgent", "asap", "immediately", "right away",
    "as soon as possible", "can't access", "refund", "problem", "crash", "not working"
  ]

  /** No phrase is listed twice. */
  predicate Distinct(lexicon: seq<string>) {
    forall i, j :: 0 <= i < j < |lexicon| ==> lexicon[i] != lexicon[j]
  }

  lemma UrgencyWordsWellFormed()
    ensures |UrgencyWords| == 10
    ensures Distinct(UrgencyWords)
    ensures forall w :: w in UrgencyWords ==> IsLowercase(w)
  {
  }

  /** The value of the generator `sum(word in t for word in lexicon)`: each
      phrase adds 1 when it occurs in `t` and 0 otherwise. */
  function FoundCount(lexicon: seq<string>, t: string): (n: nat)
    ensures n <= |lexicon|
  {
    if |lexicon| == 0 then 0
    else (if Contains(t, lexicon[0]) then 1 else 0) + FoundCount(lexicon[1..], t)
  }

  /** The phrases of the lexicon that occur in `t`. */
  ghost function FoundPhrases(lexicon: seq<string>, t: string): set<string> {
    set w | w in lexicon && Contains(t, w)
  }

  /** `get_urgency_score(text)`: the count divided by the lexicon size, capped at 1.0. */
  function UrgencyScore(text: string): (r: real)
    ensures 0.0 <= r <= 1.0
    ensures r * 10.0 == FoundCount(UrgencyWords, Lower(text)) as real
  {
    var fraction := FoundCount(UrgencyWords, Lower(text)) as real / |UrgencyWords| as real;
    if fraction <= 1.0 then fraction else 1.0
  }

  /** Over a lexicon without repeats, the count is the number of distinct phrases
      found: a phrase contributes at most 1 however often it occurs in the text. */
  lemma {:induction false} FoundCountIsFoundPhrases(lexicon: seq<string>, t: string)
    requires Distinct(lexicon)
    ensures FoundCount(lexicon, t) == |FoundPhrases(lexicon, t)|
  {
    if |lexicon| == 0 {
      assert FoundPhrases(lexicon, t) == {};
    } else {
      var rest := lexicon[1..];
      assert Distinct(rest) by {
        forall i, j | 0 <= i < j < |rest| ensures rest[i] != rest[j] {
          assert rest[i] == lexicon[i + 1] && rest[j] == lexicon[j + 1];
        }
      }
      FoundCountIsFoundPhrases(rest, t);
      assert lexicon[0] !in rest by {
        forall k | 0 <= k < |rest| ensures rest[k] != lexicon[0] {
          assert rest[k] == lexicon[k + 1];
        }
      }
      assert lexicon == [lexicon[0]] + rest;
      if Contains(t, lexicon[0]) {
        assert FoundPhrases(lexicon, t) == {lexicon[0]} + FoundPhrases(rest, t);
      } else {
        assert FoundPhrases(lexicon, t) == FoundPhrases(rest, t);
      }
    }
  }

  /** The urgency score is the number of lexicon phrases present, over 10. */
  lemma UrgencyScoreCountsPhrases(text: string)
    ensures UrgencyScore(text) == |FoundPhrases(UrgencyWords, Lower(text))| as real / 10.0
  {
    UrgencyWordsWellFormed();
    FoundCountIsFoundPhrases(UrgencyWords, Lower(text));
  }

  /** Membership in a non-empty lexicon: its first phrase or one of the rest. */
  lemma InLexicon(lexicon: seq<string>)
    requires |lexicon| > 0
    ensures forall w :: w in lexicon <==> w == lexicon[0] || w in lexicon[1..]
  {
    assert lexicon == [lexicon[0]] + lexicon[1..];
  }

  /** The count is zero exactly when no phrase occurs in the text. */
  lemma {:induction false} FoundCountZero(lexicon: seq<string>, t: string)
    ensures FoundCount(lexicon, t) == 0 <==> forall w :: w in lexicon ==> !Contains(t, w)
  {
    if |lexicon| > 0 {
      FoundCountZero(lexicon[1..], t);
      InLexicon(lexicon);
      assert FoundCount(lexicon, t) == (if Contains(t, lexicon[0]) then 1 else 0) + FoundCount(lexicon[1..], t);
      if forall w :: w in lexicon ==> !Contains(t, w) {
        assert !Contains(t, lexicon[0]);
      }
    }
  }

  /** The count is the full lexicon size exactly when every phrase occurs. */
  lemma {:induction false} FoundCountFull(lexicon: seq<string>, t: string)
    ensures FoundCount(lexicon, t) == |lexicon| <==> forall w :: w in lexicon ==> Contains(t, w)
  {
    if |lexicon| > 0 {
      FoundCountFull(lexicon[1..], t);
      InLexicon(lexicon);
      assert FoundCount(lexicon, t) == (if Contains(t, lexicon[0]) then 1 else 0) + FoundCount(lexicon[1..], t);
      if forall w :: w in lexicon ==> Contains(t, w) {
        assert Contains(t, lexicon[0]);
      }
    }
  }

  /** Text containing no phrase scores 0, and only such text does. */
  lemma UrgencyZeroIff(text: string)
    ensures UrgencyScore(text) == 0.0 <==> forall w :: w in UrgencyWords ==> !Contains(Lower(text), w)
  {
    FoundCountZero(UrgencyWords, Lower(text));
  }

  /** Text containing every phrase scores 1, and only such text does. */
  lemma UrgencyOneIff(text: string)
    ensures UrgencyScore(text) == 1.0 <==> forall w :: w in UrgencyWords ==> Contains(Lower(text), w)
  {
    FoundCountFull(UrgencyWords, Lower(text));
  }

  /** A text whose phrases include all of another's scores at least as high. */
  lemma {:induction false} FoundCountMonotone(lexicon: seq<string>, t1: string, t2: string)
    requires forall w :: w in lexicon && Contains(t1, w) ==> Contains(t2, w)
    ensures FoundCount(lexicon, t1) <= FoundCount(lexicon, t2)
  {
    if |lexicon| > 0 {
      assert lexicon[0] in lexicon;
      assert forall w :: w in lexicon[1..] ==> w in lexicon;
      FoundCountMonotone(lexicon[1..], t1, t2);
    }
  }

  lemma UrgencyMonotone(text1: string, text2: string)
    requires forall w :: w in UrgencyWords && Contains(Lower(text1), w) ==> Contains(Lower(text2), w)
    ensures UrgencyScore(text1) <= UrgencyScore(text2)
  {
    FoundCountMonotone(UrgencyWords, Lower(text1), Lower(text2));
  }

  /** Matching ignores case: texts that agree after lower-casing score alike, and
      in particular a text scores as its own lower-cased form does. */
  lemma UrgencyCaseInsensitive(text1: string, text2: string)
    requires Lower(text1) == Lower(text2)
    ensures UrgencyScore(text1) == UrgencyScore(text2)
    ensures UrgencyScore(Lower(text1)) == UrgencyScore(text1)
  {
    LowerIdempotent(text1);
  }

  lemma ContainsMiddle(a: string, p: string, b: string)
    ensures Contains(a + p + b, p)
  {
    assert (a + p + b)[|a|..|a| + |p|] == p;
    assert OccursAt(a + p + b, p, |a|);
    ContainsIff(a + p + b, p);
  }

  /** The worked example message, built from short pieces so that the verifier
      can index into it. */
  const ExampleText := "URGENT" + " - " + "refund" + " please, " + "can't access" + " my account, " + "ASAP" + "!!"
  const ExampleLow := "urgent" + " - " + "refund" + " please, " + "can't access" + " my account, " + "asap" + "!!"

  lemma LowerEight(a: string, b: string, c: string, d: string,
                   e: string, f: string, g: string, h: string)
    ensures Lower(a + b + c + d + e + f + g + h)
            == Lower(a) + Lower(b) + Lower(c) + Lower(d) + Lower(e) + Lower(f) + Lower(g) + Lower(h)
  {
    LowerAppend(a + b + c + d + e + f + g, h);
    LowerAppend(a + b + c + d + e + f, g);
    LowerAppend(a + b + c + d + e, f);
    LowerAppend(a + b + c + d, e);
    LowerAppend(a + b + c, d);
    LowerAppend(a + b, c);
    LowerAppend(a, b);
  }

  lemma ExamplePiecesLower()
    ensures Lower("URGENT") == "urgent" && Lower("ASAP") == "asap"
    ensures Lower(" - ") == " - " && Lower("refund") == "refund" && Lower(" please, ") == " please, "
    ensures Lower("can't access") == "can't access" && Lower(" my account, ") == " my account, "
    ensures Lower("!!") == "!!"
  {
    assert IsLowercase(" - ") && IsLowercase("refund") && IsLowercase(" please, ");
    assert IsLowercase("can't access") && IsLowercase(" my account, ") && IsLowercase("!!");
  }

  lemma ExampleLower()
    ensures Lower(ExampleText) == ExampleLow
  {
    LowerEight("URGENT", " - ", "refund", " please, ", "can't access", " my account, ", "ASAP", "!!");
    ExamplePiecesLower();
  }

  /** The examples below take the message as a parameter, so that the verifier
      reasons about `Contains` by the lemmas rather than by unfolding it on literals. */
  lemma ExampleFound(low: string)
    requires low == ExampleLow
    ensures Contains(low, "urgent") && Contains(low, "refund")
    ensures Contains(low, "can't access") && Contains(low, "asap")
  {
    ExampleFoundFirst(low);
    ExampleFoundLast(low);
  }

  lemma ExampleFoundFirst(low: string)
    requires low == ExampleLow
    ensures Contains(low, "urgent") && Contains(low, "refund")
  {
    var a1, r1 := "", " - " + "refund" + " please, " + "can't access" + " my account, " + "asap" + "!!";
    assert low == a1 + "urgent" + r1;
    ContainsMiddle(a1, "urgent", r1);
    var a2, r2 := "urgent" + " - ", " please, " + "can't access" + " my account, " + "asap" + "!!";
    assert low == a2 + "refund" + r2;
    ContainsMiddle(a2, "refund", r2);
  }

  lemma ExampleFoundLast(low: string)
    requires low == ExampleLow
    ensures Contains(low, "can't access") && Contains(low, "asap")
  {
    var a3, r3 := "urgent" + " - " + "refund" + " please, ", " my account, " + "asap" + "!!";
    assert low == a3 + "can't access" + r3;
    ContainsMiddle(a3, "can't access", r3);
    var a4, r4 := "urgent" + " - " + "refund" + " please, " + "can't access" + " my account, ", "!!";
    assert low == a4 + "asap" + r4;
    ContainsMiddle(a4, "asap", r4);
  }

  /** Letters the lower-cased message does not contain. */
  lemma ExampleLacks(low: string, c: char)
    requires low == ExampleLow
    requires c == 'i' || c == 'b' || c == 'h'
    ensures c !in low
  {
    assert c !in "urgent" && c !in " - " && c !in "refund" && c !in " please, ";
    assert c !in "can't access" && c !in " my account, " && c !in "asap" && c !in "!!";
  }

  lemma ExampleNotFound(low: string)
    requires low == ExampleLow
    ensures !Contains(low, "immediately") && !Contains(low, "right away")
    ensures !Contains(low, "as soon as possible") && !Contains(low, "problem")
    ensures !Contains(low, "crash") && !Contains(low, "not working")
  {
    ExampleLacks(low, 'i');
    ExampleLacks(low, 'b');
    ExampleLacks(low, 'h');
    MissingCharNotContained(low, "immediately", 'i');
    MissingCharNotContained(low, "right away", 'i');
    MissingCharNotContained(low, "as soon as possible", 'i');
    MissingCharNotContained(low, "problem", 'b');
    MissingCharNotContained(low, "crash", 'h');
    MissingCharNotContained(low, "not working", 'i');
  }

  lemma ExampleScore(text: string)
    requires text == ExampleText
    ensures UrgencyScore(text) == 0.4
  {
    ExampleLower();
    var low := Lower(text);
    ExampleFound(low);
    ExampleNotFound(low);
    var w := UrgencyWords;
    assert FoundCount(w[10..], low) == 0;
    assert FoundCount(w[9..], low) == 0 by { assert w[9..][1..] == w[10..]; }
    assert FoundCount(w[8..], low) == 0 by { assert w[8..][1..] == w[9..]; }
    assert FoundCount(w[7..], low) == 0 by { assert w[7..][1..] == w[8..]; }
    assert FoundCount(w[6..], low) == 1 by { assert w[6..][1..] == w[7..]; }
    assert FoundCount(w[5..], low) == 2 by { assert w[5..][1..] == w[6..]; }
    assert FoundCount(w[4..], low) == 2 by { assert w[4..][1..] == w[5..]; }
    assert FoundCount(w[3..], low) == 2 by { assert w[3..][1..] == w[4..]; }
    assert FoundCount(w[2..], low) == 2 by { assert w[2..][1..] == w[3..]; }
    assert FoundCount(w[1..], low) == 3 by { assert w[1..][1..] == w[2..]; }
    assert FoundCount(w, low) == 4;
  }

  /** The worked example "URGENT - refund please, can't access my account, ASAP!!":
      four phrases ("urgent", "refund", "can't access", "asap") occur in it and the
      other six do not, so it scores 0.4. */
  lemma UrgencyExample()
    ensures UrgencyScore(ExampleText) == 0.4
  {
    ExampleScore(ExampleText);
  }
}
