/** Text helpers shared by the scorers: Python's `str.lower()` restricted to
    ASCII letters, Python's substring test `p in t`, and `str.strip()` emptiness. */
module Text {

  predicate IsUpper(c: char) {
    'A' <= c <= 'Z'
  }

  /** Every character of `s` is already in lower case. */
  predicate IsLowercase(s: string) {
    forall i :: 0 <= i < |s| ==> !IsUpper(s[i])
  }

  /** ASCII case folding of one character: 'A'..'Z' move to 'a'..'z'. */
  function LowerChar(c: char): (d: char)
    ensures !IsUpper(d)
    ensures !IsUpper(c) ==> d == c
    ensures IsUpper(c) ==> 'a' <= d <= 'z' && d as int - c as int == 'a' as int - 'A' as int
  {
    if IsUpper(c) then (c as int - 'A' as int + 'a' as int) as char else c
  }

  /** `s.lower()`, character by character: each 'A'..'Z' becomes the matching
      'a'..'z' in place and every other character stays. */
  function Lower(s: string): (r: string)
    ensures |r| == |s|
    ensures IsLowercase(r)
    ensures IsLowercase(s) ==> r == s
  {
    seq(|s|, i requires 0 <= i < |s| => LowerChar(s[i]))
  }

  /** What `Lower` does to each character: 'A'..'Z' become the matching 'a'..'z'
      in place, and every other character stays. */
  lemma LowerCharwise(s: string)
    ensures forall i :: 0 <= i < |s| ==>
              (IsUpper(s[i]) ==> Lower(s)[i] as int == s[i] as int + ('a' as int - 'A' as int)) &&
              (!IsUpper(s[i]) ==> Lower(s)[i] == s[i])
  {
  }

  lemma LowerIdempotent(s: string)
    ensures Lower(Lower(s)) == Lower(s)
  {
  }

  lemma LowerAppend(a: string, b: string)
    ensures Lower(a + b) == Lower(a) + Lower(b)
  {
  }

  /** `p` appears in `t` starting at position `i`. */
  predicate OccursAt(t: string, p: string, i: int) {
    0 <= i && i + |p| <= |t| && t[i..i + |p|] == p
  }

  /** Python's `p in t`: scan `t` from the left for a copy of `p`. */
  function Contains(t: string, p: string): (b: bool)
    ensures b ==> |p| <= |t|
    ensures |p| == 0 ==> b
    ensures t == p ==> b
    decreases |t|
  {
    if |p| > |t| then false
    else if t[..|p|] == p then true
    else Contains(t[1..], p)
  }

  /** The scan agrees with the reference definition: some position of `t` holds `p`. */
  lemma {:induction false} ContainsIff(t: string, p: string)
    ensures Contains(t, p) <==> exists i :: OccursAt(t, p, i)
    decreases |t|
  {
    if |p| > |t| {
    } else if t[..|p|] == p {
      assert OccursAt(t, p, 0);
    } else {
      ContainsIff(t[1..], p);
      if Contains(t[1..], p) {
        var i :| OccursAt(t[1..], p, i);
        assert t[i + 1..i + 1 + |p|] == t[1..][i..i + |p|];
        assert OccursAt(t, p, i + 1);
      } else {
        forall i | OccursAt(t, p, i) ensures false {
          assert i != 0;
          assert t[1..][i - 1..i - 1 + |p|] == t[i..i + |p|];
          assert OccursAt(t[1..], p, i - 1);
        }
      }
    }
  }

  /** A phrase holding a character the text lacks cannot occur in the text. */
  lemma MissingCharNotContained(t: string, p: string, c: char)
    requires c in p && c !in t
    ensures !Contains(t, p)
  {
    ContainsIff(t, p);
  }

  /** The ASCII characters Python's `str.strip()` removes (those for which
      `str.isspace` holds): space, tab, line feed, vertical tab, form feed,
      carriage return, and the separators U+001C to U+001F. */
  predicate IsSpace(c: char) {
    c == ' ' || c == '\t' || c == '\n' || c == '\r' || c == '\U{B}' || c == '\U{C}'
    || ('\U{1C}' <= c <= '\U{1F}')
  }

  /** `s.lstrip()`: drop leading whitespace. */
  function StripLeft(s: string): (r: string)
    ensures |r| <= |s| && r == s[|s| - |r|..]
    ensures forall i :: 0 <= i < |s| - |r| ==> IsSpace(s[i])
    ensures |r| > 0 ==> !IsSpace(r[0])
  {
    if |s| > 0 && IsSpace(s[0]) then StripLeft(s[1..]) else s
  }

  /** `s.rstrip()`: drop trailing whitespace. */
  function StripRight(s: string): (r: string)
    ensures |r| <= |s| && r == s[..|r|]
    ensures forall i :: |r| <= i < |s| ==> IsSpace(s[i])
    ensures |r| > 0 ==> !IsSpace(r[|r| - 1])
  {
    if |s| > 0 && IsSpace(s[|s| - 1]) then StripRight(s[..|s| - 1]) else s
  }

  /** `s.strip()`. */
  function Strip(s: string): string {
    StripRight(StripLeft(s))
  }

  /** `s.strip()` is the empty string (falsy in Python) exactly when every
      character of `s` is whitespace. */
  predicate IsBlank(s: string): (b: bool)
    ensures b <==> forall i :: 0 <= i < |s| ==> IsSpace(s[i])
  {
    var l := StripLeft(s);
    assert |l| > 0 ==> l[0] == s[|s| - |l|];
    assert forall i :: |s| - |l| <= i < |s| ==> s[i] == l[i - (|s| - |l|)];
    Strip(s) == ""
  }
}
