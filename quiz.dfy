/**
 * The two-question quiz grader of exercise3: each answer is trimmed and
 * lower-cased, compared with a small set of accepted answers, and worth 10
 * points; the total picks one of three feedback tiers and is shown as
 * "<score> / 20 points".
 */
module Quiz {

  /**
   * The code points the JavaScript `trim` removes from both ends: the
   * WhiteSpace characters (tab, vertical tab, form feed, space, no-break
   * space, byte order mark and the space separators) and the line
   * terminators (line feed, carriage return, line and paragraph separator).
   */
  predicate IsWhitespace(c: char)
  {
    || c == '\t' || c == '\U{000B}' || c == '\U{000C}' || c == ' '
    || c == '\U{00A0}' || c == '\U{FEFF}'
    || c == '\U{1680}' || ('\U{2000}' <= c <= '\U{200A}')
    || c == '\U{202F}' || c == '\U{205F}' || c == '\U{3000}'
    || c == '\n' || c == '\r' || c == '\U{2028}' || c == '\U{2029}'
  }

  predicate AllWhitespace(s: string)
  {
    forall i :: 0 <= i < |s| ==> IsWhitespace(s[i])
  }

  /** Neither end of `s` is whitespace. */
  predicate IsTrimmed(s: string)
  {
    s == [] || (!IsWhitespace(s[0]) && !IsWhitespace(s[|s| - 1]))
  }

  /** How many whitespace characters `s` starts with. */
  function LeadingWhitespace(s: string): (n: nat)
    ensures n <= |s|
    ensures forall i :: 0 <= i < n ==> IsWhitespace(s[i])
    ensures n < |s| ==> !IsWhitespace(s[n])
  {
    if s == [] || !IsWhitespace(s[0]) then 0 else 1 + LeadingWhitespace(s[1..])
  }

  /** How many whitespace characters `s` ends with. */
  function TrailingWhitespace(s: string): (n: nat)
    ensures n <= |s|
    ensures forall i :: |s| - n <= i < |s| ==> IsWhitespace(s[i])
    ensures n < |s| ==> !IsWhitespace(s[|s| - 1 - n])
  {
    if s == [] || !IsWhitespace(s[|s| - 1]) then 0 else 1 + TrailingWhitespace(s[..|s| - 1])
  }

  /** `s` without its leading whitespace. */
  function TrimStart(s: string): string
  {
    s[LeadingWhitespace(s)..]
  }

  /** `s` without its trailing whitespace. */
  function TrimEnd(s: string): string
  {
    s[..|s| - TrailingWhitespace(s)]
  }

  /** JavaScript's `String.prototype.trim`. */
  function Trim(s: string): (r: string)
    ensures |r| <= |s|
    ensures IsTrimmed(r)
  {
    TrimEnd(TrimStart(s))
  }

  /** The leading whitespace `LeadingWhitespace` counts is all whitespace. */
  lemma LeadIsWhitespace(s: string)
    ensures AllWhitespace(s[..LeadingWhitespace(s)])
  {
    var n := LeadingWhitespace(s);
    forall k | 0 <= k < n ensures IsWhitespace(s[..n][k]) {
      assert s[..n][k] == s[k];
    }
  }

  /** The trailing whitespace `TrailingWhitespace` counts in `s[i..]` is all whitespace. */
  lemma TrailIsWhitespace(s: string, i: nat)
    requires i <= |s|
    ensures var t := s[i..]; AllWhitespace(s[i + |t| - TrailingWhitespace(t)..])
  {
    var t := s[i..];
    var j := i + |t| - TrailingWhitespace(t);
    forall k | 0 <= k < |s| - j ensures IsWhitespace(s[j..][k]) {
      assert s[j..][k] == t[j - i + k];
    }
  }

  /** `Trim` keeps the slice between the leading and the trailing whitespace. */
  lemma TrimIsSlice(s: string)
    ensures var i, t := LeadingWhitespace(s), s[LeadingWhitespace(s)..];
      Trim(s) == s[i..i + |t| - TrailingWhitespace(t)]
  {
    var i := LeadingWhitespace(s);
    var t := s[i..];
    var n := TrailingWhitespace(t);
    assert TrimStart(s) == t;
    assert t[..|t| - n] == s[i..i + |t| - n];
  }

  lemma SplitThree(s: string, i: nat, j: nat)
    requires i <= j <= |s|
    ensures s == s[..i] + s[i..j] + s[j..]
  {
  }

  /** A string is its leading whitespace, its trim and its trailing whitespace, in that order. */
  lemma TrimSplit(s: string)
    ensures var i, w := LeadingWhitespace(s), Trim(s);
      && i + |w| <= |s|
      && s == s[..i] + w + s[i + |w|..]
      && AllWhitespace(s[..i]) && AllWhitespace(s[i + |w|..])
  {
    var i := LeadingWhitespace(s);
    var t := s[i..];
    var j := i + |t| - TrailingWhitespace(t);
    TrimIsSlice(s);
    LeadIsWhitespace(s);
    TrailIsWhitespace(s, i);
    SplitThree(s, i, j);
  }

  predicate IsUpperAscii(c: char) { 'A' <= c <= 'Z' }

  /** ASCII part of `toLowerCase`: A-Z become a-z, every other character is kept. */
  function LowerChar(c: char): (r: char)
    ensures !IsUpperAscii(r)
    ensures r == c <==> !IsUpperAscii(c)
    ensures IsUpperAscii(c) ==> r as int == c as int + ('a' as int - 'A' as int)
  {
    if 'A' <= c <= 'Z' then (c as int + 32) as char else c
  }

  /** `toLowerCase` on ASCII letters: no upper-case letter is left, and nothing else changes. */
  function ToLower(s: string): (r: string)
    ensures |r| == |s|
    ensures forall i :: 0 <= i < |r| ==> !IsUpperAscii(r[i])
    ensures forall i :: 0 <= i < |s| ==> (r[i] == s[i] <==> !IsUpperAscii(s[i]))
    ensures forall i :: 0 <= i < |s| && IsUpperAscii(s[i]) ==>
      r[i] as int == s[i] as int + ('a' as int - 'A' as int)
  {
    seq(|s|, i requires 0 <= i < |s| => LowerChar(s[i]))
  }

  /** The form an answer is compared in: trimmed, then lower-cased. */
  function Normalize(answer: string): (r: string)
    ensures |r| <= |answer|
    ensures IsTrimmed(r)
    ensures forall i :: 0 <= i < |r| ==> !IsUpperAscii(r[i])
  {
    var w := Trim(answer);
    ToLowerTrimmed(w);
    ToLower(w)
  }

  /** Accepted answers to question 1 ("which language ...") and question 2 (what CSS stands for). */
  const Q1Answers: set<string> := {"javascript", "js"}
  const Q2Answers: set<string> := {"cascading style sheets", "cascading stylesheets", "cascading style sheet"}

  /** Points for one question. */
  const PointsPerQuestion: nat := 10
  const MaxScore: nat := 20

  predicate Q1Correct(answer: string) { Normalize(answer) in Q1Answers }
  predicate Q2Correct(answer: string) { Normalize(answer) in Q2Answers }

  /** `checkAnswers`' score: 10 for each question answered acceptably. */
  function Score(answer1: string, answer2: string): (score: nat)
    ensures score == 0 || score == 10 || score == 20
    ensures score == 20 <==> Q1Correct(answer1) && Q2Correct(answer2)
    ensures score == 10 <==> Q1Correct(answer1) != Q2Correct(answer2)
    ensures score == 0 <==> !Q1Correct(answer1) && !Q2Correct(answer2)
  {
    var score := 0;
    var score := if Q1Correct(answer1) then score + PointsPerQuestion else score;
    var score := if Q2Correct(answer2) then score + PointsPerQuestion else score;
    score
  }

  datatype Tier = Perfect | GoodJob | KeepStudying

  /** `displayResults`' choice of feedback for a score. */
  function TierOf(score: int): (t: Tier)
    ensures t == Perfect <==> score == MaxScore
    ensures t == GoodJob <==> PointsPerQuestion <= score && score != MaxScore
    ensures t == KeepStudying <==> score < PointsPerQuestion
  {
    if score == 20 then Perfect
    else if score >= 10 then GoodJob
    else KeepStudying
  }

  /** The feedback line of each tier. */
  function FeedbackText(t: Tier): string
  {
    match t
    case Perfect => "Perfect score! You nailed it! \U{1F389}"
    case GoodJob => "Good job! You got one right."
    case KeepStudying => "Keep studying! Try again."
  }

  /** The emoji shown with each tier. */
  function EmojiText(t: Tier): string
  {
    match t
    case Perfect => "\U{1F3C6}"
    case GoodJob => "\U{1F44D}"
    case KeepStudying => "\U{1F4DA}"
  }

  predicate IsDigit(c: char) { '0' <= c <= '9' }

  /** The number a string of decimal digits denotes, most significant digit first. */
  function DecimalValue(s: string): nat
    requires forall i :: 0 <= i < |s| ==> IsDigit(s[i])
  {
    if s == [] then 0
    else
      var d := s[|s| - 1];
      assert IsDigit(d);
      DecimalValue(s[..|s| - 1]) * 10 + (d as int - '0' as int)
  }

  /**
   * JavaScript's decimal rendering of a non-negative integer, as it writes
   * every integer below 10^21 (from there on it switches to exponent
   * notation, far above any score).
   */
  function NatToDecimal(n: nat): (s: string)
    ensures s != []
    ensures forall i :: 0 <= i < |s| ==> IsDigit(s[i])
    ensures |s| > 1 ==> s[0] != '0'
    ensures DecimalValue(s) == n
  {
    var last := ('0' as int + n % 10) as char;
    if n < 10 then [last]
    else
      var init := NatToDecimal(n / 10);
      var s := init + [last];
      assert s[..|s| - 1] == init;
      s
  }

  const ScoreSuffix: string := " / 20 points"

  /** The text `displayResults` puts in the score display. */
  function ScoreText(score: nat): (text: string)
    ensures |text| > |ScoreSuffix| && text[|text| - |ScoreSuffix|..] == ScoreSuffix
    ensures var digits := text[..|text| - |ScoreSuffix|];
      && (forall i :: 0 <= i < |digits| ==> IsDigit(digits[i]))
      && (|digits| > 1 ==> digits[0] != '0')
      && DecimalValue(digits) == score
  {
    var digits := NatToDecimal(score);
    var text := digits + ScoreSuffix;
    assert text[..|text| - |ScoreSuffix|] == digits;
    text
  }

  /** What the result panel shows once the answers are checked. */
  datatype Results = Results(score: nat, scoreText: string, tier: Tier, feedback: string, emoji: string)

  /** `displayResults`: the score text and the feedback of the score's tier. */
  function DisplayResults(score: nat): (r: Results)
    ensures r.score == score && r.scoreText == ScoreText(score)
    ensures r.tier == Perfect <==> score == MaxScore
    ensures r.tier == GoodJob <==> PointsPerQuestion <= score != MaxScore
    ensures r.tier == KeepStudying <==> score < PointsPerQuestion
    ensures r.feedback == FeedbackText(r.tier) && r.emoji == EmojiText(r.tier)
  {
    var t := TierOf(score);
    Results(score, ScoreText(score), t, FeedbackText(t), EmojiText(t))
  }

  /** A two-digit number is written as its tens digit followed by its units digit. */
  lemma TwoDigitDecimal(n: nat)
    requires 10 <= n < 100
    ensures NatToDecimal(n) == [('0' as int + n / 10) as char, ('0' as int + n % 10) as char]
  {
    assert NatToDecimal(n / 10) == [('0' as int + n / 10) as char];
  }

  /** The three score texts `checkAnswers` can produce. */
  lemma ScoreTextZero()
    ensures ScoreText(0) == "0 / 20 points"
  {
    assert NatToDecimal(0) == "0";
  }

  lemma ScoreTextTen()
    ensures ScoreText(10) == "10 / 20 points"
  {
    var digits := NatToDecimal(10);
    assert digits == "10" by { TwoDigitDecimal(10); }
    assert digits + ScoreSuffix == "10 / 20 points";
  }

  lemma ScoreTextTwenty()
    ensures ScoreText(20) == "20 / 20 points"
  {
    var digits := NatToDecimal(20);
    assert digits == "20" by { TwoDigitDecimal(20); }
    assert digits + ScoreSuffix == "20 / 20 points";
  }

  /** `checkAnswers` followed by `displayResults`. */
  function CheckAnswers(answer1: string, answer2: string): (r: Results)
    ensures r.tier == Perfect <==> Q1Correct(answer1) && Q2Correct(answer2)
    ensures r.tier == GoodJob <==> Q1Correct(answer1) != Q2Correct(answer2)
    ensures r.tier == KeepStudying <==> !Q1Correct(answer1) && !Q2Correct(answer2)
    ensures r.score == Score(answer1, answer2)
    ensures r.scoreText == "20 / 20 points" <==> Q1Correct(answer1) && Q2Correct(answer2)
    ensures r.scoreText == "10 / 20 points" <==> Q1Correct(answer1) != Q2Correct(answer2)
    ensures r.scoreText == "0 / 20 points" <==> !Q1Correct(answer1) && !Q2Correct(answer2)
    ensures r.feedback == FeedbackText(r.tier) && r.emoji == EmojiText(r.tier)
  {
    var score := Score(answer1, answer2);
    ScoreTextZero();
    ScoreTextTen();
    ScoreTextTwenty();
    DisplayResults(score)
  }

  /** The feedback line and the emoji each tell the tier apart from the other two. */
  lemma FeedbackIdentifiesTier(t1: Tier, t2: Tier)
    ensures FeedbackText(t1) == FeedbackText(t2) <==> t1 == t2
    ensures EmojiText(t1) == EmojiText(t2) <==> t1 == t2
  {
  }

  // ---------------------------------------------------------------------
  // Trimming

  /** Whitespace put in front of a string adds to its leading whitespace. */
  lemma {:induction false} LeadingSkips(p: string, s: string)
    requires AllWhitespace(p)
    ensures LeadingWhitespace(p + s) == |p| + LeadingWhitespace(s)
    decreases |p|
  {
    if p == [] {
      assert p + s == s;
    } else {
      var ps := p + s;
      assert ps[0] == p[0];
      assert ps[1..] == p[1..] + s;
      LeadingSkips(p[1..], s);
    }
  }

  /** Whitespace put after a string adds to its trailing whitespace. */
  lemma {:induction false} TrailingSkips(s: string, q: string)
    requires AllWhitespace(q)
    ensures TrailingWhitespace(s + q) == |q| + TrailingWhitespace(s)
    decreases |q|
  {
    if q == [] {
      assert s + q == s;
    } else {
      var sq := s + q;
      var q' := q[..|q| - 1];
      assert sq[|sq| - 1] == q[|q| - 1];
      assert sq[..|sq| - 1] == s + q';
      TrailingSkips(s, q');
    }
  }

  /**
   * `Trim` finds the one trimmed core of a string: whatever whitespace
   * surrounds a trimmed `w`, trimming gives back `w`.
   */
  lemma TrimUnique(p: string, w: string, q: string)
    requires AllWhitespace(p) && AllWhitespace(q) && IsTrimmed(w)
    ensures Trim(p + w + q) == w
  {
    var s := p + w + q;
    assert s == p + (w + q);
    LeadingSkips(p, w + q);
    if w == [] {
      assert w + q == q + [];
      LeadingSkips(q, []);
      assert TrimStart(s) == [];
    } else {
      assert (w + q)[0] == w[0];
      assert TrimStart(s) == w + q;
      TrailingSkips(w, q);
      assert (w + q)[..|w|] == w;
    }
  }

  /** A string is its own trim exactly when neither end is whitespace. */
  lemma TrimFixed(s: string)
    ensures Trim(s) == s <==> IsTrimmed(s)
  {
    if IsTrimmed(s) {
      TrimUnique([], s, []);
      assert [] + s + [] == s;
    }
  }

  /** Trimming twice is trimming once. */
  lemma TrimIdempotent(s: string)
    ensures Trim(Trim(s)) == Trim(s)
  {
    TrimFixed(Trim(s));
  }

  // ---------------------------------------------------------------------
  // Lower-casing

  lemma ToLowerAppend(a: string, b: string)
    ensures ToLower(a + b) == ToLower(a) + ToLower(b)
  {
    assert forall i :: 0 <= i < |a + b| ==> ToLower(a + b)[i] == (ToLower(a) + ToLower(b))[i];
  }

  /** Lower-casing leaves whitespace alone and never makes a character whitespace. */
  lemma LowerKeepsWhitespace(c: char)
    ensures IsWhitespace(LowerChar(c)) <==> IsWhitespace(c)
  {
  }

  /** Lower-casing a lower-cased string changes nothing. */
  lemma ToLowerIdempotent(s: string)
    ensures ToLower(ToLower(s)) == ToLower(s)
  {
  }

  lemma ToLowerAllWhitespace(s: string)
    ensures AllWhitespace(ToLower(s)) <==> AllWhitespace(s)
  {
    forall i | 0 <= i < |s| ensures IsWhitespace(ToLower(s)[i]) <==> IsWhitespace(s[i]) {
      LowerKeepsWhitespace(s[i]);
    }
  }

  lemma ToLowerTrimmed(s: string)
    ensures IsTrimmed(ToLower(s)) <==> IsTrimmed(s)
  {
    if s != [] {
      LowerKeepsWhitespace(s[0]);
      LowerKeepsWhitespace(s[|s| - 1]);
    }
  }

  /** Trimming and lower-casing commute, so the order `checkAnswers` uses does not matter. */
  lemma TrimToLower(s: string)
    ensures Trim(ToLower(s)) == ToLower(Trim(s))
  {
    var w, i := Trim(s), LeadingWhitespace(s);
    TrimSplit(s);
    var p, q := s[..i], s[i + |w|..];
    assert s == p + w + q;
    ToLowerAppend(p, w);
    ToLowerAppend(p + w, q);
    ToLowerAllWhitespace(p);
    ToLowerAllWhitespace(q);
    ToLowerTrimmed(w);
    TrimUnique(ToLower(p), ToLower(w), ToLower(q));
  }

  // ---------------------------------------------------------------------
  // Grading ignores case and surrounding whitespace

  /** Two answers that differ only in the case of ASCII letters normalise alike. */
  lemma NormalizeIgnoresCase(a: string, b: string)
    requires ToLower(a) == ToLower(b)
    ensures Normalize(a) == Normalize(b)
  {
    TrimToLower(a);
    TrimToLower(b);
  }

  /** Whitespace added around an answer does not change its normal form. */
  lemma NormalizeIgnoresPadding(p: string, a: string, q: string)
    requires AllWhitespace(p) && AllWhitespace(q)
    ensures Normalize(p + a + q) == Normalize(a)
  {
    var w, i := Trim(a), LeadingWhitespace(a);
    TrimSplit(a);
    var p', q' := a[..i], a[i + |w|..];
    assert a == p' + w + q';
    assert p + a + q == (p + p') + w + (q' + q);
    TrimUnique(p + p', w, q' + q);
  }

  /** Normalising is idempotent. */
  lemma NormalizeIdempotent(a: string)
    ensures Normalize(Normalize(a)) == Normalize(a)
  {
    var w := Trim(a);
    ToLowerTrimmed(w);
    TrimFixed(ToLower(w));
    var l := ToLower(w);
    assert ToLower(l) == l;
  }

  /**
   * An answer is credited against a set of trimmed, lower-case answers
   * exactly when it is one of them, in any ASCII case, with any whitespace
   * around it.
   */
  lemma {:induction false} CreditedIff(a: string, accepted: set<string>)
    requires forall x :: x in accepted ==> IsTrimmed(x)
    ensures Normalize(a) in accepted <==>
      exists p, w, q :: AllWhitespace(p) && AllWhitespace(q) && ToLower(w) in accepted && a == p + w + q
  {
    if Normalize(a) in accepted {
      CreditedIsPadded(a, accepted);
    }
    if exists p, w, q :: AllWhitespace(p) && AllWhitespace(q) && ToLower(w) in accepted && a == p + w + q {
      var p, w, q :| AllWhitespace(p) && AllWhitespace(q) && ToLower(w) in accepted && a == p + w + q;
      PaddedIsCredited(p, w, q, accepted);
    }
  }

  /** A credited answer is an accepted one in some case, with whitespace around it. */
  lemma CreditedIsPadded(a: string, accepted: set<string>)
    requires Normalize(a) in accepted
    ensures exists p, w, q :: AllWhitespace(p) && AllWhitespace(q) && ToLower(w) in accepted && a == p + w + q
  {
    var i, w := LeadingWhitespace(a), Trim(a);
    TrimSplit(a);
    var p, q := a[..i], a[i + |w|..];
    assert AllWhitespace(p) && AllWhitespace(q) && ToLower(w) in accepted && a == p + w + q;
  }

  /** An accepted answer in any case, with any whitespace around it, is credited. */
  lemma PaddedIsCredited(p: string, w: string, q: string, accepted: set<string>)
    requires forall x :: x in accepted ==> IsTrimmed(x)
    requires AllWhitespace(p) && AllWhitespace(q) && ToLower(w) in accepted
    ensures Normalize(p + w + q) in accepted
  {
    assert Normalize(w) == ToLower(w) by {
      ToLowerTrimmed(w);
      TrimFixed(w);
    }
    NormalizeIgnoresPadding(p, w, q);
  }

  /** Question 1 earns its points exactly for "javascript" or "js", in any case, padded by any whitespace. */
  lemma Q1CreditIff(a: string)
    ensures Q1Correct(a) <==>
      exists p, w, q :: AllWhitespace(p) && AllWhitespace(q) && ToLower(w) in {"javascript", "js"} && a == p + w + q
  {
    assert IsTrimmed("javascript") && IsTrimmed("js");
    CreditedIff(a, Q1Answers);
  }

  /**
   * Question 2 earns its points exactly for "cascading style sheets",
   * "cascading stylesheets" or "cascading style sheet", in any case, padded
   * by any whitespace.
   */
  lemma Q2CreditIff(a: string)
    ensures Q2Correct(a) <==>
      exists p, w, q :: AllWhitespace(p) && AllWhitespace(q) && a == p + w + q &&
        ToLower(w) in {"cascading style sheets", "cascading stylesheets", "cascading style sheet"}
  {
    CreditedIff(a, Q2Answers);
  }

  /** Answers that differ only in ASCII case and surrounding whitespace earn the same score. */
  lemma ScoreIgnoresCaseAndPadding(a1: string, b1: string, a2: string, b2: string,
                                    p1: string, q1: string, p2: string, q2: string)
    requires ToLower(a1) == ToLower(b1) && ToLower(a2) == ToLower(b2)
    requires AllWhitespace(p1) && AllWhitespace(q1) && AllWhitespace(p2) && AllWhitespace(q2)
    ensures Score(p1 + a1 + q1, p2 + a2 + q2) == Score(b1, b2)
  {
    NormalizeIgnoresPadding(p1, a1, q1);
    NormalizeIgnoresPadding(p2, a2, q2);
    NormalizeIgnoresCase(a1, b1);
    NormalizeIgnoresCase(a2, b2);
  }

  /** Normal forms of the sample answers below, one step at a time. */
  lemma TrimJavaScript()
    ensures Trim(" JavaScript ") == "JavaScript"
  {
    assert " JavaScript " == " " + "JavaScript" + " ";
    TrimUnique(" ", "JavaScript", " ");
  }

  lemma LowerJavaScript()
    ensures ToLower("JavaScript") == "javascript"
  {
    var l := ToLower("JavaScript");
    assert forall i :: 0 <= i < 10 ==> l[i] == "javascript"[i];
  }

  lemma NormalizeJavaScriptPadded()
    ensures Normalize(" JavaScript ") == "javascript"
  {
    TrimJavaScript();
    LowerJavaScript();
  }

  lemma TrimCascading()
    ensures Trim("Cascading Style Sheets") == "Cascading Style Sheets"
  {
    TrimFixed("Cascading Style Sheets");
  }

  lemma LowerCascading()
    ensures ToLower("Cascading Style Sheets") == "cascading style sheets"
  {
    var l := ToLower("Cascading Style Sheets");
    assert forall i :: 0 <= i < 22 ==> l[i] == "cascading style sheets"[i];
  }

  lemma NormalizeCascading()
    ensures Normalize("Cascading Style Sheets") == "cascading style sheets"
  {
    TrimCascading();
    LowerCascading();
  }

  lemma NormalizeJS()
    ensures Normalize("JS") == "js"
  {
    TrimFixed("JS");
  }

  lemma NormalizeCss()
    ensures Normalize("css") == "css"
  {
    TrimFixed("css");
  }

  lemma NormalizeJava()
    ensures Normalize("java") == "java"
  {
    TrimFixed("java");
  }

  /** A padded, capitalised answer to each question: full marks. */
  lemma PerfectExample()
    ensures CheckAnswers(" JavaScript ", "Cascading Style Sheets").tier == Perfect
  {
    NormalizeJavaScriptPadded();
    NormalizeCascading();
  }

  /** An abbreviation is accepted for question 1 but not for question 2. */
  lemma GoodJobExample()
    ensures CheckAnswers("JS", "css").scoreText == "10 / 20 points"
  {
    NormalizeJS();
    NormalizeCss();
  }

  /** A wrong answer and an empty one score nothing. */
  lemma KeepStudyingExample()
    ensures CheckAnswers("java", "").feedback == "Keep studying! Try again."
  {
    NormalizeJava();
  }
}
