/**
 Matching a spoken transcript against a menu's options (cmd/pbx/dialplan_speech.go),
 over ASCII text: a phrase, then a spoken word or number word, then the closest word.
 */
module SpeechMatch {
  import opened AsciiText
  import opened EditDistance

  datatype Match = Hit(option: string) | Miss

  // ---------------------------------------------------------------------------
  // Text
  // ---------------------------------------------------------------------------

  predicate IsWordChar(c: char) {
    'a' <= c <= 'z' || '0' <= c <= '9'
  }

  /** How transcripts and options are compared: without surrounding space, in lower case. */
  function Normal(s: string): string {
    ToLower(Trim(s))
  }

  ghost predicate OccursAt(text: string, part: string, i: nat) {
    i + |part| <= |text| && text[i..i + |part|] == part
  }

  ghost predicate Contains(text: string, part: string) {
    exists i :: OccursAt(text, part, i)
  }

  method FindSubstring(text: string, part: string) returns (found: bool)
    ensures found <==> Contains(text, part)
  {
    var i := 0;
    while i + |part| <= |text|
      invariant forall k | 0 <= k < i :: !OccursAt(text, part, k)
    {
      if text[i..i + |part|] == part {
        assert OccursAt(text, part, i);
        return true;
      }
      i := i + 1;
    }
    return false;
  }

  /** Length of the run of word characters (or of separators) at the front. */
  function RunLength(s: string, inWord: bool): (n: nat)
    ensures n <= |s|
    ensures forall i | 0 <= i < n :: IsWordChar(s[i]) == inWord
    ensures n < |s| ==> IsWordChar(s[n]) != inWord
  {
    if s == "" || IsWordChar(s[0]) != inWord then 0 else 1 + RunLength(s[1..], inWord)
  }

  /** The words of a lower-cased text: its maximal runs of letters and digits, in order. */
  function Tokenize(s: string): seq<string>
    decreases |s|
  {
    if s == "" then []
    else if IsWordChar(s[0]) then
      var n := RunLength(s, true);
      [s[..n]] + Tokenize(s[n..])
    else Tokenize(s[1..])
  }

  ghost predicate IsMaximalRun(s: string, i: nat, j: nat) {
    && i < j <= |s|
    && (forall k | i <= k < j :: IsWordChar(s[k]))
    && (i == 0 || !IsWordChar(s[i - 1]))
    && (j == |s| || !IsWordChar(s[j]))
  }

  /** The words are exactly the maximal runs of letters and digits. */
  lemma {:induction false} TokensAreMaximalRuns(s: string, w: string)
    ensures w in Tokenize(s) <==> exists i: nat, j: nat :: IsMaximalRun(s, i, j) && s[i..j] == w
    decreases |s|
  {
    if s != "" {
      var n := FirstPiece(s);
      TokensAreMaximalRuns(s[n..], w);
      RunsAfter(s, n, w);
    }
  }

  /** Length of the first piece Tokenize takes off: a whole word, or one separator. */
  function FirstPiece(s: string): (n: nat)
    requires s != ""
    ensures 1 <= n <= |s|
  {
    if IsWordChar(s[0]) then RunLength(s, true) else 1
  }

  /** The runs of `s` are its first run, if it starts with one, and the runs of what follows. */
  lemma RunsAfter(s: string, n: nat, w: string)
    requires s != "" && n == FirstPiece(s)
    ensures (exists i: nat, j: nat :: IsMaximalRun(s, i, j) && s[i..j] == w) <==>
      ((IsWordChar(s[0]) && w == s[..n]) || exists i: nat, j: nat :: IsMaximalRun(s[n..], i, j) && s[n..][i..j] == w)
  {
    if i: nat, j: nat :| IsMaximalRun(s, i, j) && s[i..j] == w {
      RunIsFirstOrLater(s, n, i, j);
    }
    if IsWordChar(s[0]) && w == s[..n] {
      assert IsMaximalRun(s, 0, n);
    }
    if i: nat, j: nat :| IsMaximalRun(s[n..], i, j) && s[n..][i..j] == w {
      RunMovesBack(s, n, i, j);
    }
  }

  lemma SliceOfSuffix(s: string, n: nat, i: nat, j: nat)
    requires n <= |s| && i <= j <= |s| - n
    ensures s[n..][i..j] == s[i + n..j + n]
  {
  }

  lemma RunIsFirstOrLater(s: string, n: nat, i: nat, j: nat)
    requires s != "" && n == FirstPiece(s) && IsMaximalRun(s, i, j)
    ensures (IsWordChar(s[0]) && i == 0 && j == n) ||
      (n <= i && IsMaximalRun(s[n..], i - n, j - n) && s[n..][i - n..j - n] == s[i..j])
  {
    if n <= i {
      SliceOfSuffix(s, n, i - n, j - n);
    }
  }

  lemma RunMovesBack(s: string, n: nat, i: nat, j: nat)
    requires s != "" && n == FirstPiece(s) && IsMaximalRun(s[n..], i, j)
    ensures IsMaximalRun(s, i + n, j + n) && s[i + n..j + n] == s[n..][i..j]
  {
    SliceOfSuffix(s, n, i, j);
    assert forall k | i + n <= k < j + n :: s[k] == s[n..][k - n];
    assert i + n > 0 && s[i + n - 1] == if i == 0 then s[n - 1] else s[n..][i - 1];
    assert IsWordChar(s[n]) == IsWordChar(s[n..][0]);
  }

  // ---------------------------------------------------------------------------
  // Options
  // ---------------------------------------------------------------------------

  const NUMBER_WORDS: map<string, string> := map[
    "zero" := "0", "oh" := "0", "one" := "1", "two" := "2", "to" := "2", "too" := "2",
    "three" := "3", "four" := "4", "for" := "4", "five" := "5", "six" := "6",
    "seven" := "7", "eight" := "8", "nine" := "9"]

  /** A Go map lookup: the empty string for a word that is no number word. */
  function NumberWord(w: string): string {
    if w in NUMBER_WORDS then NUMBER_WORDS[w] else ""
  }

  /** About 40% of the length, at most 3; nothing for words of up to three characters. */
  function Tolerance(word: string): (t: int)
    ensures 0 <= t <= 3
    ensures t == 0 <==> |word| <= 3
    ensures word != "" ==> 2 * t < |word|
  {
    var n := |word|;
    if n <= 3 then 0
    else
      var t := n * 2 / 5;
      if t < 1 then 1 else if t > 3 then 3 else t
  }

  /** The option is part of what was said. */
  ghost predicate IsPhrase(t: string, o: string) {
    o != "" && Contains(t, o)
  }

  predicate Says(w: string, o: string) {
    w == o || NumberWord(w) == o
  }

  /** Some word is the option, or is a number word for it. */
  predicate IsSpoken(words: seq<string>, o: string) {
    exists w :: w in words && Says(w, o)
  }

  predicate WithinTolerance(w: string, o: string) {
    o != "" && Dist(w, o) <= Tolerance(o)
  }

  /** Some word is within tolerance of the option. */
  predicate IsClose(words: seq<string>, o: string) {
    exists w :: w in words && WithinTolerance(w, o)
  }

  /** No word within tolerance of an option is nearer than `d`, and none of an option before `k` as near. */
  ghost predicate NoneNearer(words: seq<string>, options: seq<string>, k: nat, d: nat) {
    forall j, w | 0 <= j < |options| && w in words && WithinTolerance(w, Normal(options[j])) ::
      d <= Dist(w, Normal(options[j])) && (j < k ==> d < Dist(w, Normal(options[j])))
  }

  ghost predicate NoPhrase(t: string, options: seq<string>, k: nat)
    requires k <= |options|
  {
    forall j | 0 <= j < k :: !IsPhrase(t, Normal(options[j]))
  }

  ghost predicate NoneSpoken(words: seq<string>, options: seq<string>, k: nat)
    requires k <= |options|
  {
    forall j | 0 <= j < k :: !IsSpoken(words, Normal(options[j]))
  }

  /** Option `k` is the answer: first of the earliest tier that matches, nearest first in the last tier. */
  ghost predicate IsAnswer(t: string, options: seq<string>, k: nat)
    requires k < |options|
  {
    var words := Tokenize(t);
    var o := Normal(options[k]);
    || (IsPhrase(t, o) && NoPhrase(t, options, k))
    || (NoPhrase(t, options, |options|) && IsSpoken(words, o) && NoneSpoken(words, options, k))
    || (&& NoPhrase(t, options, |options|) && NoneSpoken(words, options, |options|)
        && exists w :: w in words && WithinTolerance(w, o) && NoneNearer(words, options, k, Dist(w, o)))
  }

  /** No tier matches any option. */
  ghost predicate NothingMatches(t: string, options: seq<string>) {
    forall j | 0 <= j < |options| ::
      var o := Normal(options[j]);
      !IsPhrase(t, o) && !IsSpoken(Tokenize(t), o) && !IsClose(Tokenize(t), o)
  }

  /** The matcher, specified for every transcript and every list of options, blank ones included. */
  method MatchSpeech(transcript: string, options: seq<string>) returns (m: Match)
    ensures m.Hit? ==> exists k | 0 <= k < |options| ::
      m.option == options[k] && IsAnswer(Normal(transcript), options, k)
    ensures m.Miss? <==> NothingMatches(Normal(transcript), options)
  {
    var t := Normal(transcript);
    if t == "" || |options| == 0 {
      return Miss;
    }
    var words := Tokenize(t);
    for k := 0 to |options|
      invariant NoPhrase(t, options, k)
    {
      var o := Normal(options[k]);
      var contained := FindSubstring(t, o);
      if o != "" && contained {
        assert IsAnswer(t, options, k);
        return Hit(options[k]);
      }
    }
    var spoken := FirstSpoken(words, options);
    if spoken < |options| {
      assert IsAnswer(t, options, spoken);
      return Hit(options[spoken]);
    }
    var best := Nearest(words, options);
    if best < |options| {
      assert IsAnswer(t, options, best);
      return Hit(options[best]);
    }
    return Miss;
  }

  /** Index of the first option that some word says, or the number of options. */
  method FirstSpoken(words: seq<string>, options: seq<string>) returns (k: nat)
    ensures k <= |options| && NoneSpoken(words, options, k)
    ensures k < |options| ==> IsSpoken(words, Normal(options[k]))
  {
    for j := 0 to |options|
      invariant NoneSpoken(words, options, j)
    {
      var o := Normal(options[j]);
      for i := 0 to |words|
        invariant forall l | 0 <= l < i :: !Says(words[l], o)
      {
        if words[i] == o || NumberWord(words[i]) == o {
          assert Says(words[i], o);
          return j;
        }
      }
    }
    return |options|;
  }

  /** Index of the first option with the least distance within its tolerance, or the number of options. */
  method Nearest(words: seq<string>, options: seq<string>) returns (best: nat)
    ensures best <= |options|
    ensures best == |options| ==> forall j | 0 <= j < |options| :: !IsClose(words, Normal(options[j]))
    ensures best < |options| ==>
      exists w :: w in words && WithinTolerance(w, Normal(options[best])) &&
        NoneNearer(words, options, best, Dist(w, Normal(options[best])))
  {
    best := |options|;
    var bestDist := 0x4000_0000;
    ghost var nearest := "";
    for j := 0 to |options|
      invariant IsNearestSoFar(words, options, j, 0, best, bestDist, nearest)
    {
      var o := Normal(options[j]);
      if o != "" {
        for i := 0 to |words|
          invariant IsNearestSoFar(words, options, j, i, best, bestDist, nearest)
        {
          var d := Levenshtein(words[i], o);
          NearestStep(words, options, j, i, best, bestDist, nearest);
          if d <= Tolerance(o) && d < bestDist {
            best, bestDist, nearest := j, d, words[i];
          }
        }
      }
      NearestNextOption(words, options, j, best, bestDist, nearest);
    }
  }

  /** One more word against option `j`: the best answer is replaced by a strictly nearer one only. */
  lemma NearestStep(words: seq<string>, options: seq<string>, j: nat, i: nat, best: nat, bestDist: int, nearest: string)
    requires IsNearestSoFar(words, options, j, i, best, bestDist, nearest) && j < |options| && i < |words| &&
      Normal(options[j]) != ""
    ensures var d := Dist(words[i], Normal(options[j]));
      if d <= Tolerance(Normal(options[j])) && d < bestDist
      then IsNearestSoFar(words, options, j, i + 1, j, d, words[i])
      else IsNearestSoFar(words, options, j, i + 1, best, bestDist, nearest)
  {
  }

  /** All words seen (or a blank option skipped): on to the next option. */
  lemma NearestNextOption(words: seq<string>, options: seq<string>, j: nat, best: nat, bestDist: int, nearest: string)
    requires j < |options|
    requires IsNearestSoFar(words, options, j, |words|, best, bestDist, nearest)
      || (Normal(options[j]) == "" && IsNearestSoFar(words, options, j, 0, best, bestDist, nearest))
    ensures IsNearestSoFar(words, options, j + 1, 0, best, bestDist, nearest)
  {
    forall w | w in words && WithinTolerance(w, Normal(options[j]))
      ensures best < |options| && bestDist <= Dist(w, Normal(options[j]))
    {
      var x: nat :| x < |words| && words[x] == w;
    }
  }

  /**
   Loop invariant of Nearest: all words against the options before `j`, and the first `i` words
   against option `j`.
   */
  ghost predicate IsNearestSoFar(words: seq<string>, options: seq<string>, j: nat, i: nat, best: nat, bestDist: int,
      nearest: string) {
    && j <= |options| && i <= |words|
    && (best == |options| ==> bestDist == 0x4000_0000)
    && (best != |options| ==>
          && best < |options| && best <= j
          && nearest in words && WithinTolerance(nearest, Normal(options[best])) &&
            bestDist == Dist(nearest, Normal(options[best])))
    && (forall l, w | 0 <= l < j && w in words && WithinTolerance(w, Normal(options[l])) ::
          best < |options| && bestDist <= Dist(w, Normal(options[l])) &&
            (l < best ==> bestDist < Dist(w, Normal(options[l]))))
    && (forall x | 0 <= x < i && j < |options| && WithinTolerance(words[x], Normal(options[j])) ::
          best < |options| && bestDist <= Dist(words[x], Normal(options[j])))
  }

  // ---------------------------------------------------------------------------
  // What the tiers mean together
  // ---------------------------------------------------------------------------

  /** Every word of a text occurs in it, so a non-blank option that is a word is already a phrase. */
  lemma WordIsPhrase(t: string, w: string)
    requires w in Tokenize(t)
    ensures w != "" && IsPhrase(t, w)
  {
    TokensAreMaximalRuns(t, w);
    var i: nat, j: nat :| IsMaximalRun(t, i, j) && t[i..j] == w;
    assert OccursAt(t, w, i);
  }

  /** Past the phrase tier, a non-blank option is only ever spoken as a number word. */
  lemma SpokenMeansNumberWord(t: string, o: string)
    requires o != "" && !IsPhrase(t, o)
    ensures IsSpoken(Tokenize(t), o) <==> exists w :: w in Tokenize(t) && w in NUMBER_WORDS && NUMBER_WORDS[w] == o
  {
    forall w | w in Tokenize(t) ensures w != o {
      WordIsPhrase(t, w);
    }
    if IsSpoken(Tokenize(t), o) {
      var w :| w in Tokenize(t) && Says(w, o);
      assert w in NUMBER_WORDS;
    }
    if w :| w in Tokenize(t) && w in NUMBER_WORDS && NUMBER_WORDS[w] == o {
      assert Says(w, o);
    }
  }

  /** Past the phrase tier, only options of four characters or more are matched closely, and never at distance 0. */
  lemma CloseNeedsFourCharacters(t: string, o: string, w: string)
    requires !IsPhrase(t, o) && w in Tokenize(t) && WithinTolerance(w, o)
    ensures |o| >= 4 && Dist(w, o) >= 1
  {
    WordIsPhrase(t, w);
    ZeroOnlyForEqual(w, o);
  }

  /** Blank counts as spoken exactly when some word is no number word. */
  lemma BlankIsSpoken(t: string)
    ensures IsSpoken(Tokenize(t), "") <==> exists w :: w in Tokenize(t) && w !in NUMBER_WORDS
  {
    forall w | w in Tokenize(t) ensures w != "" {
      WordIsPhrase(t, w);
    }
    if w :| w in Tokenize(t) && w !in NUMBER_WORDS {
      assert Says(w, "");
    }
    if IsSpoken(Tokenize(t), "") {
      var w :| w in Tokenize(t) && Says(w, "");
      assert w !in NUMBER_WORDS;
    }
  }

  /**
   A blank option is a catch-all behind the phrase tier: it is the answer exactly when no option is a
   phrase, none before it is spoken, and some word is no number word.
   */
  lemma BlankOptionIsCatchAll(t: string, options: seq<string>, k: nat)
    requires k < |options| && Normal(options[k]) == ""
    ensures IsAnswer(t, options, k) <==>
      && NoPhrase(t, options, |options|) && NoneSpoken(Tokenize(t), options, k)
      && exists w :: w in Tokenize(t) && w !in NUMBER_WORDS
  {
    BlankIsSpoken(t);
  }

  /** A word within tolerance of two options: their distance is at most the sum of their tolerances. */
  lemma AmbiguityBound(w: string, o1: string, o2: string)
    requires WithinTolerance(w, o1) && WithinTolerance(w, o2)
    ensures Dist(o1, o2) <= Tolerance(o1) + Tolerance(o2)
  {
    Symmetric(w, o1);
    Triangle(o1, w, o2);
  }

  /** Two options whose lengths differ by more than six are never both close to one word. */
  lemma LengthsKeepOptionsApart(w: string, o1: string, o2: string)
    requires WithinTolerance(w, o1) && WithinTolerance(w, o2)
    ensures |o1| <= |o2| + 6 && |o2| <= |o1| + 6
  {
    AmbiguityBound(w, o1, o2);
    LengthBounds(o1, o2);
  }

  // ---------------------------------------------------------------------------
  // What is compared, and what makes no difference
  // ---------------------------------------------------------------------------

  /** The text without surrounding blanks and without capitals, otherwise character by character the same. */
  ghost predicate ComparedAs(s: string, r: string) {
    exists i: nat, j: nat :: IsCore(s, i, j) && ReadsAlike(s[i..j], r) && NoCapitals(r)
  }

  predicate NoCapitals(r: string) {
    forall k | 0 <= k < |r| :: r[k] !in CAPITALS
  }

  lemma LoweredReadsAlike(s: string)
    ensures ReadsAlike(s, ToLower(s)) && NoCapitals(ToLower(s))
  {
    forall k | 0 <= k < |s| ensures SameButCase(s[k], ToLower(s)[k]) && ToLower(s)[k] !in CAPITALS {
      LowerIsSmall(s[k]);
    }
  }

  lemma SmallTextIsUnique(s: string, r: string, q: string)
    requires ReadsAlike(s, r) && ReadsAlike(s, q) && NoCapitals(r) && NoCapitals(q)
    ensures r == q
  {
    forall k | 0 <= k < |s| ensures r[k] == q[k] {
      AlikeThroughThird(s[k], r[k], q[k]);
      SmallIsUnique(r[k], q[k]);
    }
  }

  lemma NormalIsComparedAs(s: string, r: string)
    ensures ComparedAs(s, r) <==> r == Normal(s)
  {
    var i, j := TrimIsCore(s);
    LoweredReadsAlike(Trim(s));
    if ComparedAs(s, r) {
      var k: nat, l: nat :| IsCore(s, k, l) && ReadsAlike(s[k..l], r) && NoCapitals(r);
      CoreIsUnique(s, i, j, k, l);
      SmallTextIsUnique(Trim(s), r, Normal(s));
    }
  }

  /** Two texts that differ in surrounding blanks and in capitals only. */
  ghost predicate SoundsLike(s: string, t: string) {
    exists i: nat, j: nat, k: nat, l: nat :: IsCore(s, i, j) && IsCore(t, k, l) && ReadsAlike(s[i..j], t[k..l])
  }

  lemma ReadsAlikeThrough(s: string, t: string, r: string)
    requires ReadsAlike(s, t) && ReadsAlike(s, r)
    ensures ReadsAlike(t, r)
  {
    forall k | 0 <= k < |t| ensures SameButCase(t[k], r[k]) {
      AlikeThroughThird(s[k], t[k], r[k]);
    }
  }

  lemma SoundsLikeIsSameNormal(s: string, t: string)
    requires SoundsLike(s, t)
    ensures Normal(s) == Normal(t)
  {
    var i: nat, j: nat, k: nat, l: nat :| IsCore(s, i, j) && IsCore(t, k, l) && ReadsAlike(s[i..j], t[k..l]);
    NormalIsComparedAs(s, Normal(s));
    var m: nat, n: nat :| IsCore(s, m, n) && ReadsAlike(s[m..n], Normal(s)) && NoCapitals(Normal(s));
    CoreIsUnique(s, i, j, m, n);
    ReadsAlikeThrough(s[i..j], t[k..l], Normal(s));
    assert ComparedAs(t, Normal(s));
    NormalIsComparedAs(t, Normal(s));
  }

  ghost predicate AllSoundLike(options: seq<string>, others: seq<string>) {
    |options| == |others| && forall k | 0 <= k < |options| :: SoundsLike(options[k], others[k])
  }

  /** Capitals and surrounding blanks, of the transcript or of the options, change no answer. */
  lemma CaseAndBlanksAreIrrelevant(t: string, u: string, options: seq<string>, others: seq<string>)
    requires SoundsLike(t, u) && AllSoundLike(options, others)
    ensures NothingMatches(Normal(t), options) <==> NothingMatches(Normal(u), others)
    ensures forall k: nat | k < |options| :: IsAnswer(Normal(t), options, k) <==> IsAnswer(Normal(u), others, k)
  {
    SoundsLikeIsSameNormal(t, u);
    forall k | 0 <= k < |options| ensures Normal(options[k]) == Normal(others[k]) {
      SoundsLikeIsSameNormal(options[k], others[k]);
    }
    SameNormalsSameAnswers(Normal(t), options, others);
  }

  lemma SameNormalsSameAnswers(t: string, options: seq<string>, others: seq<string>)
    requires |options| == |others| && forall k | 0 <= k < |options| :: Normal(options[k]) == Normal(others[k])
    ensures NothingMatches(t, options) <==> NothingMatches(t, others)
    ensures forall k: nat | k < |options| :: IsAnswer(t, options, k) <==> IsAnswer(t, others, k)
  {
    forall k: nat | k < |options| ensures IsAnswer(t, options, k) <==> IsAnswer(t, others, k) {
      assert forall d: nat :: NoneNearer(Tokenize(t), options, k, d) <==> NoneNearer(Tokenize(t), others, k, d);
    }
  }

  /** There is at most one answer. */
  lemma AnswerIsUnique(t: string, options: seq<string>, j: nat, k: nat)
    requires j < |options| && k < |options| && IsAnswer(t, options, j) && IsAnswer(t, options, k)
    ensures j == k
  {
    if NoPhrase(t, options, |options|) && NoneSpoken(Tokenize(t), options, |options|) {
      var w :| w in Tokenize(t) && WithinTolerance(w, Normal(options[j])) &&
        NoneNearer(Tokenize(t), options, j, Dist(w, Normal(options[j])));
      var v :| v in Tokenize(t) && WithinTolerance(v, Normal(options[k])) &&
        NoneNearer(Tokenize(t), options, k, Dist(v, Normal(options[k])));
    }
  }

  /** So two transcripts that differ in that only are matched to the same option, or both to none. */
  method MatchAlike(t: string, u: string, options: seq<string>, others: seq<string>) returns (m: Match, n: Match)
    requires SoundsLike(t, u) && AllSoundLike(options, others)
    ensures m.Miss? <==> n.Miss?
    ensures m.Hit? && n.Hit? ==> exists k: nat :: k < |options| && m.option == options[k] && n.option == others[k]
  {
    m := MatchSpeech(t, options);
    n := MatchSpeech(u, others);
    CaseAndBlanksAreIrrelevant(t, u, options, others);
    if m.Hit? && n.Hit? {
      ghost var k: nat :| k < |options| && m.option == options[k] && IsAnswer(Normal(t), options, k);
      ghost var l: nat :| l < |others| && n.option == others[l] && IsAnswer(Normal(u), others, l);
      AnswerIsUnique(Normal(u), others, k, l);
    }
  }

  // ---------------------------------------------------------------------------
  // Words, digits and tolerance
  // ---------------------------------------------------------------------------

  /** The words heard for each digit. */
  const DIGIT_WORDS: seq<seq<string>> := [
    ["zero", "oh"], ["one"], ["two", "to", "too"], ["three"], ["four", "for"], ["five"], ["six"], ["seven"],
    ["eight"], ["nine"]]

  lemma LetterOrDigit(c: char)
    ensures IsWordChar(c) <==> c in SMALL || c in DIGITS
  {
    if 'a' <= c <= 'z' {
      LettersInOrder(c as int - 'a' as int);
    } else if '0' <= c <= '9' {
      assert DIGITS[c as int - '0' as int] == c;
    } else if c in SMALL {
      var i: nat :| i < 26 && SMALL[i] == c;
      LettersInOrder(i);
    }
  }

  /** A word is heard as a digit exactly if it is one of that digit's words, and as nothing else. */
  lemma NumberWordMeans(w: string, d: nat)
    requires d < 10
    ensures NumberWord(w) == [DIGITS[d]] <==> w in DIGIT_WORDS[d]
    ensures NumberWord(w) == "" <==> w !in NUMBER_WORDS
  {
  }

  lemma NumberWordsAreDigitWords(w: string)
    ensures w in NUMBER_WORDS <==> exists d: nat :: d < 10 && w in DIGIT_WORDS[d]
  {
    if d: nat :| d < 10 && w in DIGIT_WORDS[d] {
      NumberWordMeans(w, d);
    }
    if w in NUMBER_WORDS {
      var d: nat := NUMBER_WORDS[w][0] as int - '0' as int;
      assert NumberWord(w) == [DIGITS[d]];
      NumberWordMeans(w, d);
    }
  }

  /** Two fifths of the length, rounded down, up to three. */
  lemma ToleranceIsTwoFifths(o: string)
    ensures 4 <= |o| <= 9 ==> 5 * Tolerance(o) <= 2 * |o| < 5 * (Tolerance(o) + 1)
    ensures |o| >= 8 ==> Tolerance(o) == 3
  {
  }
}
