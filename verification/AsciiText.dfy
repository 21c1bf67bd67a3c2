/** Go's strings.TrimSpace and strings.ToLower, over ASCII text. */
module AsciiText {

  predicate IsSpace(c: char) {
    c in {' ', '\t', '\n', '\r', '\U{000B}', '\U{000C}'}
  }

  function LowerChar(c: char): char {
    if 'A' <= c <= 'Z' then c - 'A' + 'a' else c
  }

  function ToLower(s: string): (r: string)
    ensures |r| == |s|
  {
    seq(|s|, i requires 0 <= i < |s| => LowerChar(s[i]))
  }

  function TrimLeft(s: string): string {
    if s != "" && IsSpace(s[0]) then TrimLeft(s[1..]) else s
  }

  function TrimRight(s: string): string {
    if s != "" && IsSpace(s[|s| - 1]) then TrimRight(s[..|s| - 1]) else s
  }

  function Trim(s: string): string {
    TrimRight(TrimLeft(s))
  }

  lemma {:induction false} TrimRightTrims(s: string)
    ensures var r := TrimRight(s); r != "" ==> !IsSpace(r[|r| - 1]) && r[0] == s[0]
  {
    if s != "" && IsSpace(s[|s| - 1]) {
      TrimRightTrims(s[..|s| - 1]);
    }
  }

  lemma {:induction false} TrimLeftTrims(s: string)
    ensures var r := TrimLeft(s); r != "" ==> !IsSpace(r[0])
  {
    if s != "" && IsSpace(s[0]) {
      TrimLeftTrims(s[1..]);
    }
  }

  lemma TrimTwice(s: string)
    ensures Trim(Trim(s)) == Trim(s)
  {
    TrimLeftTrims(s);
    TrimRightTrims(TrimLeft(s));
  }

  // ---------------------------------------------------------------------------
  // What trimming and lower-casing mean
  // ---------------------------------------------------------------------------

  const CAPITALS := "ABCDEFGHIJKLMNOPQRSTUVWXYZ"
  const SMALL := "abcdefghijklmnopqrstuvwxyz"
  const DIGITS := "0123456789"

  /** A space, or one of the control characters from the tab to the carriage return. */
  predicate IsBlank(c: char) {
    c == ' ' || 9 <= c as int <= 13
  }

  predicate BlankBetween(s: string, i: int, j: int)
    requires 0 <= i && j <= |s|
  {
    forall k | i <= k < j :: IsBlank(s[k])
  }

  /** Between `i` and `j` stands the text without the surrounding blanks. */
  ghost predicate IsCore(s: string, i: nat, j: nat) {
    && i <= j <= |s| && BlankBetween(s, 0, i) && BlankBetween(s, j, |s|)
    && (i < j ==> !IsBlank(s[i]) && !IsBlank(s[j - 1]))
  }

  /** The same letter of the alphabet, one a capital. */
  predicate IsCapitalOf(c: char, d: char) {
    exists i | 0 <= i < 26 :: c == CAPITALS[i] && d == SMALL[i]
  }

  predicate SameButCase(c: char, d: char) {
    c == d || IsCapitalOf(c, d) || IsCapitalOf(d, c)
  }

  /** The same text, read without regard to capitals. */
  predicate ReadsAlike(s: string, t: string) {
    |s| == |t| && forall i | 0 <= i < |s| :: SameButCase(s[i], t[i])
  }

  lemma LettersInOrder(i: nat)
    requires i < 26
    ensures CAPITALS[i] as int == 'A' as int + i && SMALL[i] as int == 'a' as int + i
  {
  }

  lemma LowerIsSmall(c: char)
    ensures SameButCase(c, LowerChar(c)) && LowerChar(c) !in CAPITALS
  {
    if 'A' <= c <= 'Z' {
      var i := c as int - 'A' as int;
      LettersInOrder(i);
      assert c == CAPITALS[i] && LowerChar(c) == SMALL[i];
    }
    if LowerChar(c) in CAPITALS {
      var i :| 0 <= i < 26 && CAPITALS[i] == LowerChar(c);
      LettersInOrder(i);
    }
  }

  /** Of the characters that read alike, one is no capital. */
  lemma SmallIsUnique(c: char, d: char)
    requires SameButCase(c, d) && c !in CAPITALS && d !in CAPITALS
    ensures c == d
  {
  }

  lemma AlikeThroughThird(c: char, d: char, e: char)
    requires SameButCase(c, d) && SameButCase(c, e)
    ensures SameButCase(d, e)
  {
    forall i: nat, j: nat | i < 26 && j < 26
      ensures CAPITALS[i] != SMALL[j] && (i != j ==> CAPITALS[i] != CAPITALS[j] && SMALL[i] != SMALL[j]) {
      LettersInOrder(i);
      LettersInOrder(j);
    }
  }

  lemma {:induction false} TrimLeftDrops(s: string) returns (i: nat)
    ensures i <= |s| && TrimLeft(s) == s[i..] && BlankBetween(s, 0, i)
    ensures i < |s| ==> !IsBlank(s[i])
  {
    if s != "" && IsSpace(s[0]) {
      var k := TrimLeftDrops(s[1..]);
      i := k + 1;
      assert s[1..][k..] == s[i..];
      assert forall x | 0 < x < |s| :: s[x] == s[1..][x - 1];
    } else {
      i := 0;
    }
  }

  lemma {:induction false} TrimRightDrops(s: string) returns (j: nat)
    ensures j <= |s| && TrimRight(s) == s[..j] && BlankBetween(s, j, |s|)
    ensures j > 0 ==> !IsBlank(s[j - 1])
  {
    if s != "" && IsSpace(s[|s| - 1]) {
      j := TrimRightDrops(s[..|s| - 1]);
      assert s[..|s| - 1][..j] == s[..j];
      assert forall x | 0 <= x < |s| - 1 :: s[x] == s[..|s| - 1][x];
    } else {
      j := |s|;
    }
  }

  lemma TrimIsCore(s: string) returns (i: nat, j: nat)
    ensures IsCore(s, i, j) && Trim(s) == s[i..j]
  {
    i := TrimLeftDrops(s);
    var t := TrimLeft(s);
    var n := TrimRightDrops(t);
    j := i + n;
    assert forall x | 0 <= x < |t| :: t[x] == s[i + x];
    assert t[..n] == s[i..j];
    forall x | j <= x < |s| ensures IsBlank(s[x]) {
      assert s[x] == t[x - i];
    }
  }

  /** There is one such text only. */
  lemma CoreIsUnique(s: string, i: nat, j: nat, k: nat, l: nat)
    requires IsCore(s, i, j) && IsCore(s, k, l)
    ensures s[i..j] == s[k..l]
  {
  }
}
