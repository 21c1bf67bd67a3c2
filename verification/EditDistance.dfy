/**
 Edit distance as the speech matcher computes it (cmd/pbx/dialplan_speech.go).

 The specification is independent of the algorithm: a script is a list of
 single-character insertions, deletions and replacements at arbitrary positions,
 applied one after the other, and the distance is the length of the shortest
 script that turns one word into the other.
 */
module EditDistance {

  type Word = seq<char>

  datatype Edit =
    | Insert(at: nat, c: char)
    | Delete(at: nat)
    | Replace(at: nat, c: char)

  predicate Applicable(e: Edit, w: Word) {
    match e
    case Insert(at, _) => at <= |w|
    case Delete(at) => at < |w|
    case Replace(at, _) => at < |w|
  }

  function ApplyEdit(e: Edit, w: Word): Word
    requires Applicable(e, w)
  {
    match e
    case Insert(at, c) => w[..at] + [c] + w[at..]
    case Delete(at) => w[..at] + w[at + 1..]
    case Replace(at, c) => w[at := c]
  }

  /** Whether the edits of `script`, applied in order to `a`, end in `b`. */
  ghost predicate Turns(script: seq<Edit>, a: Word, b: Word) {
    if script == [] then a == b
    else Applicable(script[0], a) && Turns(script[1..], ApplyEdit(script[0], a), b)
  }

  /** `d` is the least number of edits that turn `a` into `b`. */
  ghost predicate IsEditDistance(a: Word, b: Word, d: nat) {
    && (exists script :: Turns(script, a, b) && |script| == d)
    && (forall script :: Turns(script, a, b) ==> d <= |script|)
  }

  /** The least of three. */
  function Min3(a: int, b: int, c: int): (m: int)
    ensures m <= a && m <= b && m <= c && (m == a || m == b || m == c)
  {
    var m := if b < a then b else a;
    if c < m then c else m
  }

  /** The recurrence behind the table: distance between two prefixes, by their last characters. */
  function Dist(a: Word, b: Word): nat
    decreases |a| + |b|
  {
    if |a| == 0 then |b|
    else if |b| == 0 then |a|
    else
      var a' := a[..|a| - 1];
      var b' := b[..|b| - 1];
      var cost := if a[|a| - 1] == b[|b| - 1] then 0 else 1;
      Min3(Dist(a, b') + 1, Dist(a', b) + 1, Dist(a', b') + cost)
  }

  // ---------------------------------------------------------------------------
  // The two-row table
  // ---------------------------------------------------------------------------

  /** `row` holds the distances from the first `i` characters of `a` to every prefix of `b` below `width`. */
  ghost predicate IsRow(row: seq<nat>, a: Word, b: Word, i: nat, width: nat)
    requires i <= |a| && width <= |row| && width <= |b| + 1
  {
    forall k :: 0 <= k < width ==> row[k] == Dist(a[..i], b[..k])
  }

  /** The two-row loop returns the least number of edits, for every pair of words. */
  method Levenshtein(a: Word, b: Word) returns (d: nat)
    ensures d == Dist(a, b)
    ensures IsEditDistance(a, b, d)
  {
    DistIsEditDistance(a, b);
    var la, lb := |a|, |b|;
    if la == 0 { return lb; }
    if lb == 0 { return la; }
    var prev := new nat[lb + 1];
    for j := 0 to lb + 1
      invariant forall k :: 0 <= k < j ==> prev[k] == k
    {
      prev[j] := j;
    }
    assert IsRow(prev[..], a, b, 0, lb + 1);
    for i := 1 to la + 1
      invariant fresh(prev) && prev.Length == lb + 1
      invariant IsRow(prev[..], a, b, i - 1, lb + 1)
    {
      var cur := NextRow(a, b, i, prev);
      prev := cur;
    }
    assert a[..la] == a && b[..lb] == b;
    d := prev[lb];
  }

  /** One round of the outer loop: the row of the next prefix of `a`, from the row before it. */
  method NextRow(a: Word, b: Word, i: nat, prev: array<nat>) returns (cur: array<nat>)
    requires 1 <= i <= |a| && prev.Length == |b| + 1
    requires IsRow(prev[..], a, b, i - 1, |b| + 1)
    ensures fresh(cur) && cur.Length == |b| + 1
    ensures IsRow(cur[..], a, b, i, |b| + 1)
  {
    cur := new nat[|b| + 1];
    cur[0] := i;
    ghost var before := prev[..];
    for j := 1 to |b| + 1
      invariant prev[..] == before
      invariant IsRow(cur[..], a, b, i, j)
    {
      var cost := if a[i - 1] == b[j - 1] then 0 else 1;
      assert cur[..][j - 1] == Dist(a[..i], b[..j - 1]);
      assert before[j] == Dist(a[..i - 1], b[..j]) && before[j - 1] == Dist(a[..i - 1], b[..j - 1]);
      var cell := Min3(cur[j - 1] + 1, prev[j] + 1, prev[j - 1] + cost);
      DistCell(a, b, i, j);
      cur[j] := cell;
    }
  }

  lemma DistCell(a: Word, b: Word, i: nat, j: nat)
    requires 1 <= i <= |a| && 1 <= j <= |b|
    ensures Dist(a[..i], b[..j]) ==
      Min3(Dist(a[..i], b[..j - 1]) + 1, Dist(a[..i - 1], b[..j]) + 1,
           Dist(a[..i - 1], b[..j - 1]) + if a[i - 1] == b[j - 1] then 0 else 1)
  {
    assert a[..i][..i - 1] == a[..i - 1];
    assert b[..j][..j - 1] == b[..j - 1];
  }

  // ---------------------------------------------------------------------------
  // A script of that length exists
  // ---------------------------------------------------------------------------

  lemma {:induction false} TurnsConcat(s: seq<Edit>, t: seq<Edit>, a: Word, b: Word, c: Word)
    requires Turns(s, a, b) && Turns(t, b, c)
    ensures Turns(s + t, a, c)
  {
    if s == [] {
      assert s + t == t;
    } else {
      assert (s + t)[0] == s[0] && (s + t)[1..] == s[1..] + t;
      TurnsConcat(s[1..], t, ApplyEdit(s[0], a), b, c);
    }
  }

  lemma EditWithTail(e: Edit, w: Word, tail: Word)
    requires Applicable(e, w)
    ensures Applicable(e, w + tail) && ApplyEdit(e, w + tail) == ApplyEdit(e, w) + tail
  {
    var at := e.at;
    assert (w + tail)[..at] == w[..at] && (w + tail)[at..] == w[at..] + tail;
    assert at < |w| ==> (w + tail)[at + 1..] == w[at + 1..] + tail;
  }

  /** A script keeps working when the same tail is appended to both words. */
  lemma {:induction false} TurnsWithTail(s: seq<Edit>, a: Word, b: Word, tail: Word)
    requires Turns(s, a, b)
    ensures Turns(s, a + tail, b + tail)
  {
    if s != [] {
      EditWithTail(s[0], a, tail);
      TurnsWithTail(s[1..], ApplyEdit(s[0], a), b, tail);
    }
  }

  lemma SingleEdit(e: Edit, a: Word, b: Word)
    requires Applicable(e, a) && ApplyEdit(e, a) == b
    ensures Turns([e], a, b)
  {
    assert [e][1..] == [];
    assert Turns([], b, b);
  }

  /** Writing one more character at the end costs one edit. */
  lemma ScriptThenInsert(s: seq<Edit>, a: Word, b: Word, y: char) returns (script: seq<Edit>)
    requires Turns(s, a, b)
    ensures Turns(script, a, b + [y]) && |script| == |s| + 1
  {
    var e := Insert(|b|, y);
    assert ApplyEdit(e, b) == b + [y];
    SingleEdit(e, b, b + [y]);
    TurnsConcat(s, [e], a, b, b + [y]);
    script := s + [e];
  }

  /** Dropping the last character first costs one edit. */
  lemma DeleteThenScript(s: seq<Edit>, a: Word, x: char, b: Word) returns (script: seq<Edit>)
    requires Turns(s, a, b)
    ensures Turns(script, a + [x], b) && |script| == |s| + 1
  {
    var e := Delete(|a|);
    assert ApplyEdit(e, a + [x]) == a;
    SingleEdit(e, a + [x], a);
    TurnsConcat([e], s, a + [x], a, b);
    script := [e] + s;
  }

  /** Keeping the last character is free; changing it costs one edit. */
  lemma ScriptThenReplace(s: seq<Edit>, a: Word, x: char, b: Word, y: char) returns (script: seq<Edit>)
    requires Turns(s, a, b)
    ensures Turns(script, a + [x], b + [y]) && |script| == |s| + if x == y then 0 else 1
  {
    TurnsWithTail(s, a, b, [x]);
    script := s;
    if x != y {
      var e := Replace(|b|, y);
      assert ApplyEdit(e, b + [x]) == b + [y];
      SingleEdit(e, b + [x], b + [y]);
      TurnsConcat(s, [e], a + [x], b + [x], b + [y]);
      script := s + [e];
    }
  }

  lemma {:induction false} ShortestScript(a: Word, b: Word) returns (script: seq<Edit>)
    ensures Turns(script, a, b) && |script| == Dist(a, b)
    decreases |a| + |b|
  {
    if |a| == 0 && |b| == 0 {
      script := [];
    } else if |a| == 0 {
      var b' := b[..|b| - 1];
      var s := ShortestScript(a, b');
      assert b == b' + [b[|b| - 1]];
      script := ScriptThenInsert(s, a, b', b[|b| - 1]);
    } else if |b| == 0 {
      var a' := a[..|a| - 1];
      var s := ShortestScript(a', b);
      assert a == a' + [a[|a| - 1]];
      script := DeleteThenScript(s, a', a[|a| - 1], b);
    } else {
      var a', x := a[..|a| - 1], a[|a| - 1];
      var b', y := b[..|b| - 1], b[|b| - 1];
      assert a == a' + [x] && b == b' + [y];
      if Dist(a, b) == Dist(a, b') + 1 {
        var s := ShortestScript(a, b');
        script := ScriptThenInsert(s, a, b', y);
      } else if Dist(a, b) == Dist(a', b) + 1 {
        var s := ShortestScript(a', b);
        script := DeleteThenScript(s, a', x, b);
      } else {
        var s := ShortestScript(a', b');
        script := ScriptThenReplace(s, a', x, b', y);
      }
    }
  }

  // ---------------------------------------------------------------------------
  // No script is shorter: one edit changes the distance by at most one
  // ---------------------------------------------------------------------------

  /** Dropping the last character of the left word changes the distance by at most one. */
  lemma {:induction false} DropLast(u: Word, x: char, b: Word)
    ensures Dist(u + [x], b) <= Dist(u, b) + 1
    ensures Dist(u, b) <= Dist(u + [x], b) + 1
    decreases |b|
  {
    assert (u + [x])[..|u|] == u;
    if |b| != 0 {
      var b' := b[..|b| - 1];
      DropLast(u, x, b');
      assert Dist(u, b) <= Dist(u, b') + 1;
    }
  }

  /** Replacing the last character of the left word changes the distance by at most one. */
  lemma {:induction false} ReplaceLast(u: Word, x: char, y: char, b: Word)
    ensures Dist(u + [x], b) <= Dist(u + [y], b) + 1
    decreases |b|
  {
    assert (u + [x])[..|u|] == u && (u + [y])[..|u|] == u;
    if |b| != 0 {
      ReplaceLast(u, x, y, b[..|b| - 1]);
    }
  }

  /** The same last character on two left words carries a bound of one through the table. */
  lemma {:induction false} SameLast(u: Word, v: Word, x: char, b: Word)
    requires forall c :: Dist(u, c) <= Dist(v, c) + 1
    ensures Dist(u + [x], b) <= Dist(v + [x], b) + 1
    decreases |b|
  {
    assert (u + [x])[..|u|] == u && (v + [x])[..|v|] == v;
    if |b| == 0 {
      assert Dist(u, []) <= Dist(v, []) + 1;
      assert Dist(u, []) == |u| && Dist(v, []) == |v|;
      assert b == [];
    } else {
      SameLast(u, v, x, b[..|b| - 1]);
    }
  }

  lemma {:induction false} OneEditMovesByOne(e: Edit, w: Word, b: Word)
    requires Applicable(e, w)
    ensures Dist(w, b) <= Dist(ApplyEdit(e, w), b) + 1
    decreases |w|
  {
    var n := |w|;
    if e.at == n {
      assert ApplyEdit(e, w) == w + [e.c];
      DropLast(w, e.c, b);
    } else {
      var u, x := w[..n - 1], w[n - 1];
      assert w == u + [x];
      if e.at == n - 1 && e.Delete? {
        assert ApplyEdit(e, w) == u;
        DropLast(u, x, b);
      } else if e.at == n - 1 && e.Replace? {
        assert ApplyEdit(e, w) == u + [e.c];
        ReplaceLast(u, x, e.c, b);
      } else {
        var u' := ApplyEdit(e, u);
        EditWithTail(e, u, [x]);
        forall c ensures Dist(u, c) <= Dist(u', c) + 1 {
          OneEditMovesByOne(e, u, c);
        }
        SameLast(u, u', x, b);
      }
    }
  }

  lemma {:induction false} DistSelf(a: Word)
    ensures Dist(a, a) == 0
  {
    if |a| != 0 {
      DistSelf(a[..|a| - 1]);
    }
  }

  lemma {:induction false} NoShorterScript(script: seq<Edit>, a: Word, b: Word)
    requires Turns(script, a, b)
    ensures Dist(a, b) <= |script|
  {
    if script == [] {
      DistSelf(a);
    } else {
      NoShorterScript(script[1..], ApplyEdit(script[0], a), b);
      OneEditMovesByOne(script[0], a, b);
    }
  }

  /** The recurrence is the edit distance: a script of that length exists and none is shorter. */
  lemma {:induction false} DistIsEditDistance(a: Word, b: Word)
    ensures IsEditDistance(a, b, Dist(a, b))
  {
    var s := ShortestScript(a, b);
    forall script | Turns(script, a, b) ensures Dist(a, b) <= |script| {
      NoShorterScript(script, a, b);
    }
  }

  // ---------------------------------------------------------------------------
  // A metric
  // ---------------------------------------------------------------------------

  lemma {:induction false} ZeroOnlyForEqual(a: Word, b: Word)
    ensures Dist(a, b) == 0 <==> a == b
  {
    DistSelf(a);
    var s := ShortestScript(a, b);
    if Dist(a, b) == 0 {
      assert s == [];
    }
  }

  lemma {:induction false} Symmetric(a: Word, b: Word)
    ensures Dist(a, b) == Dist(b, a)
    decreases |a| + |b|
  {
    if |a| != 0 && |b| != 0 {
      Symmetric(a, b[..|b| - 1]);
      Symmetric(a[..|a| - 1], b);
      Symmetric(a[..|a| - 1], b[..|b| - 1]);
    }
  }

  lemma {:induction false} Triangle(a: Word, b: Word, c: Word)
    ensures Dist(a, c) <= Dist(a, b) + Dist(b, c)
  {
    var s := ShortestScript(a, b);
    var t := ShortestScript(b, c);
    TurnsConcat(s, t, a, b, c);
    NoShorterScript(s + t, a, c);
  }

  lemma {:induction false} ScriptLength(script: seq<Edit>, a: Word, b: Word)
    requires Turns(script, a, b)
    ensures |b| <= |a| + |script| && |a| <= |b| + |script|
  {
    if script != [] {
      ScriptLength(script[1..], ApplyEdit(script[0], a), b);
    }
  }

  /** The distance is at least the difference in length and at most the longer length. */
  lemma {:induction false} LengthBounds(a: Word, b: Word)
    ensures |a| - |b| <= Dist(a, b) && |b| - |a| <= Dist(a, b)
    ensures Dist(a, b) <= |a| || Dist(a, b) <= |b|
    decreases |a| + |b|
  {
    var s := ShortestScript(a, b);
    ScriptLength(s, a, b);
    if |a| != 0 && |b| != 0 {
      LengthBounds(a[..|a| - 1], b[..|b| - 1]);
    }
  }
}
