/**
 The figures on the supervisor panel (computeMetrics, cmd/contact-centre/metrics.go).
 Times and durations are integers in nanoseconds; percentages and averages are exact.
 */
module Metrics {
  import opened Options
  import opened CallLog
  import opened CallRegistry

  const SECOND := 1_000_000_000

  datatype Figures = Figures(
    serviceLevelPct: Option<real>,
    asaSecs: Option<real>,
    ahtSecs: Option<real>,
    abandonRatePct: Option<real>,
    longestWaitSecs: int,
    offered: nat,
    answered: nat,
    abandoned: nat)

  /** What a pass over log entries gathers. */
  datatype Tally = Tally(answered: nat, abandoned: nat, met: nat, waitSum: int, handleSum: int)

  const NOTHING := Tally(0, 0, 0, 0, 0)

  predicate InWindow(e: Entry, start: int) {
    e.endedAt >= start
  }

  /** How long the caller waited, if the entry counts. */
  function WaitOf(e: Entry): Option<int> {
    match e.outcome
    case Answered => Some(e.answeredAt - e.startedAt)
    case Abandoned => Some(e.endedAt - e.startedAt)
    case Failed => None
  }

  function TallyOf(e: Entry, start: int, sla: int): Tally {
    if !InWindow(e, start) then NOTHING
    else
      match e.outcome
      case Answered => Tally(1, 0, if e.answeredAt - e.startedAt <= sla then 1
        else 0, e.answeredAt - e.startedAt, e.endedAt - e.answeredAt)
      case Abandoned => Tally(0, 1, 0, 0, 0)
      case Failed => NOTHING
  }

  function Plus(a: Tally, b: Tally): Tally {
    Tally(a.answered + b.answered, a.abandoned + b.abandoned, a.met + b.met, a.waitSum + b.waitSum,
      a.handleSum + b.handleSum)
  }

  function Gathered(log: seq<Entry>, start: int, sla: int): Tally {
    if log == [] then NOTHING else Plus(Gathered(log[..|log| - 1], start, sla), TallyOf(log[|log| - 1], start, sla))
  }

  // ---------------------------------------------------------------------------
  // The longest wait
  // ---------------------------------------------------------------------------

  /** A wait that counts: of an entry in the window, or of a call queued now. */
  ghost predicate Counts(log: seq<Entry>, active: Calls, now: int, start: int, wait: int) {
    || (exists e :: e in log && e.endedAt >= start && WaitedFor(e, wait))
    || (exists c :: c in active && IsQueued(c) && wait == now - c.startedAt)
  }

  /** Until the answer, or until giving up; a failed call does not count. */
  predicate WaitedFor(e: Entry, wait: int) {
    || (e.outcome == Answered && wait == e.answeredAt - e.startedAt)
    || (e.outcome == Abandoned && wait == e.endedAt - e.startedAt)
  }

  /** The greatest wait that counts, or zero if there is none above it. */
  ghost predicate IsLongest(log: seq<Entry>, active: Calls, now: int, start: int, longest: int) {
    && longest >= 0
    && (forall wait | Counts(log, active, now, start, wait) :: wait <= longest)
    && (longest > 0 ==> Counts(log, active, now, start, longest))
  }

  // ---------------------------------------------------------------------------
  // The computation
  // ---------------------------------------------------------------------------

  function Seconds(d: int): real {
    d as real / SECOND as real
  }

  /** The figures of a tally and a longest wait. */
  function FiguresOf(t: Tally, longest: nat): Figures {
    var eligible := t.answered + t.abandoned;
    Figures(
      if eligible > 0 then Some(100.0 * t.met as real / eligible as real) else None,
      if t.answered > 0 then Some(Seconds(t.waitSum) / t.answered as real) else None,
      if t.answered > 0 then Some(Seconds(t.handleSum) / t.answered as real) else None,
      if eligible > 0 then Some(100.0 * t.abandoned as real / eligible as real) else None,
      longest / SECOND,
      eligible, t.answered, t.abandoned)
  }

  function Longer(longest: nat, wait: Option<int>): nat {
    if wait.Some? && wait.value > longest then wait.value else longest
  }

  function LongestIn(log: seq<Entry>, start: int): nat {
    if log == [] then 0
    else Longer(LongestIn(log[..|log| - 1], start), if InWindow(log[|log| - 1], start) then WaitOf(log[|log| - 1])
      else None)
  }

  function LongestWith(active: Calls, now: int, longest: nat): nat {
    if active == [] then longest
    else
      var c := active[|active| - 1];
      Longer(LongestWith(active[..|active| - 1], now, longest), if IsQueued(c) then Some(now - c.startedAt) else None)
  }

  /** The figures of the calls and the log, for a window from `start` to `now`. */
  function Figured(active: Calls, log: seq<Entry>, now: int, start: int, sla: int): Figures {
    FiguresOf(Gathered(log, start, sla), LongestWith(active, now, LongestIn(log, start)))
  }

  lemma GatheredOneMore(log: seq<Entry>, i: nat, start: int, sla: int)
    requires i < |log|
    ensures Gathered(log[..i + 1], start, sla) == Plus(Gathered(log[..i], start, sla), TallyOf(log[i], start, sla))
    ensures LongestIn(log[..i + 1], start) ==
      Longer(LongestIn(log[..i], start), if InWindow(log[i], start) then WaitOf(log[i]) else None)
  {
    assert log[..i + 1][..i] == log[..i];
  }

  /** The body of the loop over the log. */
  method CountEntry(e: Entry, start: int, sla: int, before: Tally, soFar: nat) returns (t: Tally, longest: nat)
    ensures t == Plus(before, TallyOf(e, start, sla))
    ensures longest == Longer(soFar, if InWindow(e, start) then WaitOf(e) else None)
  {
    t, longest := before, soFar;
    if e.endedAt < start {
      return;
    }
    match e.outcome
    case Answered =>
      var wait := e.answeredAt - e.startedAt;
      t := t.(answered := t.answered + 1, waitSum := t.waitSum + wait,
        handleSum := t.handleSum + (e.endedAt - e.answeredAt));
      if wait <= sla {
        t := t.(met := t.met + 1);
      }
      if wait > longest {
        longest := wait;
      }
    case Abandoned =>
      t := t.(abandoned := t.abandoned + 1);
      if e.endedAt - e.startedAt > longest {
        longest := e.endedAt - e.startedAt;
      }
    case Failed =>
  }

  method GatherLog(log: seq<Entry>, start: int, sla: int) returns (t: Tally, longest: nat)
    ensures t == Gathered(log, start, sla) && longest == LongestIn(log, start)
  {
    t, longest := NOTHING, 0;
    var i := 0;
    while i < |log|
      invariant i <= |log|
      invariant t == Gathered(log[..i], start, sla) && longest == LongestIn(log[..i], start)
    {
      GatheredOneMore(log, i, start, sla);
      t, longest := CountEntry(log[i], start, sla, t, longest);
      i := i + 1;
    }
    assert log[..|log|] == log;
  }

  method LongestQueued(active: Calls, now: int, soFar: nat) returns (longest: nat)
    ensures longest == LongestWith(active, now, soFar)
  {
    longest := soFar;
    var i := 0;
    while i < |active|
      invariant i <= |active|
      invariant longest == LongestWith(active[..i], now, soFar)
    {
      assert active[..i + 1][..i] == active[..i];
      if IsQueued(active[i]) && now - active[i].startedAt > longest {
        longest := now - active[i].startedAt;
      }
      i := i + 1;
    }
    assert active[..|active|] == active;
  }

  method ComputeMetrics(active: Calls, log: seq<Entry>, now: int, window: int, sla: int) returns (out: Figures)
    ensures out == Figured(active, log, now, now - window, sla)
  {
    var start := now - window;
    var t, longest := GatherLog(log, start, sla);
    longest := LongestQueued(active, now, longest);
    out := FiguresOf(t, longest);
  }

  lemma EntryJoins(log: seq<Entry>, e: Entry, now: int, start: int, longest: nat)
    requires IsLongest(log, [], now, start, longest)
    ensures IsLongest(log + [e], [], now, start, if InWindow(e, start) then Longer(longest, WaitOf(e)) else longest)
  {
    var all := log + [e];
    forall wait ensures Counts(all, [], now, start, wait) <==>
      Counts(log, [], now, start, wait) || (InWindow(e, start) && WaitOf(e) == Some(wait)) {
      assert forall x :: x in all <==> x in log || x == e;
    }
  }

  lemma CallJoins(log: seq<Entry>, active: Calls, c: CallView, now: int, start: int, longest: nat)
    requires IsLongest(log, active, now, start, longest)
    ensures IsLongest(log, active + [c], now, start, if IsQueued(c) then Longer(longest, Some(now - c.startedAt))
      else longest)
  {
    var all := active + [c];
    forall wait ensures Counts(log, all, now, start, wait) <==>
      Counts(log, active, now, start, wait) || (IsQueued(c) && wait == now - c.startedAt) {
      assert forall x :: x in all <==> x in active || x == c;
    }
  }

  lemma {:induction false} LongestInLog(log: seq<Entry>, now: int, start: int)
    ensures IsLongest(log, [], now, start, LongestIn(log, start))
  {
    if log != [] {
      LongestInLog(log[..|log| - 1], now, start);
      EntryJoins(log[..|log| - 1], log[|log| - 1], now, start, LongestIn(log[..|log| - 1], start));
      assert log == log[..|log| - 1] + [log[|log| - 1]];
    }
  }

  /** The longest wait reported is the greatest of all that count, rounded down to seconds. */
  lemma {:induction false} LongestIsGreatest(active: Calls, log: seq<Entry>, now: int, start: int)
    ensures IsLongest(log, active, now, start, LongestWith(active, now, LongestIn(log, start)))
  {
    if active == [] {
      LongestInLog(log, now, start);
    } else {
      var front := active[..|active| - 1];
      LongestIsGreatest(front, log, now, start);
      CallJoins(log, front, active[|active| - 1], now, start, LongestWith(front, now, LongestIn(log, start)));
      assert active == front + [active[|active| - 1]];
    }
  }

  // ---------------------------------------------------------------------------
  // Bounds
  // ---------------------------------------------------------------------------

  lemma {:induction false} MetAmongAnswered(log: seq<Entry>, start: int, sla: int)
    ensures Gathered(log, start, sla).met <= Gathered(log, start, sla).answered
  {
    if log != [] {
      MetAmongAnswered(log[..|log| - 1], start, sla);
    }
  }

  function Times(n: nat, x: nat): nat {
    if n == 0 then 0 else Times(n - 1, x) + x
  }

  lemma {:induction false} TimesIsProduct(n: nat, x: nat)
    ensures Times(n, x) == n * x
  {
    if n > 0 {
      TimesIsProduct(n - 1, x);
      assert n * x == (n - 1) * x + x;
    }
  }

  lemma {:induction false} WaitsAddUp(log: seq<Entry>, start: int, sla: int, longest: nat)
    requires forall e | e in log && InWindow(e, start) && WaitOf(e).Some? :: WaitOf(e).value <= longest
    ensures Gathered(log, start, sla).waitSum <= Times(Gathered(log, start, sla).answered, longest)
  {
    if log != [] {
      WaitsAddUp(log[..|log| - 1], start, sla, longest);
      assert log[|log| - 1] in log;
    }
  }

  lemma Quotient(x: real, m: real, bound: real)
    requires m > 0.0 && x <= bound * m
    ensures x / m <= bound
  {
    var q := x / m;
    assert q * m == x;
    if q > bound {
      assert (q - bound) * m > 0.0;
      assert q * m - bound * m > 0.0;
    }
  }

  lemma ShareSum(a: nat, b: nat, n: nat)
    requires n > 0 && a + b <= n
    ensures 100.0 * a as real / n as real + 100.0 * b as real / n as real <= 100.0
  {
    var x, y, m := 100.0 * a as real, 100.0 * b as real, n as real;
    assert x + y <= 100.0 * m;
    Quotient(x + y, m, 100.0);
    assert x / m + y / m == (x + y) / m;
  }

  lemma AverageBelow(sum: int, n: nat, longest: nat)
    requires n > 0 && sum <= n * longest
    ensures Seconds(sum) / n as real <= Seconds(longest)
  {
    var s, m, l, sec := sum as real, n as real, longest as real, SECOND as real;
    assert s <= l * m;
    Quotient(s, sec, l / sec * m) by {
      assert l / sec * m * sec == l * m;
    }
    Quotient(s / sec, m, l / sec);
  }

  /**
   Service level and abandon rate together are at most all calls, and the average answer is no
   slower than the longest wait.
   */
  lemma Bounds(active: Calls, log: seq<Entry>, now: int, start: int, sla: int)
    ensures var out := Figured(active, log, now, start, sla);
      var longest := LongestWith(active, now, LongestIn(log, start));
      && (out.serviceLevelPct.Some? <==> out.offered > 0) && (out.abandonRatePct.Some? <==> out.offered > 0)
      && (out.offered > 0 ==> out.serviceLevelPct.value + out.abandonRatePct.value <= 100.0)
      && (out.asaSecs.Some? ==> out.asaSecs.value <= Seconds(longest))
      && out.longestWaitSecs == longest / SECOND
  {
    var longest := LongestWith(active, now, LongestIn(log, start));
    LongestIsGreatest(active, log, now, start);
    var t := Gathered(log, start, sla);
    MetAmongAnswered(log, start, sla);
    if t.answered + t.abandoned > 0 {
      ShareSum(t.met, t.abandoned, t.answered + t.abandoned);
    }
    forall e | e in log && InWindow(e, start) && WaitOf(e).Some? ensures WaitOf(e).value <= longest {
      assert Counts(log, active, now, start, WaitOf(e).value);
    }
    WaitsAddUp(log, start, sla, longest);
    TimesIsProduct(t.answered, longest);
    if t.answered > 0 {
      AverageBelow(t.waitSum, t.answered, longest);
    }
  }

  // ---------------------------------------------------------------------------
  // What the figures do not depend on
  // ---------------------------------------------------------------------------

  lemma {:induction false} GatheredWithout(log: seq<Entry>, i: nat, start: int, sla: int)
    requires i < |log|
    ensures Gathered(log, start, sla) ==
      Plus(Gathered(log[..i] + log[i + 1..], start, sla), TallyOf(log[i], start, sla))
    decreases |log|
  {
    var rest := log[..i] + log[i + 1..];
    if i == |log| - 1 {
      assert rest == log[..i];
    } else {
      var front := log[..|log| - 1];
      var less := front[..i] + front[i + 1..];
      var last := TallyOf(log[|log| - 1], start, sla);
      GatheredWithout(front, i, start, sla);
      assert rest[..|rest| - 1] == less && rest[|rest| - 1] == log[|log| - 1];
      assert Gathered(rest, start, sla) == Plus(Gathered(less, start, sla), last);
      PlusSwap(Gathered(less, start, sla), TallyOf(log[i], start, sla), last);
    }
  }

  lemma PlusSwap(a: Tally, b: Tally, c: Tally)
    ensures Plus(Plus(a, b), c) == Plus(Plus(a, c), b)
  {
  }

  lemma TakeOut<T>(s: seq<T>, i: nat)
    requires i < |s|
    ensures multiset(s) == multiset(s[..i] + s[i + 1..]) + multiset{s[i]}
  {
    assert s == s[..i] + [s[i]] + s[i + 1..];
  }

  lemma {:induction false} GatheredPermuted(a: seq<Entry>, b: seq<Entry>, start: int, sla: int)
    requires multiset(a) == multiset(b)
    ensures Gathered(a, start, sla) == Gathered(b, start, sla)
    decreases |b|
  {
    if b == [] {
      assert |multiset(a)| == 0;
    } else {
      var last := b[|b| - 1];
      var front := b[..|b| - 1];
      assert b == front + [last];
      assert last in multiset(a);
      var i :| 0 <= i < |a| && a[i] == last;
      var rest := a[..i] + a[i + 1..];
      TakeOut(a, i);
      assert multiset(b) == multiset(front) + multiset{last};
      assert multiset(rest) == multiset(a) - multiset{last};
      assert multiset(front) == multiset(b) - multiset{last};
      GatheredPermuted(rest, front, start, sla);
      GatheredWithout(a, i, start, sla);
    }
  }

  /** The entries that are in the window, in order. */
  function Recent(log: seq<Entry>, start: int): (r: seq<Entry>)
    ensures forall e :: e in r <==> e in log && InWindow(e, start)
  {
    if log == [] then []
    else
      var last := log[|log| - 1];
      assert log == log[..|log| - 1] + [last];
      Recent(log[..|log| - 1], start) + if InWindow(last, start) then [last] else []
  }

  lemma {:induction false} GatheredRecent(log: seq<Entry>, start: int, sla: int)
    ensures Gathered(Recent(log, start), start, sla) == Gathered(log, start, sla)
  {
    if log != [] {
      var before := Recent(log[..|log| - 1], start);
      GatheredRecent(log[..|log| - 1], start, sla);
      var last := log[|log| - 1];
      if InWindow(last, start) {
        assert (before + [last])[..|before|] == before;
      } else {
        assert before + [] == before;
      }
    }
  }

  lemma SameLongest(active: Calls, active2: Calls, log: seq<Entry>, log2: seq<Entry>, now: int, start: int)
    requires forall e :: e in log && InWindow(e, start) <==> e in log2 && InWindow(e, start)
    requires forall c :: c in active <==> c in active2
    ensures LongestWith(active, now, LongestIn(log, start)) == LongestWith(active2, now, LongestIn(log2, start))
  {
    LongestIsGreatest(active, log, now, start);
    LongestIsGreatest(active2, log2, now, start);
    var longest := LongestWith(active, now, LongestIn(log, start));
    forall wait ensures Counts(log, active, now, start, wait) <==> Counts(log2, active2, now, start, wait) {
    }
    assert IsLongest(log2, active2, now, start, longest);
  }

  /** Neither the order of the log nor that of the calls matters. */
  lemma OrderIsIrrelevant(active: Calls, active2: Calls, log: seq<Entry>, log2: seq<Entry>, now: int, start: int,
      sla: int)
    requires multiset(active) == multiset(active2) && multiset(log) == multiset(log2)
    ensures Figured(active, log, now, start, sla) == Figured(active2, log2, now, start, sla)
  {
    GatheredPermuted(log, log2, start, sla);
    assert forall e :: e in multiset(log) <==> e in multiset(log2);
    assert forall c :: c in multiset(active) <==> c in multiset(active2);
    assert forall e :: e in log <==> e in multiset(log);
    assert forall e :: e in log2 <==> e in multiset(log2);
    assert forall c :: c in active <==> c in multiset(active);
    assert forall c :: c in active2 <==> c in multiset(active2);
    SameLongest(active, active2, log, log2, now, start);
  }

  /** Nor do entries that ended before the window. */
  lemma OldEntriesAreIrrelevant(active: Calls, log: seq<Entry>, now: int, start: int, sla: int)
    ensures Figured(active, Recent(log, start), now, start, sla) == Figured(active, log, now, start, sla)
  {
    GatheredRecent(log, start, sla);
    SameLongest(active, active, Recent(log, start), log, now, start);
  }

  // ---------------------------------------------------------------------------
  // What the figures count
  // ---------------------------------------------------------------------------

  /** The entries of the log, by index, that ended in the window with this outcome. */
  ghost function Ended(log: seq<Entry>, start: int, outcome: Outcome): set<nat> {
    set i: nat | i < |log| && log[i].endedAt >= start && log[i].outcome == outcome
  }

  /** Those answered within the threshold. */
  ghost function AnsweredInTime(log: seq<Entry>, start: int, sla: int): set<nat> {
    set i: nat | i in Ended(log, start, Answered) && log[i].answeredAt - log[i].startedAt <= sla
  }

  function Total(numbers: seq<int>): int {
    if numbers == [] then 0 else Total(numbers[..|numbers| - 1]) + numbers[|numbers| - 1]
  }

  /** How long the answered callers waited, entry by entry. */
  ghost function Waits(log: seq<Entry>, start: int): seq<int> {
    seq(|log|, i requires 0 <= i < |log| =>
      if i in Ended(log, start, Answered) then log[i].answeredAt - log[i].startedAt else 0)
  }

  /** How long their calls then took. */
  ghost function Talks(log: seq<Entry>, start: int): seq<int> {
    seq(|log|, i requires 0 <= i < |log| =>
      if i in Ended(log, start, Answered) then log[i].endedAt - log[i].answeredAt else 0)
  }

  lemma OneMoreEnded(log: seq<Entry>, e: Entry, start: int, outcome: Outcome)
    ensures Ended(log + [e], start, outcome) ==
      Ended(log, start, outcome) + if e.endedAt >= start && e.outcome == outcome then {|log|} else {}
  {
    assert forall i: nat | i < |log| :: (log + [e])[i] == log[i];
  }

  lemma OneMoreInTime(log: seq<Entry>, e: Entry, start: int, sla: int)
    ensures AnsweredInTime(log + [e], start, sla) == AnsweredInTime(log, start, sla) +
      if e.endedAt >= start && e.outcome == Answered && e.answeredAt - e.startedAt <= sla then {|log|} else {}
  {
    OneMoreEnded(log, e, start, Answered);
    assert forall i: nat | i < |log| :: (log + [e])[i] == log[i];
  }

  lemma OneMoreTime(log: seq<Entry>, e: Entry, start: int)
    ensures var counts := e.endedAt >= start && e.outcome == Answered;
      && Waits(log + [e], start) == Waits(log, start) + [if counts then e.answeredAt - e.startedAt else 0]
      && Talks(log + [e], start) == Talks(log, start) + [if counts then e.endedAt - e.answeredAt else 0]
  {
    OneMoreEnded(log, e, start, Answered);
  }

  lemma TotalOneMore(numbers: seq<int>, n: int)
    ensures Total(numbers + [n]) == Total(numbers) + n
  {
    assert (numbers + [n])[..|numbers|] == numbers;
  }

  /** What is gathered from a log is how many there are, and the sums of their times. */
  lemma {:induction false} GatheredCounts(log: seq<Entry>, start: int, sla: int)
    ensures var t := Gathered(log, start, sla);
      && t.answered == |Ended(log, start, Answered)| && t.abandoned == |Ended(log, start, Abandoned)|
      && t.met == |AnsweredInTime(log, start, sla)|
      && t.waitSum == Total(Waits(log, start)) && t.handleSum == Total(Talks(log, start))
  {
    if log == [] {
      assert Ended(log, start, Answered) == {} && Ended(log, start, Abandoned) == {};
      assert AnsweredInTime(log, start, sla) == {};
    } else {
      var front, e := log[..|log| - 1], log[|log| - 1];
      assert log == front + [e];
      GatheredCounts(front, start, sla);
      OneMoreEnded(front, e, start, Answered);
      OneMoreEnded(front, e, start, Abandoned);
      OneMoreInTime(front, e, start, sla);
      OneMoreTime(front, e, start);
      TotalOneMore(Waits(front, start), Waits(log, start)[|front|]);
      TotalOneMore(Talks(front, start), Talks(log, start)[|front|]);
    }
  }

  /** Shares of all that were offered, and averages over those answered, if there are any. */
  lemma SharesAndAverages(t: Tally, longest: nat)
    ensures var out := FiguresOf(t, longest);
      var offered := t.answered + t.abandoned;
      && out.answered == t.answered && out.abandoned == t.abandoned && out.offered == offered
      && out.serviceLevelPct == (if offered == 0 then None else Some(100.0 * t.met as real / offered as real))
      && out.abandonRatePct == (if offered == 0 then None else Some(100.0 * t.abandoned as real / offered as real))
      && out.asaSecs == (if t.answered == 0 then None
                         else Some(t.waitSum as real / 1_000_000_000.0 / t.answered as real))
      && out.ahtSecs == (if t.answered == 0 then None
                         else Some(t.handleSum as real / 1_000_000_000.0 / t.answered as real))
  {
  }

  /**
   The service level is the share of the callers offered that were answered in time, the abandon rate
   the share that gave up; the averages are over the answered ones; and without any there is no figure.
   */
  lemma FiguresMean(active: Calls, log: seq<Entry>, now: int, start: int, sla: int)
    ensures var out := Figured(active, log, now, start, sla);
      var answered, abandoned := |Ended(log, start, Answered)|, |Ended(log, start, Abandoned)|;
      var met, wait, talk := |AnsweredInTime(log, start, sla)|, Total(Waits(log, start)), Total(Talks(log, start));
      var offered := answered + abandoned;
      && out.answered == answered && out.abandoned == abandoned && out.offered == offered
      && out.serviceLevelPct == (if offered == 0 then None else Some(100.0 * met as real / offered as real))
      && out.abandonRatePct == (if offered == 0 then None else Some(100.0 * abandoned as real / offered as real))
      && out.asaSecs == (if answered == 0 then None else Some(wait as real / 1_000_000_000.0 / answered as real))
      && out.ahtSecs == (if answered == 0 then None else Some(talk as real / 1_000_000_000.0 / answered as real))
  {
    GatheredCounts(log, start, sla);
    SharesAndAverages(Gathered(log, start, sla), LongestWith(active, now, LongestIn(log, start)));
  }
}
