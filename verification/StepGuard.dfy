/**
 A walk from node to node under a guard of fifty steps (cmd/pbx/dialplan_engine.go),
 where some nodes start the count anew: when does it end, and how soon?

 What visiting a node does is a parameter here, the same for the whole walk.
 */
module StepGuard {
  import opened Options

  const MAX_STEPS := 50

  /** What visiting a node does: end the walk, go on with one more step, or go on with the count at zero. */
  datatype Move<+T> = Halt(stop: T) | Step(next: string) | Restart(next: string)

  type Moves<!T> = string -> Move<T>

  /** The walk, given up when it has visited `budget` nodes and is not over. */
  function Walk<T>(mv: Moves<T>, tooFar: T, id: string, step: nat, budget: nat): Option<T>
    decreases budget
  {
    if step > MAX_STEPS then Some(tooFar)
    else if budget == 0 then None
    else
      match mv(id)
      case Halt(stop) => Some(stop)
      case Step(next) => Walk(mv, tooFar, next, step + 1, budget - 1)
      case Restart(next) => Walk(mv, tooFar, next, 0, budget - 1)
  }

  /** The walk from a node comes to an end. */
  ghost predicate Ends<T>(mv: Moves<T>, tooFar: T, id: string) {
    exists budget :: Walk(mv, tooFar, id, 0, budget).Some?
  }

  /** `restarts` holds every node at which the count starts anew. */
  ghost predicate Covers<T>(mv: Moves<T>, restarts: set<string>) {
    forall id :: mv(id).Restart? ==> id in restarts
  }

  /** The first restarting node met from `id` within `n` further ordinary steps. */
  function NextRestart<T>(mv: Moves<T>, id: string, n: nat): Option<string>
    decreases n, id
  {
    match mv(id)
    case Halt(_) => None
    case Restart(_) => Some(id)
    case Step(next) => if n == 0 then None else NextRestart(mv, next, n - 1)
  }

  /** From one restarting node to the next that the step guard lets the walk reach. */
  function Hop<T>(mv: Moves<T>, id: string): Option<string> {
    if mv(id).Restart? then NextRestart(mv, mv(id).next, MAX_STEPS) else None
  }

  function Hops<T>(mv: Moves<T>, id: string, k: nat): Option<string>
    decreases k
  {
    if k == 0 then Some(id)
    else
      var before := Hops(mv, id, k - 1);
      if before.None? then None else Hop(mv, before.value)
  }

  /** No restarting node comes back to itself by such hops. */
  ghost predicate NoRestartLoop<T>(mv: Moves<T>) {
    forall id, k: nat | mv(id).Restart? && k > 0 :: Hops(mv, id, k) != Some(id)
  }

  lemma {:induction false} HopsAdd<T>(mv: Moves<T>, id: string, j: nat, k: nat)
    requires Hops(mv, id, j).Some?
    ensures Hops(mv, id, j + k) == Hops(mv, Hops(mv, id, j).value, k)
    decreases k
  {
    if k > 0 {
      HopsAdd(mv, id, j, k - 1);
    }
  }

  lemma {:induction false} NextRestartRestarts<T>(mv: Moves<T>, id: string, n: nat)
    requires NextRestart(mv, id, n).Some?
    ensures mv(NextRestart(mv, id, n).value).Restart?
    decreases n
  {
    if mv(id).Step? {
      NextRestartRestarts(mv, mv(id).next, n - 1);
    }
  }

  // ---------------------------------------------------------------------------
  // Without such a loop every walk ends, within a bound
  // ---------------------------------------------------------------------------

  ghost predicate HopsTo<T>(mv: Moves<T>, from: string, to: string) {
    exists k: nat :: Hops(mv, from, k) == Some(to)
  }

  /** Every node in `used` has restarted the count, and hops on to `last`. */
  ghost predicate Behind<T>(mv: Moves<T>, restarts: set<string>, used: set<string>, last: string) {
    && last in used && used <= restarts
    && (forall u | u in used :: mv(u).Restart? && HopsTo(mv, u, last))
  }

  lemma HopsToNext<T>(mv: Moves<T>, from: string, last: string, next: string) returns (k: nat)
    requires HopsTo(mv, from, last) && Hop(mv, last) == Some(next)
    ensures k > 0 && Hops(mv, from, k) == Some(next)
    ensures HopsTo(mv, from, next)
  {
    var j: nat :| Hops(mv, from, j) == Some(last);
    k := j + 1;
    assert Hops(mv, from, k) == Some(next);
  }

  /** Hopping on from `last` cannot come back to a used node. */
  lemma NextRestartIsNew<T>(mv: Moves<T>, restarts: set<string>, used: set<string>, last: string, next: string)
    requires NoRestartLoop(mv) && Covers(mv, restarts) && Behind(mv, restarts, used, last) &&
      Hop(mv, last) == Some(next)
    ensures next !in used && Behind(mv, restarts, used + {next}, next)
  {
    NextRestartRestarts(mv, mv(last).next, MAX_STEPS);
    forall u | u in used ensures u != next && HopsTo(mv, u, next) {
      var k := HopsToNext(mv, u, last, next);
    }
    assert Hops(mv, next, 0) == Some(next);
  }

  /** Node visits still possible: fifty-one for each restart to come, and what is left of this stretch. */
  function VisitsLeft(restarts: nat, used: nat, step: nat): nat
    requires used <= restarts && step <= MAX_STEPS + 1
  {
    (MAX_STEPS + 1) * (restarts - used) + (MAX_STEPS + 1 - step)
  }

  lemma SubsetSize<T>(a: set<T>, b: set<T>)
    requires a <= b
    ensures |a| <= |b|
  {
    assert b == a + (b - a);
  }

  /** With `step` steps counted since `last` restarted the count, the walk is at `id`. */
  ghost predicate Stretch<T>(mv: Moves<T>, last: string, id: string, step: nat) {
    step <= MAX_STEPS ==> Hop(mv, last) == NextRestart(mv, id, MAX_STEPS - step)
  }

  lemma StretchStarts<T>(mv: Moves<T>, id: string)
    requires mv(id).Restart?
    ensures Stretch(mv, id, mv(id).next, 0)
  {
  }

  /** By the restarts still to come, then the steps left: the walk ends within what VisitsLeft allows. */
  lemma {:induction false} StretchEnds<T>(mv: Moves<T>, tooFar: T, restarts: set<string>, id: string, step: nat,
      used: set<string>, last: string)
    requires NoRestartLoop(mv) && Covers(mv, restarts) && Behind(mv, restarts, used, last)
    requires step <= MAX_STEPS + 1 && Stretch(mv, last, id, step)
    ensures |used| <= |restarts|
    ensures Walk(mv, tooFar, id, step, VisitsLeft(|restarts|, |used|, step)).Some?
    decreases |restarts| - |used|, MAX_STEPS + 1 - step
  {
    SubsetSize(used, restarts);
    if step <= MAX_STEPS {
      match mv(id)
      case Halt(_) =>
      case Step(next) =>
        StretchEnds(mv, tooFar, restarts, next, step + 1, used, last);
      case Restart(next) =>
        NextRestartIsNew(mv, restarts, used, last, id);
        RestartEnds(mv, tooFar, restarts, id, step, used);
    }
  }

  /** One restart costs at most the fifty-one visits that it was allowed. */
  lemma RestartIsPaidFor(restarts: nat, used: nat, step: nat)
    requires used < restarts && step <= MAX_STEPS
    ensures VisitsLeft(restarts, used + 1, 0) < VisitsLeft(restarts, used, step)
  {
  }

  lemma RestartStep<T>(mv: Moves<T>, tooFar: T, id: string, step: nat, enough: nat, allowed: nat)
    requires step <= MAX_STEPS && mv(id).Restart? && enough < allowed
    requires Walk(mv, tooFar, mv(id).next, 0, enough).Some?
    ensures Walk(mv, tooFar, id, step, allowed).Some?
  {
    WalkOnMore(mv, tooFar, mv(id).next, 0, enough, allowed - 1);
  }

  /** At a node that restarts the count for the first time. */
  lemma {:induction false} RestartEnds<T>(mv: Moves<T>, tooFar: T, restarts: set<string>, id: string, step: nat,
      used: set<string>)
    requires NoRestartLoop(mv) && Covers(mv, restarts) && Behind(mv, restarts, used + {id}, id)
    requires step <= MAX_STEPS && mv(id).Restart? && id !in used
    ensures |used| <= |restarts|
    ensures Walk(mv, tooFar, id, step, VisitsLeft(|restarts|, |used|, step)).Some?
    decreases |restarts| - |used|, 0
  {
    SubsetSize(used + {id}, restarts);
    StretchStarts(mv, id);
    StretchEnds(mv, tooFar, restarts, mv(id).next, 0, used + {id}, id);
    RestartIsPaidFor(|restarts|, |used|, step);
    RestartStep(mv, tooFar, id, step, VisitsLeft(|restarts|, |used| + 1, 0), VisitsLeft(|restarts|, |used|, step));
  }

  /** A larger budget changes nothing once the walk is over. */
  lemma {:induction false} WalkOnMore<T>(mv: Moves<T>, tooFar: T, id: string, step: nat, budget: nat, more: nat)
    requires budget <= more && Walk(mv, tooFar, id, step, budget).Some?
    ensures Walk(mv, tooFar, id, step, more) == Walk(mv, tooFar, id, step, budget)
    decreases budget
  {
    if step <= MAX_STEPS {
      match mv(id)
      case Halt(_) =>
      case Step(next) => WalkOnMore(mv, tooFar, next, step + 1, budget - 1, more - 1);
      case Restart(next) => WalkOnMore(mv, tooFar, next, 0, budget - 1, more - 1);
    }
  }

  /** The stretch before the first restart. */
  lemma {:induction false} FirstStretchEnds<T>(mv: Moves<T>, tooFar: T, restarts: set<string>, id: string, step: nat)
    requires NoRestartLoop(mv) && Covers(mv, restarts) && step <= MAX_STEPS + 1
    ensures Walk(mv, tooFar, id, step, VisitsLeft(|restarts|, 0, step)).Some?
    decreases MAX_STEPS + 1 - step
  {
    if step <= MAX_STEPS {
      match mv(id)
      case Halt(_) =>
      case Step(next) =>
        FirstStretchEnds(mv, tooFar, restarts, next, step + 1);
      case Restart(_) =>
        assert Hops(mv, id, 0) == Some(id);
        assert {} + {id} == {id};
        RestartEnds(mv, tooFar, restarts, id, step, {});
    }
  }

  /** Every walk ends within fifty-one node visits for each restarting node, and fifty-one more. */
  lemma WalkBound<T>(mv: Moves<T>, tooFar: T, restarts: set<string>, id: string)
    requires NoRestartLoop(mv) && Covers(mv, restarts)
    ensures Walk(mv, tooFar, id, 0, (MAX_STEPS + 1) * (|restarts| + 1)).Some?
  {
    FirstStretchEnds(mv, tooFar, restarts, id, 0);
  }

  // ---------------------------------------------------------------------------
  // With such a loop some walk never ends
  // ---------------------------------------------------------------------------

  lemma {:induction false} HopsPrefix<T>(mv: Moves<T>, id: string, j: nat, k: nat)
    requires j <= k && Hops(mv, id, k).Some?
    ensures Hops(mv, id, j).Some?
    decreases k
  {
    if j < k {
      HopsPrefix(mv, id, j, k - 1);
    }
  }

  lemma {:induction false} HopsForever<T>(mv: Moves<T>, id: string, k: nat, j: nat)
    requires k > 0 && Hops(mv, id, k) == Some(id)
    ensures Hops(mv, id, j).Some?
    decreases j
  {
    if j <= k {
      HopsPrefix(mv, id, j, k);
    } else {
      HopsForever(mv, id, k, j - k);
      HopsAdd(mv, id, k, j - k);
      assert k + (j - k) == j;
    }
  }

  /** Somewhere on a loop of hops: in the stretch that reaches its j-th restarting node. */
  ghost predicate OnLoop<T>(mv: Moves<T>, r: string, k: nat, j: nat, id: string, step: nat) {
    && k > 0 && Hops(mv, r, k) == Some(r)
    && step <= MAX_STEPS && Hops(mv, r, j).Some? && NextRestart(mv, id, MAX_STEPS - step) == Hops(mv, r, j)
  }

  lemma RestartOnLoop<T>(mv: Moves<T>, r: string, k: nat, j: nat, id: string, step: nat)
    requires OnLoop(mv, r, k, j, id, step) && mv(id).Restart?
    ensures OnLoop(mv, r, k, j + 1, mv(id).next, 0)
  {
    assert Hops(mv, r, j) == Some(id);
    HopsForever(mv, r, k, j + 1);
    assert Hops(mv, r, j + 1) == Hop(mv, id) == NextRestart(mv, mv(id).next, MAX_STEPS);
  }

  lemma StepOnLoop<T>(mv: Moves<T>, r: string, k: nat, j: nat, id: string, step: nat)
    requires OnLoop(mv, r, k, j, id, step) && !mv(id).Restart?
    ensures mv(id).Step? && OnLoop(mv, r, k, j, mv(id).next, step + 1)
  {
  }

  lemma {:induction false} LoopNeverEnds<T>(mv: Moves<T>, tooFar: T, r: string, k: nat, j: nat, id: string, step: nat,
      budget: nat)
    requires OnLoop(mv, r, k, j, id, step)
    ensures Walk(mv, tooFar, id, step, budget).None?
    decreases budget
  {
    if budget > 0 {
      if mv(id).Restart? {
        RestartOnLoop(mv, r, k, j, id, step);
        LoopNeverEnds(mv, tooFar, r, k, j + 1, mv(id).next, 0, budget - 1);
      } else {
        StepOnLoop(mv, r, k, j, id, step);
        LoopNeverEnds(mv, tooFar, r, k, j, mv(id).next, step + 1, budget - 1);
      }
    }
  }

  /**
   The step guard is enough exactly when no restarting node is back at itself
   within its reach: then every walk ends, otherwise some walk never does.
   */
  lemma WalksEndIff<T>(mv: Moves<T>, tooFar: T, restarts: set<string>)
    requires Covers(mv, restarts)
    ensures (forall id :: Ends(mv, tooFar, id)) <==> NoRestartLoop(mv)
  {
    if NoRestartLoop(mv) {
      forall id ensures Ends(mv, tooFar, id) {
        WalkBound(mv, tooFar, restarts, id);
      }
    } else {
      var r, k: nat :| mv(r).Restart? && k > 0 && Hops(mv, r, k) == Some(r);
      assert NextRestart(mv, r, MAX_STEPS) == Some(r) == Hops(mv, r, 0);
      forall budget ensures Walk(mv, tooFar, r, 0, budget).None? {
        LoopNeverEnds(mv, tooFar, r, k, 0, r, 0, budget);
      }
      assert !Ends(mv, tooFar, r);
    }
  }

  // ---------------------------------------------------------------------------
  // A condition that can be seen in the graph
  // ---------------------------------------------------------------------------

  function Follows<T>(mv: Moves<T>, id: string, k: nat): Option<string>
    decreases k
  {
    if k == 0 then Some(id)
    else if mv(id).Halt? then None
    else Follows(mv, mv(id).next, k - 1)
  }

  /** No restarting node lies on a cycle. */
  ghost predicate NoRestartOnCycle<T>(mv: Moves<T>) {
    forall id, k: nat | mv(id).Restart? && k > 0 :: Follows(mv, id, k) != Some(id)
  }

  lemma {:induction false} FollowsAdd<T>(mv: Moves<T>, id: string, j: nat, k: nat)
    requires Follows(mv, id, j).Some?
    ensures Follows(mv, id, j + k) == Follows(mv, Follows(mv, id, j).value, k)
    decreases j
  {
    if j > 0 {
      FollowsAdd(mv, mv(id).next, j - 1, k);
    }
  }

  lemma {:induction false} NextRestartFollows<T>(mv: Moves<T>, id: string, n: nat) returns (k: nat)
    requires NextRestart(mv, id, n).Some?
    ensures Follows(mv, id, k) == NextRestart(mv, id, n)
    decreases n
  {
    if mv(id).Restart? {
      k := 0;
    } else {
      k := NextRestartFollows(mv, mv(id).next, n - 1);
      k := k + 1;
    }
  }

  lemma {:induction false} HopsFollow<T>(mv: Moves<T>, id: string, k: nat) returns (m: nat)
    requires k > 0 && Hops(mv, id, k).Some?
    ensures m > 0 && Follows(mv, id, m) == Hops(mv, id, k)
    decreases k
  {
    var before := Hops(mv, id, k - 1).value;
    var n := NextRestartFollows(mv, mv(before).next, MAX_STEPS);
    assert Follows(mv, before, n + 1) == Hops(mv, id, k);
    m := n + 1;
    if k > 1 {
      var j := HopsFollow(mv, id, k - 1);
      FollowsAdd(mv, id, j, n + 1);
      m := j + (n + 1);
    }
  }

  /** If no restarting node lies on a cycle, every walk ends within the bound. */
  lemma AcyclicRestartsEnd<T>(mv: Moves<T>, tooFar: T, restarts: set<string>, id: string)
    requires NoRestartOnCycle(mv) && Covers(mv, restarts)
    ensures Walk(mv, tooFar, id, 0, (MAX_STEPS + 1) * (|restarts| + 1)).Some?
  {
    forall r, k: nat | mv(r).Restart? && k > 0 ensures Hops(mv, r, k) != Some(r) {
      if Hops(mv, r, k) == Some(r) {
        var m := HopsFollow(mv, r, k);
      }
    }
    WalkBound(mv, tooFar, restarts, id);
  }

  // ---------------------------------------------------------------------------
  // Walks as paths
  // ---------------------------------------------------------------------------

  /** A node on the way, and the steps counted when the walk comes to it. */
  datatype Visit = Visit(id: string, step: nat)

  predicate GoesTo<T>(mv: Moves<T>, v: Visit, w: Visit) {
    && v.step <= MAX_STEPS
    && match mv(v.id)
       case Halt(_) => false
       case Step(next) => w == Visit(next, v.step + 1)
       case Restart(next) => w == Visit(next, 0)
  }

  predicate OverAt<T(==)>(mv: Moves<T>, tooFar: T, v: Visit, stop: T) {
    if v.step > MAX_STEPS then stop == tooFar else mv(v.id) == Halt(stop)
  }

  /** How many nodes a path visits: all but one that is a step too far. */
  function Visited(path: seq<Visit>): nat
    requires path != []
  {
    if path[|path| - 1].step > MAX_STEPS then |path| - 1 else |path|
  }

  predicate Leads<T(==)>(mv: Moves<T>, tooFar: T, path: seq<Visit>, from: Visit, budget: nat, stop: T) {
    && path != [] && path[0] == from && (forall i | 0 <= i < |path| - 1 :: GoesTo(mv, path[i], path[i + 1]))
    && OverAt(mv, tooFar, path[|path| - 1], stop) && Visited(path) <= budget
  }

  lemma LeadsOn<T>(mv: Moves<T>, tooFar: T, path: seq<Visit>, from: Visit, budget: nat, stop: T)
    requires Leads(mv, tooFar, path, from, budget, stop) && |path| > 1
    ensures budget > 0 && GoesTo(mv, from, path[1]) && Leads(mv, tooFar, path[1..], path[1], budget - 1, stop)
  {
    assert GoesTo(mv, path[0], path[1]);
    forall i | 0 <= i < |path| - 2 ensures GoesTo(mv, path[1..][i], path[1..][i + 1]) {
      assert path[1..][i] == path[i + 1] && path[1..][i + 1] == path[i + 2];
    }
    assert path[1..][|path| - 2] == path[|path| - 1];
  }

  lemma LeadsBack<T>(mv: Moves<T>, tooFar: T, rest: seq<Visit>, from: Visit, to: Visit, budget: nat, stop: T)
    requires Leads(mv, tooFar, rest, to, budget, stop) && GoesTo(mv, from, to)
    ensures Leads(mv, tooFar, [from] + rest, from, budget + 1, stop)
  {
    var path := [from] + rest;
    forall i | 0 <= i < |path| - 1 ensures GoesTo(mv, path[i], path[i + 1]) {
      if i > 0 {
        assert path[i] == rest[i - 1] && path[i + 1] == rest[i];
      }
    }
  }

  lemma {:induction false} WalkHasPath<T>(mv: Moves<T>, tooFar: T, id: string, step: nat, budget: nat, stop: T)
    returns (path: seq<Visit>)
    requires Walk(mv, tooFar, id, step, budget) == Some(stop)
    ensures Leads(mv, tooFar, path, Visit(id, step), budget, stop)
    decreases budget
  {
    path := [Visit(id, step)];
    if step <= MAX_STEPS {
      match mv(id)
      case Halt(_) =>
      case Step(next) =>
        var rest := WalkHasPath(mv, tooFar, next, step + 1, budget - 1, stop);
        LeadsBack(mv, tooFar, rest, Visit(id, step), Visit(next, step + 1), budget - 1, stop);
        path := path + rest;
      case Restart(next) =>
        var rest := WalkHasPath(mv, tooFar, next, 0, budget - 1, stop);
        LeadsBack(mv, tooFar, rest, Visit(id, step), Visit(next, 0), budget - 1, stop);
        path := path + rest;
    }
  }

  lemma {:induction false} PathIsWalked<T>(mv: Moves<T>, tooFar: T, path: seq<Visit>, from: Visit, budget: nat, stop: T)
    requires Leads(mv, tooFar, path, from, budget, stop)
    ensures Walk(mv, tooFar, from.id, from.step, budget) == Some(stop)
    decreases |path|
  {
    if |path| > 1 {
      LeadsOn(mv, tooFar, path, from, budget, stop);
      PathIsWalked(mv, tooFar, path[1..], path[1], budget - 1, stop);
    }
  }

  /** Whether the walk leaves a node that is marked so. */
  function LeavesMarked<T>(mv: Moves<T>, marked: string -> bool, id: string, step: nat, budget: nat): bool
    decreases budget
  {
    if step > MAX_STEPS || budget == 0 then false
    else
      match mv(id)
      case Halt(_) => false
      case Step(next) => marked(id) || LeavesMarked(mv, marked, next, step + 1, budget - 1)
      case Restart(next) => marked(id) || LeavesMarked(mv, marked, next, 0, budget - 1)
  }

  /** Such a node stands on the path, before its end. */
  predicate PassesMarked(marked: string -> bool, path: seq<Visit>) {
    exists i | 0 <= i < |path| - 1 :: marked(path[i].id)
  }

  lemma PassedLater(marked: string -> bool, path: seq<Visit>)
    requires |path| > 1
    ensures PassesMarked(marked, path) <==> marked(path[0].id) || PassesMarked(marked, path[1..])
  {
    if PassesMarked(marked, path) {
      var i :| 0 <= i < |path| - 1 && marked(path[i].id);
      if i > 0 {
        assert path[1..][i - 1] == path[i];
      }
    }
    if i :| 0 <= i < |path[1..]| - 1 && marked(path[1..][i].id) {
      assert path[i + 1] == path[1..][i];
    }
  }

  lemma {:induction false} LeavesMarkedIff<T>(mv: Moves<T>, tooFar: T, marked: string -> bool, path: seq<Visit>,
      from: Visit, budget: nat, stop: T)
    requires Leads(mv, tooFar, path, from, budget, stop)
    ensures LeavesMarked(mv, marked, from.id, from.step, budget) <==> PassesMarked(marked, path)
    decreases |path|
  {
    if |path| > 1 {
      LeadsOn(mv, tooFar, path, from, budget, stop);
      LeavesMarkedIff(mv, tooFar, marked, path[1..], path[1], budget - 1, stop);
      PassedLater(marked, path);
    }
  }
}
