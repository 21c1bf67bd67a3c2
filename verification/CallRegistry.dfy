/**
 The registry of calls (cmd/contact-centre/registry.go): calls in ringing order, each
 queued one with its place in the queue, and the subscribers to be told of a change.
 */
module CallRegistry {
  datatype State = Ringing | Queued | InCall

  datatype CallView = CallView(
    leg: string, caller: string, callee: string, state: State, position: nat, startedAt: int, room: string,
    agentID: string, agentName: string, agentLeg: string, answeredAt: int, onHold: bool, music: string,
      transferredFrom: string)

  type Calls = seq<CallView>

  /** The first call with this leg, or past the end. */
  function IndexOf(calls: Calls, leg: string): (i: nat)
    ensures i <= |calls|
    ensures i < |calls| ==> calls[i].leg == leg
    ensures forall j | 0 <= j < i :: calls[j].leg != leg
  {
    if calls == [] || calls[0].leg == leg then 0
    else
      var rest := IndexOf(calls[1..], leg);
      assert forall j | 0 < j < rest + 1 :: calls[j] == calls[1..][j - 1];
      rest + 1
  }

  predicate IsQueued(c: CallView) {
    c.state == Queued
  }

  /** How many of the calls are queued. */
  function QueuedIn(calls: Calls): nat {
    if calls == [] then 0
    else QueuedIn(calls[..|calls| - 1]) + if IsQueued(calls[|calls| - 1]) then 1 else 0
  }

  /** The place in the queue: the 1-based rank among the queued calls, 0 for any other call. */
  function Rank(calls: Calls, i: nat): nat
    requires i < |calls|
  {
    if IsQueued(calls[i]) then QueuedIn(calls[..i + 1]) else 0
  }

  ghost predicate Ranked(calls: Calls) {
    forall i: nat | i < |calls| :: calls[i].position == Rank(calls, i)
  }

  ghost predicate Distinct(calls: Calls) {
    forall i, j | 0 <= i < j < |calls| :: calls[i].leg != calls[j].leg
  }

  /** Every call at its rank; nothing else changes. */
  function AssignPositions(calls: Calls): (r: Calls)
    ensures |r| == |calls|
    ensures forall i: nat | i < |calls| :: r[i] == calls[i].(position := Rank(calls, i))
  {
    seq(|calls|, i requires 0 <= i < |calls| => calls[i].(position := Rank(calls, i)))
  }

  // ---------------------------------------------------------------------------
  // The operations: the calls afterwards, and whether subscribers are told
  // ---------------------------------------------------------------------------

  datatype Op =
    | AddRinging(leg: string, caller: string, callee: string, at: int)
    | MarkQueued(leg: string, room: string)
    | Claim(leg: string, agentID: string, agentName: string, agentLeg: string, at: int)
    | SetHold(leg: string, onHold: bool, music: string)
    | TransferTo(leg: string, agentID: string, agentName: string, agentLeg: string)
    | Remove(leg: string)
    | NotifyChanged

  function NewCall(leg: string, caller: string, callee: string, at: int): CallView {
    CallView(leg, caller, callee, Ringing, 0, at, "", "", "", "", 0, false, "", "")
  }

  function Enqueued(calls: Calls, leg: string, room: string): Calls {
    var i := IndexOf(calls, leg);
    if i == |calls| then calls else calls[i := calls[i].(state := Queued, room := room)]
  }

  predicate CanClaim(calls: Calls, leg: string) {
    var i := IndexOf(calls, leg);
    i < |calls| && IsQueued(calls[i])
  }

  function Claimed(calls: Calls, leg: string, agentID: string, agentName: string, agentLeg: string, at: int): Calls
    requires CanClaim(calls, leg)
  {
    var i := IndexOf(calls, leg);
    calls[i := calls[i].(state := InCall, agentID := agentID, agentName := agentName, agentLeg := agentLeg,
      answeredAt := at)]
  }

  function Without(calls: Calls, leg: string): Calls {
    var i := IndexOf(calls, leg);
    if i == |calls| then calls else calls[..i] + calls[i + 1..]
  }

  function HandedTo(c: CallView, agentID: string, agentName: string, agentLeg: string): CallView {
    c.(transferredFrom := if c.agentName != "" then c.agentName else c.transferredFrom,
       agentID := agentID, agentName := agentName, agentLeg := agentLeg, onHold := false, music := "")
  }

  predicate CanSetHold(calls: Calls, leg: string, onHold: bool) {
    var i := IndexOf(calls, leg);
    i < |calls| && calls[i].onHold != onHold
  }

  function Apply(calls: Calls, op: Op): Calls {
    match op
    case AddRinging(leg, caller, callee, at) => calls + [NewCall(leg, caller, callee, at)]
    case MarkQueued(leg, room) => AssignPositions(Enqueued(calls, leg, room))
    case Claim(leg, agentID, agentName, agentLeg, at) =>
      if CanClaim(calls, leg) then AssignPositions(Claimed(calls, leg, agentID, agentName, agentLeg, at)) else calls
    case SetHold(leg, onHold, music) =>
      var i := IndexOf(calls, leg);
      if CanSetHold(calls, leg, onHold) then calls[i := calls[i].(onHold := onHold, music := music)] else calls
    case TransferTo(leg, agentID, agentName, agentLeg) =>
      var i := IndexOf(calls, leg);
      if i < |calls| then calls[i := HandedTo(calls[i], agentID, agentName, agentLeg)] else calls
    case Remove(leg) => AssignPositions(Without(calls, leg))
    case NotifyChanged => calls
  }

  predicate Broadcasts(calls: Calls, op: Op) {
    match op
    case Claim(leg, _, _, _, _) => CanClaim(calls, leg)
    case SetHold(leg, onHold, _) => CanSetHold(calls, leg, onHold)
    case TransferTo(leg, _, _, _) => IndexOf(calls, leg) < |calls|
    case _ => true
  }

  // ---------------------------------------------------------------------------
  // Places in the queue
  // ---------------------------------------------------------------------------

  /** Counting sees nothing but who is queued. */
  lemma {:induction false} QueuedInSame(a: Calls, b: Calls)
    requires |a| == |b| && forall i | 0 <= i < |a| :: IsQueued(a[i]) == IsQueued(b[i])
    ensures QueuedIn(a) == QueuedIn(b)
  {
    if a != [] {
      QueuedInSame(a[..|a| - 1], b[..|b| - 1]);
    }
  }

  lemma SameRanks(a: Calls, b: Calls)
    requires |a| == |b| && forall i | 0 <= i < |a| :: IsQueued(a[i]) == IsQueued(b[i])
    ensures forall i: nat | i < |a| :: Rank(a, i) == Rank(b, i)
  {
    forall i: nat | i < |a| ensures Rank(a, i) == Rank(b, i) {
      QueuedInSame(a[..i + 1], b[..i + 1]);
    }
  }

  lemma AssignedAreRanked(calls: Calls)
    ensures Ranked(AssignPositions(calls))
  {
    SameRanks(calls, AssignPositions(calls));
  }

  lemma ApplyKeepsRanks(calls: Calls, op: Op)
    requires Ranked(calls)
    ensures Ranked(Apply(calls, op))
  {
    match op
    case AddRinging(leg, caller, callee, at) =>
      var all := Apply(calls, op);
      forall i: nat | i < |calls| ensures Rank(all, i) == Rank(calls, i) {
        assert all[..i + 1] == calls[..i + 1];
      }
    case MarkQueued(leg, room) => AssignedAreRanked(Enqueued(calls, leg, room));
    case Claim(leg, agentID, agentName, agentLeg, at) =>
      if CanClaim(calls, leg) {
        AssignedAreRanked(Claimed(calls, leg, agentID, agentName, agentLeg, at));
      }
    case SetHold(leg, onHold, music) => SameRanks(calls, Apply(calls, op));
    case TransferTo(leg, _, _, _) => SameRanks(calls, Apply(calls, op));
    case Remove(leg) => AssignedAreRanked(Without(calls, leg));
    case NotifyChanged =>
  }

  function Run(ops: seq<Op>): Calls
    decreases |ops|
  {
    if ops == [] then [] else Apply(Run(ops[..|ops| - 1]), ops[|ops| - 1])
  }

  /** After any operations every call stands at its rank among the queued calls, in ringing order. */
  lemma {:induction false} PlacesAreRanks(ops: seq<Op>)
    ensures Ranked(Run(ops))
    decreases |ops|
  {
    if ops != [] {
      PlacesAreRanks(ops[..|ops| - 1]);
      ApplyKeepsRanks(Run(ops[..|ops| - 1]), ops[|ops| - 1]);
    }
  }

  /** Changing one call's standing moves the count of every longer beginning by as much. */
  lemma {:induction false} CountAfterUpdate(calls: Calls, k: nat, c: CallView, n: nat)
    requires k < |calls| && n <= |calls|
    ensures QueuedIn(calls[k := c][..n]) ==
      QueuedIn(calls[..n]) + if k < n then (if IsQueued(c) then 1 else 0) - (if IsQueued(calls[k]) then 1 else 0) else 0
    decreases n
  {
    var changed := calls[k := c];
    if n > 0 {
      assert changed[..n][..n - 1] == changed[..n - 1] && calls[..n][..n - 1] == calls[..n - 1];
      CountAfterUpdate(calls, k, c, n - 1);
    }
  }

  lemma QueuedInLast(calls: Calls, n: nat)
    requires 0 < n <= |calls|
    ensures QueuedIn(calls[..n]) == QueuedIn(calls[..n - 1]) + if IsQueued(calls[n - 1]) then 1 else 0
  {
    assert calls[..n][..n - 1] == calls[..n - 1];
  }

  lemma {:induction false} CountWithout(calls: Calls, k: nat, n: nat)
    requires k < n <= |calls|
    ensures QueuedIn(Gap(calls, k)[..n - 1]) == QueuedIn(calls[..n]) - if IsQueued(calls[k]) then 1 else 0
    decreases n
  {
    var rest := Gap(calls, k);
    if n == k + 1 {
      QueuedInLast(calls, n);
      assert rest[..n - 1] == calls[..k];
    } else {
      CountWithout(calls, k, n - 1);
      QueuedInLast(calls, n);
      QueuedInLast(rest, n - 1);
      assert rest[n - 2] == calls[n - 1];
    }
  }

  lemma IndexOfDistinct(calls: Calls, k: nat)
    requires Distinct(calls) && k < |calls|
    ensures IndexOf(calls, calls[k].leg) == k
  {
  }

  /** The ranks once the k-th call, which was queued, no longer is. */
  lemma RankAfterClaim(calls: Calls, k: nat, c: CallView, i: nat)
    requires k < |calls| && i < |calls| && IsQueued(calls[k]) && !IsQueued(c)
    ensures Rank(calls[k := c], i) ==
      if i == k then 0 else if i > k && IsQueued(calls[i]) then Rank(calls, i) - 1 else Rank(calls, i)
  {
    CountAfterUpdate(calls, k, c, i + 1);
  }

  /** Claiming a queued call takes it out of the queue, and moves up by one exactly those queued behind it. */
  lemma ClaimMovesUp(calls: Calls, k: nat, agentID: string, agentName: string, agentLeg: string, at: int)
    requires Distinct(calls) && Ranked(calls) && k < |calls| && IsQueued(calls[k])
    ensures var after := Apply(calls, Claim(calls[k].leg, agentID, agentName, agentLeg, at));
      && |after| == |calls| && after[k].state == InCall && after[k].position == 0
      && forall i: nat | i < |calls| && i != k ::
           after[i] == calls[i].(position := if i > k && IsQueued(calls[i]) then calls[i].position - 1
             else calls[i].position)
  {
    var c := calls[k].(state := InCall, agentID := agentID, agentName := agentName, agentLeg := agentLeg,
      answeredAt := at);
    assert Apply(calls, Claim(calls[k].leg, agentID, agentName, agentLeg, at)) == AssignPositions(calls[k := c]) by {
      IndexOfDistinct(calls, k);
    }
    forall i: nat | i < |calls|
      ensures Rank(calls[k := c], i) ==
        if i == k then 0 else if i > k && IsQueued(calls[i]) then Rank(calls, i) - 1 else Rank(calls, i)
    {
      RankAfterClaim(calls, k, c, i);
    }
  }

  /** The calls without the k-th. */
  function Gap(calls: Calls, k: nat): (rest: Calls)
    requires k < |calls|
    ensures |rest| == |calls| - 1
    ensures forall i | 0 <= i < k :: rest[i] == calls[i]
    ensures forall i | k < i < |calls| :: rest[i - 1] == calls[i]
  {
    calls[..k] + calls[k + 1..]
  }

  lemma WithoutIsGap(calls: Calls, k: nat)
    requires k < |calls| && IndexOf(calls, calls[k].leg) == k
    ensures Without(calls, calls[k].leg) == Gap(calls, k)
  {
  }

  lemma RemoveLeavesGap(calls: Calls, k: nat)
    requires Distinct(calls) && k < |calls|
    ensures Apply(calls, Remove(calls[k].leg)) == AssignPositions(Gap(calls, k))
  {
    assert Without(calls, calls[k].leg) == Gap(calls, k) by {
      IndexOfDistinct(calls, k);
      WithoutIsGap(calls, k);
    }
  }

  lemma RankBefore(calls: Calls, k: nat, i: nat)
    requires i < k < |calls|
    ensures Rank(Gap(calls, k), i) == Rank(calls, i)
  {
    assert Gap(calls, k)[..i + 1] == calls[..i + 1];
  }

  lemma RankBehind(calls: Calls, k: nat, i: nat)
    requires k < i < |calls|
    ensures Rank(Gap(calls, k), i - 1) == if IsQueued(calls[k]) && IsQueued(calls[i]) then Rank(calls, i) - 1
      else Rank(calls, i)
  {
    CountWithout(calls, k, i + 1);
  }

  /** Removing a call closes the gap: exactly those queued behind a queued call move up, by one. */
  lemma RemoveMovesUp(calls: Calls, k: nat)
    requires Distinct(calls) && Ranked(calls) && k < |calls|
    ensures var after := Apply(calls, Remove(calls[k].leg));
      && |after| == |calls| - 1
      && (forall i: nat | i < k :: after[i] == calls[i])
      && forall i: nat | k < i < |calls| ::
           after[i - 1] ==
             calls[i].(position := if IsQueued(calls[k]) && IsQueued(calls[i]) then calls[i].position - 1
             else calls[i].position)
  {
    RemoveLeavesGap(calls, k);
    forall i: nat | i < k ensures Rank(Gap(calls, k), i) == Rank(calls, i) {
      RankBefore(calls, k, i);
    }
    forall i: nat | k < i < |calls|
      ensures Rank(Gap(calls, k), i - 1) == if IsQueued(calls[k]) && IsQueued(calls[i]) then Rank(calls, i) - 1
        else Rank(calls, i)
    {
      RankBehind(calls, k, i);
    }
  }

  /**
   A call that joins the queue stands behind those queued before it rang, and moves back by one
   exactly those queued that rang after it.
   */
  lemma QueueingMovesBack(calls: Calls, k: nat, room: string)
    requires Distinct(calls) && Ranked(calls) && k < |calls| && !IsQueued(calls[k])
    ensures var after := Apply(calls, MarkQueued(calls[k].leg, room));
      && |after| == |calls| && IsQueued(after[k]) && after[k].position == QueuedIn(calls[..k]) + 1
      && forall i: nat | i < |calls| && i != k ::
           after[i] == calls[i].(position := if i > k && IsQueued(calls[i]) then calls[i].position + 1
             else calls[i].position)
  {
    IndexOfDistinct(calls, k);
    var c := calls[k].(state := Queued, room := room);
    forall i: nat | i < |calls|
      ensures Rank(calls[k := c], i) ==
        if i == k then QueuedIn(calls[..k]) + 1 else if i > k && IsQueued(calls[i]) then Rank(calls, i) + 1
          else Rank(calls, i)
    {
      CountAfterUpdate(calls, k, c, i + 1);
      assert calls[..k + 1][..k] == calls[..k];
    }
  }

  // ---------------------------------------------------------------------------
  // What each operation writes
  // ---------------------------------------------------------------------------

  /** Everything about a call but its place in the queue. */
  predicate SameButPlace(a: CallView, b: CallView) {
    a == b.(position := a.position)
  }

  /** All other calls are there as before, but for their places. */
  ghost predicate OthersStay(before: Calls, after: Calls, k: nat) {
    |after| == |before| && forall i | 0 <= i < |before| && i != k :: SameButPlace(after[i], before[i])
  }

  /** A new call rings at the end of the list, with nobody on it. */
  lemma RingingWrites(calls: Calls, leg: string, caller: string, callee: string, at: int)
    ensures var after := Apply(calls, AddRinging(leg, caller, callee, at));
      && |after| == |calls| + 1 && after[..|calls|] == calls
      && var c := after[|calls|];
      && c.leg == leg && c.caller == caller && c.callee == callee && c.startedAt == at && c.state == Ringing
      && c.agentID == c.agentName == c.agentLeg == c.transferredFrom == c.room == c.music == "" && !c.onHold
  {
  }

  lemma QueueingWrites(calls: Calls, k: nat, room: string)
    requires Distinct(calls) && k < |calls|
    ensures var after := Apply(calls, MarkQueued(calls[k].leg, room));
      && OthersStay(calls, after, k) && after[k].state == Queued && after[k].room == room
      && SameButPlace(after[k], calls[k].(state := after[k].state, room := after[k].room))
  {
    IndexOfDistinct(calls, k);
  }

  /** A claim puts the agent on a queued call, and the time; any other call is not claimed. */
  lemma ClaimWrites(calls: Calls, k: nat, id: string, name: string, agentLeg: string, at: int)
    requires Distinct(calls) && k < |calls|
    ensures var after := Apply(calls, Claim(calls[k].leg, id, name, agentLeg, at));
      if calls[k].state != Queued then after == calls
      else
        && OthersStay(calls, after, k) && after[k].state == InCall
        && after[k].agentID == id && after[k].agentName == name && after[k].agentLeg == agentLeg
        && after[k].answeredAt == at && after[k].room == calls[k].room && after[k].onHold == calls[k].onHold
        && after[k].leg == calls[k].leg && after[k].caller == calls[k].caller && after[k].callee == calls[k].callee
        && after[k].startedAt == calls[k].startedAt && after[k].transferredFrom == calls[k].transferredFrom
  {
    IndexOfDistinct(calls, k);
  }

  /** A hand-over puts the new agent on the call and keeps the name of the last one, if there was one. */
  lemma HandOverWrites(calls: Calls, k: nat, id: string, name: string, agentLeg: string)
    requires Distinct(calls) && k < |calls|
    ensures var after := Apply(calls, TransferTo(calls[k].leg, id, name, agentLeg));
      && OthersStay(calls, after, k)
      && after[k].agentID == id && after[k].agentName == name && after[k].agentLeg == agentLeg
      && (calls[k].agentName != "" ==> after[k].transferredFrom == calls[k].agentName)
      && (calls[k].agentName == "" ==> after[k].transferredFrom == calls[k].transferredFrom)
      && !after[k].onHold && after[k].music == ""
      && after[k].state == calls[k].state && after[k].position == calls[k].position && after[k].room == calls[k].room
      && after[k].leg == calls[k].leg && after[k].caller == calls[k].caller && after[k].callee == calls[k].callee
      && after[k].startedAt == calls[k].startedAt && after[k].answeredAt == calls[k].answeredAt
  {
    IndexOfDistinct(calls, k);
  }

  /** Holding and resuming write the flag and the music; asking for what is so already writes nothing. */
  lemma HoldWrites(calls: Calls, k: nat, onHold: bool, music: string)
    requires Distinct(calls) && k < |calls|
    ensures var after := Apply(calls, SetHold(calls[k].leg, onHold, music));
      if calls[k].onHold == onHold then after == calls
      else
        && |after| == |calls| && (forall i | 0 <= i < |calls| && i != k :: after[i] == calls[i])
        && after[k].onHold == onHold && after[k].music == music
        && after[k] == calls[k].(onHold := after[k].onHold, music := after[k].music)
  {
    IndexOfDistinct(calls, k);
  }

  /** Telling the subscribers writes nothing. */
  lemma NotifyingWrites(calls: Calls)
    ensures Apply(calls, NotifyChanged) == calls
  {
  }

  /** An operation on a call that is not there changes no more than the places in the queue. */
  lemma UnknownCallWrites(calls: Calls, op: Op)
    requires !op.AddRinging? && !op.NotifyChanged? && forall i | 0 <= i < |calls| :: calls[i].leg != op.leg
    ensures OthersStay(calls, Apply(calls, op), |calls|)
  {
  }

  // ---------------------------------------------------------------------------
  // The registry itself
  // ---------------------------------------------------------------------------

  class Registry {
    var calls: Calls

    /** Every call stands at its rank among the queued calls. */
    ghost predicate Valid()
      reads this
    {
      Ranked(calls)
    }

    constructor ()
      ensures calls == []
      ensures Valid()
    {
      calls := [];
    }

    method Find(leg: string) returns (i: nat)
      ensures i == IndexOf(calls, leg)
    {
      i := 0;
      while i < |calls| && calls[i].leg != leg
        invariant i <= |calls| && forall j | 0 <= j < i :: calls[j].leg != leg
      {
        i := i + 1;
      }
    }

    method Assign()
      modifies this
      ensures calls == AssignPositions(old(calls))
    {
      ghost var was := calls;
      var pos := 0;
      var i := 0;
      while i < |calls|
        invariant i <= |calls| == |was|
        invariant pos == QueuedIn(was[..i])
        invariant forall j: nat | j < i :: calls[j] == was[j].(position := Rank(was, j))
        invariant forall j | i <= j < |was| :: calls[j] == was[j]
      {
        assert was[..i + 1][..i] == was[..i];
        if calls[i].state == Queued {
          pos := pos + 1;
          calls := calls[i := calls[i].(position := pos)];
        } else {
          calls := calls[i := calls[i].(position := 0)];
        }
        i := i + 1;
      }
      assert calls == AssignPositions(was);
    }

    method Add(leg: string, caller: string, callee: string, at: int)
      requires Valid()
      modifies this
      ensures calls == Apply(old(calls), AddRinging(leg, caller, callee, at))
      ensures Valid()
    {
      ApplyKeepsRanks(calls, AddRinging(leg, caller, callee, at));
      calls := calls + [NewCall(leg, caller, callee, at)];
    }

    method Queue(leg: string, room: string)
      requires Valid()
      modifies this
      ensures calls == Apply(old(calls), MarkQueued(leg, room))
      ensures Valid()
    {
      ApplyKeepsRanks(calls, MarkQueued(leg, room));
      var i := Find(leg);
      if i < |calls| {
        calls := calls[i := calls[i].(state := Queued, room := room)];
      }
      Assign();
    }

    method Take(leg: string, agentID: string, agentName: string, agentLeg: string, at: int) returns (ok: bool)
      requires Valid()
      modifies this
      ensures ok <==> CanClaim(old(calls), leg)
      ensures calls == Apply(old(calls), Claim(leg, agentID, agentName, agentLeg, at))
      ensures Valid()
    {
      ApplyKeepsRanks(calls, Claim(leg, agentID, agentName, agentLeg, at));
      var i := Find(leg);
      if i == |calls| || calls[i].state != Queued {
        return false;
      }
      calls := calls[i := calls[i].(state := InCall, agentID := agentID, agentName := agentName, agentLeg := agentLeg,
        answeredAt := at)];
      Assign();
      return true;
    }

    method HandOver(leg: string, agentID: string, agentName: string, agentLeg: string) returns (ok: bool)
      requires Valid()
      modifies this
      ensures ok <==> IndexOf(old(calls), leg) < |old(calls)|
      ensures calls == Apply(old(calls), TransferTo(leg, agentID, agentName, agentLeg))
      ensures Valid()
    {
      ApplyKeepsRanks(calls, TransferTo(leg, agentID, agentName, agentLeg));
      var i := Find(leg);
      if i == |calls| {
        return false;
      }
      var c := calls[i];
      if c.agentName != "" {
        c := c.(transferredFrom := c.agentName);
      }
      calls := calls[i := c.(agentID := agentID, agentName := agentName, agentLeg := agentLeg, onHold := false,
        music := "")];
      return true;
    }

    method Hold(leg: string, onHold: bool, music: string) returns (ok: bool)
      requires Valid()
      modifies this
      ensures ok <==> CanSetHold(old(calls), leg, onHold)
      ensures calls == Apply(old(calls), SetHold(leg, onHold, music))
      ensures Valid()
    {
      ApplyKeepsRanks(calls, SetHold(leg, onHold, music));
      var i := Find(leg);
      if i == |calls| || calls[i].onHold == onHold {
        return false;
      }
      calls := calls[i := calls[i].(onHold := onHold, music := music)];
      return true;
    }

    method Drop(leg: string)
      requires Valid()
      modifies this
      ensures calls == Apply(old(calls), Remove(leg))
      ensures Valid()
    {
      ApplyKeepsRanks(calls, Remove(leg));
      var i := Find(leg);
      if i < |calls| {
        calls := calls[..i] + calls[i + 1..];
      }
      Assign();
    }
  }
}
