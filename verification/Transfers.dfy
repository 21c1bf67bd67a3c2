/**
 The register of call transfers in flight (cmd/contact-centre/transfer.go): at most one
 for each call, and every change of state in one critical section.
 */
module Transfers {
  import opened Options

  datatype State = Ringing | Consulting | Completed | Failed | Cancelled

  datatype Kind = ToSupervisor | ToAgent | Unknown

  datatype Transfer = Transfer(
    id: string, call: string, room: string, from: string, kind: Kind, target: string,
    attended: bool, consultRoom: string, targetLeg: string, state: State)

  datatype Register = Register(byID: map<string, Transfer>, byCall: map<string, string>)

  const EMPTY := Register(map[], map[])

  predicate IsOver(s: State) {
    s.Completed? || s.Failed? || s.Cancelled?
  }

  function WithTransfer(r: Register, id: string, t: Transfer): Register {
    r.(byID := r.byID[id := t])
  }

  function StateOf(r: Register, id: string): Option<State> {
    if id in r.byID then Some(r.byID[id].state) else None
  }

  /** A new transfer, if its fields are there and the call has none in flight. */
  predicate Creates(r: Register, t: Transfer) {
    && t.call != "" && t.room != "" && t.from != "" && t.target != ""
    && !t.kind.Unknown?
    && t.call !in r.byCall
  }

  function Create(r: Register, t: Transfer): Register {
    if Creates(r, t) then Register(r.byID[t.id := t], r.byCall[t.call := t.id]) else r
  }

  predicate IsNew(t: Transfer) {
    t.state == Ringing && t.targetLeg == "" && t.consultRoom == if t.attended then "consult-" + t.id else ""
  }

  function ClaimAnswer(r: Register, id: string, leg: string): Register {
    if StateOf(r, id) == Some(Ringing) then
      var t := r.byID[id];
      WithTransfer(r, id, t.(targetLeg := leg, state := if t.attended then Consulting else Completed))
    else r
  }

  function Complete(r: Register, id: string): Register {
    if StateOf(r, id) == Some(Consulting) then WithTransfer(r, id, r.byID[id].(state := Completed)) else r
  }

  predicate CanEnd(r: Register, id: string) {
    StateOf(r, id) == Some(Ringing) || StateOf(r, id) == Some(Consulting)
  }

  /** Cancelled or failed: the same move into another state. */
  function End(r: Register, id: string, how: State): Register
    requires how == Cancelled || how == Failed
  {
    if CanEnd(r, id) then WithTransfer(r, id, r.byID[id].(state := how)) else r
  }

  function Settle(r: Register, id: string): Register {
    if id in r.byID then Register(r.byID - {id}, r.byCall - {r.byID[id].call}) else r
  }

  // ---------------------------------------------------------------------------
  // The two indexes
  // ---------------------------------------------------------------------------

  /** The two maps are each other's inverse. */
  ghost predicate Inverse(r: Register) {
    && (forall id | id in r.byID ::
      r.byID[id].id == id && r.byID[id].call in r.byCall && r.byCall[r.byID[id].call] == id)
    && (forall call | call in r.byCall :: r.byCall[call] in r.byID && r.byID[r.byCall[call]].call == call)
  }

  datatype Event =
    | Created(t: Transfer)
    | Claimed(id: string, leg: string)
    | Finished(id: string)
    | Ended(id: string, how: State)
    | Settled(id: string)

  function Next(r: Register, e: Event): Register {
    match e
    case Created(t) => Create(r, t)
    case Claimed(id, leg) => ClaimAnswer(r, id, leg)
    case Finished(id) => Complete(r, id)
    case Ended(id, how) => if how == Cancelled || how == Failed then End(r, id, how) else r
    case Settled(id) => Settle(r, id)
  }

  function Run(events: seq<Event>): Register
    decreases |events|
  {
    if events == [] then EMPTY else Next(Run(events[..|events| - 1]), events[|events| - 1])
  }

  /** A transfer is new when it is created, under an id never given out before. */
  predicate FreshIds(events: seq<Event>) {
    && (forall i | 0 <= i < |events| && events[i].Created? :: IsNew(events[i].t))
    && (forall i, j | 0 <= i < j < |events| && events[i].Created? && events[j].Created? ::
      events[i].t.id != events[j].t.id)
  }

  /** The state the i-th event brings a transfer to, if it brings one to its end. */
  function Outcome(events: seq<Event>, i: nat, id: string): Option<State>
    requires i < |events|
  {
    var was := StateOf(Run(events[..i]), id);
    var now := StateOf(Run(events[..i + 1]), id);
    if now.Some? && IsOver(now.value) && was != now then now else None
  }

  predicate GivenOut(events: seq<Event>, id: string) {
    exists i :: 0 <= i < |events| && events[i].Created? && events[i].t.id == id
  }

  lemma GivenOutBefore(events: seq<Event>, i: nat, j: nat, id: string)
    requires i <= j <= |events| && GivenOut(events[..i], id)
    ensures GivenOut(events[..j], id)
  {
    var k :| 0 <= k < i && events[..i][k].Created? && events[..i][k].t.id == id;
    assert events[..j][k] == events[..i][k];
  }

  lemma NewIdIsNew(events: seq<Event>, j: nat)
    requires FreshIds(events) && j < |events| && events[j].Created?
    ensures !GivenOut(events[..j], events[j].t.id)
  {
    forall k | 0 <= k < j && events[..j][k].Created? ensures events[..j][k].t.id != events[j].t.id {
      assert events[k] == events[..j][k];
    }
  }

  lemma NextInverse(r: Register, e: Event)
    requires Inverse(r)
    requires e.Created? ==> e.t.id !in r.byID
    ensures Inverse(Next(r, e))
  {
  }

  lemma NextKnows(r: Register, e: Event, id: string)
    requires id in Next(r, e).byID
    ensures id in r.byID || (e.Created? && e.t.id == id)
  {
  }

  lemma {:induction false} KnownWasGivenOut(events: seq<Event>, id: string)
    requires id in Run(events).byID
    ensures GivenOut(events, id)
    decreases |events|
  {
    if events != [] {
      var before := events[..|events| - 1];
      NextKnows(Run(before), events[|events| - 1], id);
      if id in Run(before).byID {
        KnownWasGivenOut(before, id);
        var i :| 0 <= i < |before| && before[i].Created? && before[i].t.id == id;
        assert events[i] == before[i];
      } else {
        assert events[|events| - 1].Created? && events[|events| - 1].t.id == id;
      }
    }
  }

  /** In every run the two indexes stay each other's inverse: so a call has at most one transfer in flight. */
  lemma {:induction false} IndexesStayInverse(events: seq<Event>)
    requires FreshIds(events)
    ensures Inverse(Run(events))
    decreases |events|
  {
    if events != [] {
      var before := events[..|events| - 1];
      var e := events[|events| - 1];
      IndexesStayInverse(before);
      if e.Created? {
        NewIdIsNew(events, |events| - 1);
        if e.t.id in Run(before).byID {
          KnownWasGivenOut(before, e.t.id);
        }
      }
      NextInverse(Run(before), e);
    }
  }

  // ---------------------------------------------------------------------------
  // One outcome
  // ---------------------------------------------------------------------------

  /** The transfer is over or settled, and stays so. */
  predicate Closed(r: Register, id: string) {
    StateOf(r, id).None? || IsOver(StateOf(r, id).value)
  }

  lemma NextStaysClosed(r: Register, e: Event, id: string)
    requires Inverse(r) && Closed(r, id) && !(e.Created? && e.t.id == id)
    ensures StateOf(Next(r, e), id) == StateOf(r, id) || StateOf(Next(r, e), id).None?
  {
  }

  lemma StaysClosedOnce(events: seq<Event>, j: nat, id: string)
    requires FreshIds(events) && j < |events| && GivenOut(events[..j], id) && Closed(Run(events[..j]), id)
    ensures StateOf(Run(events[..j + 1]), id) == StateOf(Run(events[..j]), id) ||
      StateOf(Run(events[..j + 1]), id).None?
  {
    var before := events[..j];
    if events[j].Created? {
      NewIdIsNew(events, j);
    }
    assert FreshIds(before);
    IndexesStayInverse(before);
    NextStaysClosed(Run(before), events[j], id);
    assert events[..j + 1][..j] == before;
  }

  /** Closed after k events, the transfer is as it was after one more, or gone. */
  predicate StepStaysClosed(events: seq<Event>, k: nat, id: string)
    requires k < |events|
  {
    var was, now := StateOf(Run(events[..k]), id), StateOf(Run(events[..k + 1]), id);
    Closed(Run(events[..k]), id) ==> now == was || now.None?
  }

  lemma {:induction false} StepsStayClosed(events: seq<Event>, i: nat, j: nat, id: string)
    requires i <= j <= |events| && Closed(Run(events[..i]), id)
    requires forall k: nat | i <= k < j :: StepStaysClosed(events, k, id)
    ensures StateOf(Run(events[..j]), id) == StateOf(Run(events[..i]), id) || StateOf(Run(events[..j]), id).None?
    decreases j
  {
    if i < j {
      StepsStayClosed(events, i, j - 1, id);
      assert StepStaysClosed(events, j - 1, id);
    }
  }

  lemma StaysClosed(events: seq<Event>, i: nat, j: nat, id: string)
    requires FreshIds(events) && i <= j <= |events| && GivenOut(events[..i], id)
    requires Closed(Run(events[..i]), id)
    ensures StateOf(Run(events[..j]), id) == StateOf(Run(events[..i]), id) || StateOf(Run(events[..j]), id).None?
  {
    forall k: nat | i <= k < j ensures StepStaysClosed(events, k, id) {
      GivenOutBefore(events, i, k, id);
      if Closed(Run(events[..k]), id) {
        StaysClosedOnce(events, k, id);
      }
    }
    StepsStayClosed(events, i, j, id);
  }

  /** Each transfer is brought to an end at most once: completed, cancelled or failed. */
  lemma OneOutcome(events: seq<Event>, i: nat, j: nat, id: string)
    requires FreshIds(events) && i < j < |events|
    requires Outcome(events, i, id).Some?
    ensures Outcome(events, j, id).None?
  {
    KnownWasGivenOut(events[..i + 1], id);
    StaysClosed(events, i + 1, j, id);
    GivenOutBefore(events, i + 1, j, id);
    StaysClosedOnce(events, j, id);
  }

  /** Only an attended transfer is ever in consultation. */
  ghost predicate OnlyAttendedConsult(r: Register) {
    forall id | id in r.byID && r.byID[id].state == Consulting :: r.byID[id].attended
  }

  lemma {:induction false} RunOnlyAttendedConsult(events: seq<Event>)
    requires FreshIds(events)
    ensures OnlyAttendedConsult(Run(events))
    decreases |events|
  {
    if events != [] {
      RunOnlyAttendedConsult(events[..|events| - 1]);
    }
  }

  /**
   Over every run: a blind transfer is completed by the claim of a target and by nothing else, an
   attended one by Complete and only after such a claim.
   */
  lemma CompletedHow(events: seq<Event>, i: nat, id: string)
    requires FreshIds(events) && i < |events| && Outcome(events, i, id) == Some(Completed)
    ensures var r, r' := Run(events[..i]), Run(events[..i + 1]);
      && id in r.byID && id in r'.byID
      && if r.byID[id].attended then r.byID[id].state == Consulting && events[i] == Finished(id)
         else r.byID[id].state == Ringing && events[i] == Claimed(id, r'.byID[id].targetLeg)
  {
    var before := events[..i];
    assert events[..i + 1][..i] == before;
    assert FreshIds(before);
    RunOnlyAttendedConsult(before);
    NextCompletes(Run(before), events[i], id);
  }

  lemma NextCompletes(r: Register, e: Event, id: string)
    requires StateOf(Next(r, e), id) == Some(Completed) && StateOf(r, id) != Some(Completed)
    requires e.Created? ==> IsNew(e.t)
    ensures id in r.byID
    ensures (r.byID[id].state == Consulting && e == Finished(id))
         || (!r.byID[id].attended && r.byID[id].state == Ringing && e == Claimed(id, Next(r, e).byID[id].targetLeg))
  {
  }

  // ---------------------------------------------------------------------------
  // What each request makes of a transfer
  // ---------------------------------------------------------------------------

  /** The transfer enters this state by the event, from the state it was in. */
  predicate Enters(t: Transfer, e: Event, state: State) {
    || (e.Claimed? && t.state == Ringing && state == if t.attended then Consulting else Completed)
    || (e.Finished? && t.state == Consulting && state == Completed)
    || (e.Ended? && t.state in {Ringing, Consulting} && e.how in {Cancelled, Failed} && state == e.how)
  }

  predicate IsAbout(e: Event, id: string) {
    !e.Created? && e.id == id
  }

  /**
   A registered transfer changes its state by an event about it that may change it, and then to just
   that state; it goes when it is settled; otherwise it stays as it is. Of its other details only the
   target's leg changes, when it is claimed.
   */
  lemma MovesAsAsked(r: Register, e: Event, id: string)
    requires Inverse(r) && id in r.byID && (e.Created? ==> e.t.id != id)
    ensures id in Next(r, e).byID <==> e != Settled(id)
    ensures id in Next(r, e).byID ==>
      var t, u := r.byID[id], Next(r, e).byID[id];
      && (forall state :: IsAbout(e, id) && Enters(t, e, state) ==> u.state == state)
      && ((forall state :: !(IsAbout(e, id) && Enters(t, e, state))) ==> u == t)
      && u == t.(state := u.state, targetLeg := u.targetLeg)
      && u.targetLeg == if e.Claimed? && e.id == id && t.state == Ringing then e.leg else t.targetLeg
  {
    var t, s := r.byID[id], Next(r, e);
    if id in s.byID && s.byID[id] != t {
      assert IsAbout(e, id) && Enters(t, e, s.byID[id].state);
    }
  }

  /** So the outcome of a transfer is the one that was asked for, whenever it could still be. */
  lemma OutcomeIsAsked(events: seq<Event>, i: nat, id: string, how: State)
    requires FreshIds(events) && i < |events| && id in Run(events[..i]).byID && IsOver(how)
    ensures Outcome(events, i, id) == Some(how) <==>
      IsAbout(events[i], id) && Enters(Run(events[..i]).byID[id], events[i], how)
  {
    var before := events[..i];
    assert events[..i + 1][..i] == before && FreshIds(before);
    IndexesStayInverse(before);
    KnownWasGivenOut(before, id);
    if events[i].Created? {
      NewIdIsNew(events, i);
    }
    MovesAsAsked(Run(before), events[i], id);
  }

  /** A request with all its fields, for a call without a transfer, is registered as it is; no other is. */
  lemma CreatedIfComplete(r: Register, t: Transfer)
    ensures var complete := t.call != "" && t.room != "" && t.from != "" && t.target != "" && t.kind in {ToSupervisor,
        ToAgent};
      var s := Next(r, Created(t));
      if complete && t.call !in r.byCall then t.id in s.byID && s.byID[t.id] == t && t.call in s.byCall &&
        s.byCall[t.call] == t.id else s == r
  {
  }

  /** Nobody else's transfer is touched. */
  lemma OthersStay(r: Register, e: Event, id: string)
    requires if e.Created? then e.t.id != id else e.id != id
    ensures id in Next(r, e).byID <==> id in r.byID
    ensures id in r.byID ==> Next(r, e).byID[id] == r.byID[id]
  {
  }

  /** Once a transfer is settled, its call may have another. */
  lemma SettledMakesRoom(r: Register, id: string)
    requires Inverse(r) && id in r.byID
    ensures r.byID[id].call !in Next(r, Settled(id)).byCall
    ensures forall call | call in r.byCall && call != r.byID[id].call ::
      call in Next(r, Settled(id)).byCall && Next(r, Settled(id)).byCall[call] == r.byCall[call]
  {
  }

  // ---------------------------------------------------------------------------
  // The register itself
  // ---------------------------------------------------------------------------

  class TransferRegistry {
    var byID: map<string, Transfer>
    var byCall: map<string, string>

    ghost function View(): Register
      reads this
    {
      Register(byID, byCall)
    }

    /** The two maps lead to each other, and only attended transfers are in consultation. */
    ghost predicate Valid()
      reads this
    {
      Inverse(View()) && OnlyAttendedConsult(View())
    }

    constructor ()
      ensures View() == EMPTY
      ensures Valid()
    {
      byID, byCall := map[], map[];
    }

    /** A new transfer under the random id just drawn. */
    method Add(id: string, call: string, room: string, from: string, kind: Kind, target: string, attended: bool)
      returns (t: Option<Transfer>)
      requires Valid() && id !in byID
      modifies this
      ensures var made := Transfer(id, call, room, from, kind, target, attended, if attended then "consult-" + id
        else "", "", Ringing);
        IsNew(made) && View() == Create(old(View()), made) && t == if Creates(old(View()), made) then Some(made)
          else None
      ensures Valid()
    {
      if call == "" || room == "" || from == "" || target == "" {
        return None;
      }
      if kind != ToSupervisor && kind != ToAgent {
        return None;
      }
      var made := Transfer(id, call, room, from, kind, target, attended, "", "", Ringing);
      if attended {
        made := made.(consultRoom := "consult-" + id);
      }
      if call in byCall {
        return None;
      }
      NextInverse(View(), Created(made));
      byID := byID[id := made];
      byCall := byCall[call := id];
      return Some(made);
    }

    method Claim(id: string, leg: string) returns (t: Option<Transfer>)
      requires Valid()
      modifies this
      ensures View() == ClaimAnswer(old(View()), id, leg)
      ensures t.Some? <==> StateOf(old(View()), id) == Some(Ringing)
      ensures t.Some? ==> t == StoredAs(id) && t.value.targetLeg == leg
      ensures Valid()
    {
      if id !in byID || byID[id].state != Ringing {
        return None;
      }
      NextInverse(View(), Claimed(id, leg));
      var claimed := byID[id].(targetLeg := leg);
      if claimed.attended {
        claimed := claimed.(state := Consulting);
      } else {
        claimed := claimed.(state := Completed);
      }
      byID := byID[id := claimed];
      return Some(claimed);
    }

    method Finish(id: string) returns (t: Option<Transfer>)
      requires Valid()
      modifies this
      ensures View() == Complete(old(View()), id)
      ensures t.Some? <==> StateOf(old(View()), id) == Some(Consulting)
      ensures t.Some? ==> t == StoredAs(id) && t.value.attended
      ensures Valid()
    {
      if id !in byID || byID[id].state != Consulting {
        return None;
      }
      NextInverse(View(), Finished(id));
      byID := byID[id := byID[id].(state := Completed)];
      return Some(byID[id]);
    }

    /** Cancel and Fail. */
    method CallOff(id: string, how: State) returns (t: Option<Transfer>)
      requires Valid() && (how == Cancelled || how == Failed)
      modifies this
      ensures View() == End(old(View()), id, how)
      ensures t.Some? <==> CanEnd(old(View()), id)
      ensures t.Some? ==> t == StoredAs(id)
      ensures Valid()
    {
      if id !in byID || (byID[id].state != Ringing && byID[id].state != Consulting) {
        return None;
      }
      NextInverse(View(), Ended(id, how));
      byID := byID[id := byID[id].(state := how)];
      return Some(byID[id]);
    }

    method Remove(id: string)
      requires Valid()
      modifies this
      ensures View() == Settle(old(View()), id)
      ensures Valid()
    {
      if id !in byID {
        return;
      }
      NextInverse(View(), Settled(id));
      var t := byID[id];
      byCall := byCall - {t.call};
      byID := byID - {id};
    }

    method ByCall(call: string) returns (t: Option<Transfer>)
      requires Valid()
      ensures t.Some? <==> call in byCall
      ensures t.Some? ==> t.value.call == call && t == StoredAs(t.value.id)
    {
      if call !in byCall {
        return None;
      }
      return Some(byID[byCall[call]]);
    }

    ghost function StoredAs(id: string): Option<Transfer>
      reads this
    {
      if id in byID then Some(byID[id]) else None
    }
  }
}
