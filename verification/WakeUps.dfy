/**
 Telling panels that the calls changed (cmd/contact-centre/registry.go,
 handleCallsStream in main.go). A subscriber's trigger holds one signal; a broadcast
 fills it if it is empty and passes on, so many changes may come as one signal.

 Each critical section is one step, and so is each receive from a trigger.
 */
module WakeUps {
  import opened CallRegistry

  /** Where a panel's loop is: it has yet to read the calls, or it waits for its trigger. */
  datatype Phase = ToRead | Waiting

  datatype Panel = Panel(triggered: bool, phase: Phase, seen: Calls)

  datatype Desk = Desk(calls: Calls, panels: map<nat, Panel>)

  datatype Event =
    | Change(op: Op)
    | Subscribe(id: nat)
    | Unsubscribe(id: nat)
    | Receive(id: nat)
    | Read(id: nat)

  function Triggered(p: Panel): Panel {
    p.(triggered := true)
  }

  function Broadcast(panels: map<nat, Panel>): map<nat, Panel> {
    map id | id in panels :: Triggered(panels[id])
  }

  function Next(d: Desk, e: Event): Desk {
    match e
    case Change(op) => Desk(Apply(d.calls, op), if Broadcasts(d.calls, op) then Broadcast(d.panels) else d.panels)
    case Subscribe(id) => if id in d.panels then d else d.(panels := d.panels[id := Panel(false, ToRead, [])])
    case Unsubscribe(id) => d.(panels := d.panels - {id})
    case Receive(id) =>
      if id in d.panels && d.panels[id].phase == Waiting && d.panels[id].triggered
      then d.(panels := d.panels[id := d.panels[id].(triggered := false, phase := ToRead)])
      else d
    case Read(id) =>
      if id in d.panels && d.panels[id].phase == ToRead
      then d.(panels := d.panels[id := d.panels[id].(phase := Waiting, seen := d.calls)])
      else d
  }

  function Run(events: seq<Event>): Desk
    decreases |events|
  {
    if events == [] then Desk([], map[]) else Next(Run(events[..|events| - 1]), events[|events| - 1])
  }

  /** A panel that waits without a signal shows the calls as they are. */
  ghost predicate UpToDate(d: Desk) {
    forall id | id in d.panels :: d.panels[id].phase == Waiting && !d.panels[id].triggered ==>
      d.panels[id].seen == d.calls
  }

  /** An operation that tells nobody changes nothing. */
  lemma SilentChangesNothing(calls: Calls, op: Op)
    requires !Broadcasts(calls, op)
    ensures Apply(calls, op) == calls
  {
  }

  /** The operations that can be refused tell nobody when they are; all others are told of. */
  lemma TellsUnlessRefused(calls: Calls, op: Op)
    ensures op.Claim? ==>
      (Broadcasts(calls, op) <==> exists i | 0 <= i < |calls| ::
        IsFirstWith(calls, i, op.leg) && calls[i].state == Queued)
    ensures op.SetHold? ==>
      (Broadcasts(calls, op) <==> exists i | 0 <= i < |calls| ::
        IsFirstWith(calls, i, op.leg) && calls[i].onHold != op.onHold)
    ensures op.TransferTo? ==> (Broadcasts(calls, op) <==> exists i | 0 <= i < |calls| :: calls[i].leg == op.leg)
    ensures !op.Claim? && !op.SetHold? && !op.TransferTo? ==> Broadcasts(calls, op)
  {
    if op.Claim? || op.SetHold? || op.TransferTo? {
      var k := IndexOf(calls, op.leg);
      if k < |calls| {
        assert IsFirstWith(calls, k, op.leg);
      }
    }
  }

  predicate IsFirstWith(calls: Calls, i: nat, leg: string)
    requires i < |calls|
  {
    calls[i].leg == leg && forall j | 0 <= j < i :: calls[j].leg != leg
  }

  /** A new panel has yet to read the calls, and no other panel notices. */
  lemma SubscribedHasToRead(d: Desk, id: nat)
    ensures id in Next(d, Subscribe(id)).panels
    ensures id !in d.panels ==> Next(d, Subscribe(id)).panels[id].phase == ToRead
    ensures forall k | k in d.panels ::
      k in Next(d, Subscribe(id)).panels && Next(d, Subscribe(id)).panels[k] == d.panels[k]
  {
  }

  /** A panel that goes away is told no more, and no other panel notices. */
  lemma GoneIsGone(d: Desk, id: nat)
    ensures id !in Next(d, Unsubscribe(id)).panels
    ensures forall k | k != id :: k in Next(d, Unsubscribe(id)).panels <==> k in d.panels
    ensures forall k | k in Next(d, Unsubscribe(id)).panels :: Next(d, Unsubscribe(id)).panels[k] == d.panels[k]
  {
  }

  lemma NextKeeps(d: Desk, e: Event)
    requires UpToDate(d)
    ensures UpToDate(Next(d, e))
  {
    if e.Change? && !Broadcasts(d.calls, e.op) {
      SilentChangesNothing(d.calls, e.op);
    }
  }

  /**
   No wake-up is lost: over every run of changes, subscriptions and coalesced signals,
   a panel that waits with an empty trigger last read the calls as they now are.
   */
  lemma {:induction false} NoLostWakeUp(events: seq<Event>)
    ensures UpToDate(Run(events))
    decreases |events|
  {
    if events != [] {
      NoLostWakeUp(events[..|events| - 1]);
      NextKeeps(Run(events[..|events| - 1]), events[|events| - 1]);
    }
  }

  /**
   And from any moment on, if the calls then change no more, receiving and reading once shows the
   panel the last of them.
   */
  lemma OneMoreReadIsEnough(events: seq<Event>, id: nat)
    requires id in Run(events).panels
    ensures var d := Next(Next(Next(Run(events), Read(id)), Receive(id)), Read(id));
      d.calls == Run(events).calls && d.panels[id].seen == d.calls && d.panels[id].phase == Waiting &&
        !d.panels[id].triggered
  {
    NoLostWakeUp(events);
    var d := Run(events);
    var d1 := Next(d, Read(id));
    NextKeeps(d, Read(id));
    NextKeeps(d1, Receive(id));
  }
}
