/**
 Handing a customer call to another agent while the call's own loop watches for the
 agent's leg to drop (cmd/contact-centre/transfer_handlers.go, registry.go, and the
 event loop of bridgeAndMonitor in main.go).

 One call, and every critical section one step. When the watched leg drops, the loop
 first looks for a transfer in flight and then, in another section, for a new agent;
 only if it finds neither does it hang up on the customer.
 */
module HandOff {
  import opened Options

  type Leg = string

  /** How far the call's transfer is; the register holds at most one. */
  datatype Flight =
    | Ringing(attended: bool)
    | Consulting(target: Leg)
    | Claimed(target: Leg, completing: bool)   // completed; the handler has not looked the call up yet
    | Finalizing(target: Leg)                  // on the way to transferTo
    | Swapped                                  // past transferTo
    | Over                                     // cancelled or failed, or not to be finalized

  datatype Watch =
    | Watching
    | Found(createdSince: bool)                // the watched leg dropped and no transfer was in flight
    | Closed(hungUp: bool)

  datatype Call = Call(
    agentLeg: Leg,              // whom the registry has on the call
    listed: bool,               // the call is in the registry
    flight: Option<Flight>,
    signal: Option<Leg>,        // the one-place channel to the loop
    watched: Leg,
    watch: Watch,
    lateSwap: Option<Leg>)      // only when a settled transfer may still owe its transferTo

  /** The order of the last two steps of a hand-off: as it is, and the other way round. */
  datatype Order = SwapThenSettle | SettleThenSwap

  datatype Event =
    | Create(attended: bool)
    | Answer(target: Leg)
    | Complete
    | End                       // cancel or fail
    | LookUp                    // the finalizing handler looks for the call
    | SetupFails                // the target's leg cannot be added: no transferTo
    | TransferTo
    | Settle
    | LegDrops                  // the watched leg's disconnect: is there a transfer?
    | LooksForNewAgent          // then: is there another agent?
    | TakeSignal
    | CustomerLeaves
    | Delist                    // the call is removed, after its loop

  function Start(leg: Leg): Call {
    Call(leg, true, None, None, leg, Watching, None)
  }

  /** A new transfer enters the register, if there is none. */
  function OnCreate(c: Call, attended: bool): Call {
    if c.flight.Some? then c
    else c.(flight := Some(Ringing(attended)), watch := if c.watch.Found? then Found(true) else c.watch)
  }

  function OnAnswer(c: Call, target: Leg): Call {
    match c.flight
    case Some(Ringing(attended)) => c.(flight := Some(if attended then Consulting(target) else Claimed(target, false)))
    case _ => c
  }

  function OnComplete(c: Call): Call {
    match c.flight
    case Some(Consulting(target)) => c.(flight := Some(Claimed(target, true)))
    case _ => c
  }

  function OnEnd(c: Call): Call {
    if c.flight.Some? && (c.flight.value.Ringing? || c.flight.value.Consulting?) then c.(flight := Some(Over)) else c
  }

  /** Without the call an answer settles the transfer; a completion stops here and leaves it. */
  function OnLookUp(c: Call): Call {
    match c.flight
    case Some(Claimed(target, completing)) =>
      if c.listed then c.(flight := Some(Finalizing(target)))
      else if completing then c
      else c.(flight := Some(Over))
    case _ => c
  }

  function OnSetupFails(c: Call): Call {
    if c.flight.Some? && c.flight.value.Finalizing? then c.(flight := Some(Over)) else c
  }

  /** The call gets its new agent, and the loop a signal unless one is waiting already. */
  function Swap(c: Call, target: Leg): Call {
    if !c.listed then c
    else c.(agentLeg := target, signal := if c.signal.None? then Some(target) else c.signal)
  }

  function OnTransferTo(c: Call): Call {
    if c.lateSwap.Some? then Swap(c.(lateSwap := None), c.lateSwap.value)
    else
      match c.flight
      case Some(Finalizing(target)) => Swap(c.(flight := Some(Swapped)), target)
      case _ => c
  }

  function OnSettle(c: Call, order: Order): Call {
    match c.flight
    case Some(Swapped) => c.(flight := None)
    case Some(Over) => c.(flight := None)
    case Some(Finalizing(target)) => if order == SettleThenSwap then c.(flight := None, lateSwap := Some(target)) else c
    case _ => c
  }

  function OnLegDrops(c: Call): Call {
    if !c.watch.Watching? || c.flight.Some? then c else c.(watch := Found(false))
  }

  function OnLooksForNewAgent(c: Call): Call {
    if !c.watch.Found? then c
    else if c.listed && c.agentLeg != c.watched then c.(watch := Watching)
    else c.(watch := Closed(true))
  }

  function OnTakeSignal(c: Call): Call {
    if c.watch.Watching? && c.signal.Some? then c.(watched := c.signal.value, signal := None) else c
  }

  function Next(c: Call, e: Event, order: Order): Call {
    match e
    case Create(attended) => OnCreate(c, attended)
    case Answer(target) => OnAnswer(c, target)
    case Complete => OnComplete(c)
    case End => OnEnd(c)
    case LookUp => OnLookUp(c)
    case SetupFails => OnSetupFails(c)
    case TransferTo => OnTransferTo(c)
    case Settle => OnSettle(c, order)
    case LegDrops => OnLegDrops(c)
    case LooksForNewAgent => OnLooksForNewAgent(c)
    case TakeSignal => OnTakeSignal(c)
    case CustomerLeaves => if c.watch.Watching? then c.(watch := Closed(false)) else c
    case Delist => if c.watch.Closed? then c.(listed := false) else c
  }

  function Run(c: Call, events: seq<Event>, order: Order): Call
    decreases |events|
  {
    if events == [] then c else Next(Run(c, events[..|events| - 1], order), events[|events| - 1], order)
  }

  // ---------------------------------------------------------------------------
  // No hang-up in the middle of a hand-off
  // ---------------------------------------------------------------------------

  /** Somebody has claimed the call, and the loop does not watch the new leg yet. */
  predicate HandingOver(c: Call) {
    || (c.flight.Some? && (c.flight.value.Claimed? || c.flight.value.Finalizing?))
    || c.lateSwap.Some?
    || c.agentLeg != c.watched
  }

  predicate HangsUp(c: Call, order: Order) {
    !c.watch.Closed? && Next(c, LooksForNewAgent, order).watch == Closed(true)
  }

  ghost predicate Inv(c: Call) {
    && (!c.watch.Closed? ==> c.listed)
    && (c.watch == Found(false) ==> c.flight.None?)
    && (c.lateSwap.None?)
  }

  lemma NextKeeps(c: Call, e: Event)
    requires Inv(c)
    ensures Inv(Next(c, e, SwapThenSettle))
  {
  }

  lemma {:induction false} RunKeeps(leg: Leg, events: seq<Event>)
    ensures Inv(Run(Start(leg), events, SwapThenSettle))
    decreases |events|
  {
    if events != [] {
      RunKeeps(leg, events[..|events| - 1]);
      NextKeeps(Run(Start(leg), events[..|events| - 1], SwapThenSettle), events[|events| - 1]);
    }
  }

  /**
   From the claim until the loop watches the new leg, the old leg's disconnect never
   reaches the customer, unless the transfer was created only after the loop had looked
   for one; and then it does exactly when the new agent is not on the call yet.
   */
  lemma NoHangUpWhileHandingOver(leg: Leg, events: seq<Event>)
    ensures var c := Run(Start(leg), events, SwapThenSettle);
      HandingOver(c) && c.watch.Found? ==>
        (HangsUp(c, SwapThenSettle) <==> c.watch.createdSince && c.agentLeg == c.watched)
  {
    RunKeeps(leg, events);
  }

  /** So the customer is hung up on only when the leg that dropped is the agent's, in a call nobody is taking over. */
  lemma HangUpMeansAgentLeft(leg: Leg, events: seq<Event>)
    ensures var c := Run(Start(leg), events, SwapThenSettle);
      HangsUp(c, SwapThenSettle) && !c.watch.createdSince ==> c.flight.None? && c.agentLeg == c.watched
  {
    RunKeeps(leg, events);
  }

  /** The customer is hung up on in no other way: not by leaving, and only once. */
  lemma OnlyTheLoopHangsUp(c: Call, e: Event)
    requires c.watch != Closed(true) && Next(c, e, SwapThenSettle).watch == Closed(true)
    ensures e == LooksForNewAgent && HangsUp(c, SwapThenSettle)
  {
  }

  lemma {:induction false} RunAppend(c: Call, before: seq<Event>, after: seq<Event>, order: Order)
    ensures Run(c, before + after, order) == Run(Run(c, before, order), after, order)
    decreases |after|
  {
    if after == [] {
      assert before + after == before;
    } else {
      var all := before + after;
      assert all[..|all| - 1] == before + after[..|after| - 1];
      RunAppend(c, before, after[..|after| - 1], order);
    }
  }

  lemma RunOfOne(c: Call, e: Event, order: Order)
    ensures Run(c, [e], order) == Next(c, e, order)
  {
    assert [e][..0] == [];
  }

  lemma RunOfTwo(c: Call, a: Event, b: Event, order: Order)
    ensures Run(c, [a, b], order) == Next(Next(c, a, order), b, order)
  {
    assert [a, b][..1] == [a];
    RunOfOne(c, a, order);
  }

  lemma RunOfThree(s: Call, a: Event, b: Event, c: Event, order: Order)
    ensures Run(s, [a, b, c], order) == Next(Next(Next(s, a, order), b, order), c, order)
  {
    assert [a, b, c][..2] == [a, b];
    RunOfTwo(s, a, b, order);
  }

  /** A transfer created between the two looks, claimed at once: the customer is lost. */
  lemma CreatedBetweenTheLooks(first: Leg, target: Leg)
    ensures var c := Run(Start(first), [LegDrops, Create(false), Answer(target)], SwapThenSettle);
      HandingOver(c) && HangsUp(c, SwapThenSettle)
  {
    RunOfThree(Start(first), LegDrops, Create(false), Answer(target), SwapThenSettle);
  }

  /** Were the transfer settled before the call got its new agent, the customer could be lost in between. */
  lemma OrderMatters(first: Leg, target: Leg)
    ensures var c := Run(Start(first), [Create(false), Answer(target), LookUp] + [Settle, LegDrops], SettleThenSwap);
      HandingOver(c) && c.watch == Found(false) && HangsUp(c, SettleThenSwap)
  {
    var s := Start(first);
    RunAppend(s, [Create(false), Answer(target), LookUp], [Settle, LegDrops], SettleThenSwap);
    RunOfThree(s, Create(false), Answer(target), LookUp, SettleThenSwap);
    RunOfTwo(s.(flight := Some(Finalizing(target))), Settle, LegDrops, SettleThenSwap);
  }

  // ---------------------------------------------------------------------------
  // Whom the loop ends up watching
  // ---------------------------------------------------------------------------

  /** Whom the loop watches once it has taken the signal that waits. */
  function Bound(c: Call): Leg {
    if c.signal.Some? then c.signal.value else c.watched
  }

  /** A hand-off reaches the loop unless another one's signal, for another leg, still waits. */
  predicate Overtakes(c: Call, e: Event) {
    && e == TransferTo && c.listed && c.flight.Some? && c.flight.value.Finalizing?
    && c.signal.Some? && c.signal.value != c.flight.value.target
  }

  function Overtaken(c: Call, events: seq<Event>): bool
    decreases |events|
  {
    events != [] && (
      var before := events[..|events| - 1];
      Overtaken(c, before) || Overtakes(Run(c, before, SwapThenSettle), events[|events| - 1]))
  }

  lemma NextIsBound(c: Call, e: Event)
    requires Inv(c) && Bound(c) == c.agentLeg
    ensures Bound(Next(c, e, SwapThenSettle)) == Next(c, e, SwapThenSettle).agentLeg <==> !Overtakes(c, e)
  {
  }

  /** Unless one hand-off overtakes the signal of another, the loop comes to watch the agent who is on the call. */
  lemma {:induction false} LoopFollowsAgent(leg: Leg, events: seq<Event>)
    requires !Overtaken(Start(leg), events)
    ensures var c := Run(Start(leg), events, SwapThenSettle); Bound(c) == c.agentLeg
    decreases |events|
  {
    if events != [] {
      var before := events[..|events| - 1];
      LoopFollowsAgent(leg, before);
      RunKeeps(leg, before);
      NextIsBound(Run(Start(leg), before, SwapThenSettle), events[|events| - 1]);
    }
  }

  /** It comes to do so by taking the signal that waits. */
  lemma TakenSignalIsWatched(leg: Leg, events: seq<Event>)
    requires !Overtaken(Start(leg), events) && Run(Start(leg), events, SwapThenSettle).watch.Watching?
    ensures var c := Next(Run(Start(leg), events, SwapThenSettle), TakeSignal, SwapThenSettle);
      c.watched == c.agentLeg && c.signal.None? && c.watch.Watching?
  {
    LoopFollowsAgent(leg, events);
  }

  /** And at the first that does, it is left to watch somebody else. */
  lemma OvertakenLoopWatchesAnother(leg: Leg, events: seq<Event>, e: Event)
    requires !Overtaken(Start(leg), events) && Overtakes(Run(Start(leg), events, SwapThenSettle), e)
    ensures var c := Next(Run(Start(leg), events, SwapThenSettle), e, SwapThenSettle); Bound(c) != c.agentLeg
  {
    LoopFollowsAgent(leg, events);
    RunKeeps(leg, events);
    NextIsBound(Run(Start(leg), events, SwapThenSettle), e);
  }

  /** One blind hand-off up to the look for the call. */
  function ReadyToSwap(target: Leg): seq<Event> {
    [Create(false), Answer(target), LookUp]
  }

  lemma ReadyToSwapIsReady(c: Call, target: Leg)
    requires c.flight.None? && c.listed && c.watch.Watching? && c.lateSwap.None?
    ensures Run(c, ReadyToSwap(target), SwapThenSettle) == c.(flight := Some(Finalizing(target)))
  {
    RunOfThree(c, Create(false), Answer(target), LookUp, SwapThenSettle);
  }

  /** Two hand-offs, one after the other, and the loop has not yet taken the first one's signal. */
  function TwoHandOffs(second: Leg, third: Leg): seq<Event> {
    ReadyToSwap(second) + ([TransferTo, Settle] + ReadyToSwap(third))
  }

  /** It happens: the second of two quick hand-offs is the first to overtake. */
  lemma HandOffsOvertake(first: Leg, second: Leg, third: Leg)
    requires second != third
    ensures !Overtaken(Start(first), TwoHandOffs(second, third))
    ensures Overtakes(Run(Start(first), TwoHandOffs(second, third), SwapThenSettle), TransferTo)
  {
    var c := Start(first);
    var o := SwapThenSettle;
    RunAppend(c, ReadyToSwap(second), [TransferTo, Settle] + ReadyToSwap(third), o);
    ReadyToSwapIsReady(c, second);
    var c1 := c.(flight := Some(Finalizing(second)));
    RunAppend(c1, [TransferTo, Settle], ReadyToSwap(third), o);
    RunOfTwo(c1, TransferTo, Settle, o);
    var c2 := c.(agentLeg := second, signal := Some(second));
    ReadyToSwapIsReady(c2, third);
    FirstHandOffFindsRoom(first, second, third);
  }

  /** A hand-off that overtakes nobody on an empty channel. */
  lemma {:induction false} NotOvertaken(c: Call, events: seq<Event>)
    requires forall k | 0 <= k < |events| :: !Overtakes(Run(c, events[..k], SwapThenSettle), events[k])
    ensures !Overtaken(c, events)
    decreases |events|
  {
    if events != [] {
      var before := events[..|events| - 1];
      forall k | 0 <= k < |before| ensures !Overtakes(Run(c, before[..k], SwapThenSettle), before[k]) {
        assert before[..k] == events[..k] && before[k] == events[k];
      }
      NotOvertaken(c, before);
      assert before == events[..|before|];
    }
  }

  lemma FirstHandOffFindsRoom(first: Leg, second: Leg, third: Leg)
    ensures !Overtaken(Start(first), TwoHandOffs(second, third))
  {
    var c, events := Start(first), TwoHandOffs(second, third);
    forall k | 0 <= k < |events| ensures !Overtakes(Run(c, events[..k], SwapThenSettle), events[k]) {
      if k == 3 {
        assert events[..3] == ReadyToSwap(second);
        ReadyToSwapIsReady(c, second);
      } else {
        assert events[k] != TransferTo;
      }
    }
    NotOvertaken(c, events);
  }

  // ---------------------------------------------------------------------------
  // The transfer that is never settled
  // ---------------------------------------------------------------------------

  /** A completed consultation whose call was gone when it was looked up. */
  predicate Abandoned(c: Call) {
    !c.listed && c.watch.Closed? && c.flight.Some? && c.flight.value.Claimed? && c.flight.value.completing
  }

  lemma NextStaysAbandoned(c: Call, e: Event)
    requires Abandoned(c)
    ensures Abandoned(Next(c, e, SwapThenSettle)) && Next(c, e, SwapThenSettle).flight == c.flight
  {
  }

  /** It stays in the register whatever happens, and no other transfer can be created for the call. */
  lemma {:induction false} AbandonedForEver(c: Call, events: seq<Event>)
    requires Abandoned(c)
    ensures Abandoned(Run(c, events, SwapThenSettle)) && Run(c, events, SwapThenSettle).flight == c.flight
    decreases |events|
  {
    if events != [] {
      AbandonedForEver(c, events[..|events| - 1]);
      NextStaysAbandoned(Run(c, events[..|events| - 1], SwapThenSettle), events[|events| - 1]);
    }
  }

  /** What still brings the call's transfer out of the register. */
  function WayOut(c: Call): seq<Event> {
    match c.flight
    case Some(Ringing(_)) => [End, Settle]
    case Some(Consulting(_)) => [End, Settle]
    case Some(Claimed(_, _)) => if c.listed then [LookUp, SetupFails, Settle] else [LookUp, Settle]
    case Some(Finalizing(_)) => [SetupFails, Settle]
    case _ => [Settle]
  }

  lemma WayOutLeadsOut(c: Call)
    requires Inv(c) && c.flight.Some? && !Abandoned(c)
    ensures Run(c, WayOut(c), SwapThenSettle).flight.None?
  {
    match c.flight.value
    case Ringing(_) => RunOfTwo(c, End, Settle, SwapThenSettle);
    case Consulting(_) => RunOfTwo(c, End, Settle, SwapThenSettle);
    case Claimed(_, _) =>
      if c.listed {
        RunOfThree(c, LookUp, SetupFails, Settle, SwapThenSettle);
      } else {
        RunOfTwo(c, LookUp, Settle, SwapThenSettle);
      }
    case Finalizing(_) => RunOfTwo(c, SetupFails, Settle, SwapThenSettle);
    case Swapped => RunOfOne(c, Settle, SwapThenSettle);
    case Over => RunOfOne(c, Settle, SwapThenSettle);
  }

  /**
   A transfer in flight can still leave the register, by some run, if and only if it is
   not a completed consultation whose call is gone; that one blocks the call's place in
   the register through every run.
   */
  lemma LeavesRegisterIff(c: Call)
    requires Inv(c) && c.flight.Some?
    ensures (exists events :: Run(c, events, SwapThenSettle).flight.None?) <==> !Abandoned(c)
  {
    if Abandoned(c) {
      forall events ensures Run(c, events, SwapThenSettle).flight.Some? {
        AbandonedForEver(c, events);
      }
    } else {
      WayOutLeadsOut(c);
    }
  }

  /** It happens: the customer leaves between the completion and the look for the call. */
  lemma ConsultationIsAbandoned(first: Leg, target: Leg)
    ensures Abandoned(Run(Start(first), [Create(true), Answer(target), Complete] + [CustomerLeaves, Delist],
      SwapThenSettle))
  {
    var c := Start(first);
    RunAppend(c, [Create(true), Answer(target), Complete], [CustomerLeaves, Delist], SwapThenSettle);
    RunOfThree(c, Create(true), Answer(target), Complete, SwapThenSettle);
    RunOfTwo(c.(flight := Some(Claimed(target, true))), CustomerLeaves, Delist, SwapThenSettle);
  }
}
