/**
 The other half of keeping transcribers in order (cmd/interpreter/media.go): as long as
 the server does not refuse to stop one, no transcriber stays attached to the
 participant's leg that is not marked there, whatever interleaves.
 */
module Detaching {
  import opened Options
  import opened Reconciler

  /** The command to stop a transcriber is about to be sent. */
  predicate SendsStop(hd: Handler) {
    hd.Stopping? || hd.StoppingConflict? || hd.StopSending?
  }

  predicate StopWorks(s: State, e: Event) {
    e.Step? && e.h in s.handlers && SendsStop(s.handlers[e.h]) ==> e.answer.ok
  }

  predicate StopsWorkAlong(s: State, events: seq<Event>)
    decreases |events|
  {
    events != [] ==> StopWorks(s, events[0]) && StopsWorkAlong(Next(s, events[0]), events[1..])
  }

  /** The server hands out every leg once; `used` have been. */
  predicate FreshLegs(used: set<LegId>, events: seq<Event>)
    decreases |events|
  {
    events != [] ==>
      && (events[0].LegBound? ==> events[0].leg !in used)
      && FreshLegs(Used(used, events[0]), events[1..])
  }

  function Used(used: set<LegId>, e: Event): set<LegId> {
    if e.LegBound? then used + {e.leg} else used
  }

  /** The leg that the handler acts on. */
  function ActsOn(hd: Handler): Option<LegId> {
    if Wants(hd) then Some(hd.leg)
    else if hd.StopClearing? || hd.StopSending? then hd.on
    else None
  }

  /** A transcriber on that leg is about to be stopped, or about to be marked. */
  predicate InHand(hd: Handler, leg: LegId) {
    && ActsOn(hd) == Some(leg)
    && (hd.Stopping? || hd.StoppingConflict? || hd.ClearingConflict? || hd.Marking? || hd.StopSending?)
  }

  /** The handler is between reading a leg and being done with it. */
  predicate Acts(hd: Handler) {
    Wants(hd) || hd.StopClearing? || hd.StopSending?
  }

  /** A transcriber on the participant's leg is marked, or in the hands of the handler at work. */
  ghost predicate NoneForgotten(s: State) {
    s.legID.Some? && s.legID.value in s.attached ==>
      || s.sttOn
      || (s.holder.Some? && s.holder.value in s.handlers && InHand(s.handlers[s.holder.value], s.legID.value))
  }

  /** While a handler acts on another leg, none is attached to the participant's. */
  ghost predicate OthersLegIsBare(s: State) {
    s.holder.Some? && s.holder.value in s.handlers && s.legID.Some? ==>
      var hd := s.handlers[s.holder.value];
      Acts(hd) && ActsOn(hd) != s.legID ==> s.legID.value !in s.attached
  }

  ghost predicate LegsUsed(s: State, used: set<LegId>) {
    && s.attached.Keys <= used
    && (s.legID.Some? ==> s.legID.value in used)
    && (forall h | h in s.handlers && ActsOn(s.handlers[h]).Some? :: ActsOn(s.handlers[h]).value in used)
  }

  ghost predicate Tidy(s: State, used: set<LegId>) {
    Inv(s) && NoneForgotten(s) && OthersLegIsBare(s) && LegsUsed(s, used)
  }

  lemma ReadingIsTidy(s: State, used: set<LegId>, h: nat, a: Answer)
    requires Tidy(s, used) && h in s.handlers && s.holder == Some(h) && StopWorks(s, Step(h, a))
    requires s.handlers[h].Reading?
    ensures var t := Advance(s, h, a); NoneForgotten(t) && OthersLegIsBare(t) && LegsUsed(t, used)
  {
  }

  lemma EndingIsTidy(s: State, used: set<LegId>, h: nat, a: Answer)
    requires Tidy(s, used) && h in s.handlers && s.holder == Some(h) && StopWorks(s, Step(h, a))
    requires s.handlers[h].ClearingFailure? || s.handlers[h].Settling?
    ensures var t := Advance(s, h, a); NoneForgotten(t) && OthersLegIsBare(t) && LegsUsed(t, used)
  {
  }

  lemma ClearingIsTidy(s: State, used: set<LegId>, h: nat, a: Answer)
    requires Tidy(s, used) && h in s.handlers && s.holder == Some(h) && StopWorks(s, Step(h, a))
    requires s.handlers[h].Clearing? || s.handlers[h].ClearingConflict? || s.handlers[h].Marking?
    ensures var t := Advance(s, h, a); NoneForgotten(t) && OthersLegIsBare(t) && LegsUsed(t, used)
  {
  }

  lemma StoppingIsTidy(s: State, used: set<LegId>, h: nat, a: Answer)
    requires Tidy(s, used) && h in s.handlers && s.holder == Some(h) && StopWorks(s, Step(h, a))
    requires s.handlers[h].Stopping? || s.handlers[h].StoppingConflict?
    ensures var t := Advance(s, h, a); NoneForgotten(t) && OthersLegIsBare(t) && LegsUsed(t, used)
  {
  }

  lemma DialingIsTidy(s: State, used: set<LegId>, h: nat, a: Answer)
    requires Tidy(s, used) && h in s.handlers && s.holder == Some(h) && StopWorks(s, Step(h, a))
    requires s.handlers[h].Dialing? || s.handlers[h].Redialing?
    ensures var t := Advance(s, h, a); NoneForgotten(t) && OthersLegIsBare(t) && LegsUsed(t, used)
  {
  }

  lemma StartStepIsTidy(s: State, used: set<LegId>, h: nat, a: Answer)
    requires Tidy(s, used) && h in s.handlers && s.holder == Some(h) && StopWorks(s, Step(h, a))
    requires Wants(s.handlers[h]) || s.handlers[h].Reading? || s.handlers[h].ClearingFailure?
    ensures var t := Advance(s, h, a); NoneForgotten(t) && OthersLegIsBare(t) && LegsUsed(t, used)
  {
    var hd := s.handlers[h];
    if hd.Clearing? || hd.ClearingConflict? || hd.Marking? {
      ClearingIsTidy(s, used, h, a);
    } else if hd.Stopping? || hd.StoppingConflict? {
      StoppingIsTidy(s, used, h, a);
    } else if hd.Dialing? || hd.Redialing? {
      DialingIsTidy(s, used, h, a);
    } else if hd.Reading? {
      ReadingIsTidy(s, used, h, a);
    } else {
      EndingIsTidy(s, used, h, a);
    }
  }

  lemma StopStepIsTidy(s: State, used: set<LegId>, h: nat, a: Answer)
    requires Tidy(s, used) && h in s.handlers && s.holder == Some(h) && StopWorks(s, Step(h, a))
    requires s.handlers[h].StopReading? || s.handlers[h].StopClearing? || s.handlers[h].StopSending?
    ensures var t := Advance(s, h, a); NoneForgotten(t) && OthersLegIsBare(t) && LegsUsed(t, used)
  {
  }

  lemma OutsideStepIsTidy(s: State, used: set<LegId>, h: nat, a: Answer)
    requires Tidy(s, used) && h in s.handlers && !Holding(s.handlers[h])
    ensures var t := Advance(s, h, a); NoneForgotten(t) && OthersLegIsBare(t) && LegsUsed(t, used)
  {
  }

  lemma ArrivalIsTidy(s: State, used: set<LegId>, e: Event)
    requires Tidy(s, used) && !e.Step? && (e.LegBound? ==> e.leg !in used)
    ensures var t := Next(s, e); NoneForgotten(t) && OthersLegIsBare(t) && LegsUsed(t, Used(used, e))
  {
  }

  lemma NextIsTidy(s: State, used: set<LegId>, e: Event)
    requires Tidy(s, used) && LegChangeSafe(s, e) && StopWorks(s, e) && (e.LegBound? ==> e.leg !in used)
    ensures Tidy(Next(s, e), Used(used, e))
  {
    NextKeeps(s, e);
    if e.Step? {
      if e.h in s.handlers {
        var hd := s.handlers[e.h];
        if !Holding(hd) {
          OutsideStepIsTidy(s, used, e.h, e.answer);
        } else if hd.StopReading? || hd.StopClearing? || hd.StopSending? {
          StopStepIsTidy(s, used, e.h, e.answer);
        } else {
          StartStepIsTidy(s, used, e.h, e.answer);
        }
      }
    } else {
      ArrivalIsTidy(s, used, e);
    }
  }

  lemma {:induction false} RunIsTidy(s: State, used: set<LegId>, events: seq<Event>) returns (after: set<LegId>)
    requires Tidy(s, used) && LegsSafeAlong(s, events) && StopsWorkAlong(s, events) && FreshLegs(used, events)
    ensures Tidy(Run(s, events), after)
    decreases |events|
  {
    if events == [] {
      after := used;
    } else {
      NextIsTidy(s, used, events[0]);
      after := RunIsTidy(Next(s, events[0]), Used(used, events[0]), events[1..]);
    }
  }

  /**
   Over every interleaving in which legs come and go at safe moments and no stop is refused: once no
   handler is under way, a transcriber is attached to the participant's leg if and only if one is
   marked.
   */
  lemma AttachedIffMarked(lang: Lang, events: seq<Event>)
    requires LegsSafeAlong(Start(lang), events) && StopsWorkAlong(Start(lang), events) && FreshLegs({}, events)
    ensures var s := Run(Start(lang), events);
      Quiescent(s) && s.legID.Some? ==> (s.legID.value in s.attached <==> s.sttOn)
  {
    var used := RunIsTidy(Start(lang), {}, events);
    SelectedLanguageRuns(lang, events);
  }

  // ---------------------------------------------------------------------------
  // Stopping
  // ---------------------------------------------------------------------------

  predicate Stops(hd: Handler) {
    hd.StopWaiting? || hd.StopReading? || hd.StopClearing? || hd.StopSending? || hd.Finished?
  }

  /** Only stops are under way, and this one has still to look at the mark, or nothing is marked. */
  ghost predicate OnlyStops(s: State, h: nat) {
    && (forall k | k in s.handlers :: Stops(s.handlers[k]))
    && h in s.handlers && (WillStop(s.handlers[h]) || !s.sttOn)
  }

  lemma {:induction false} StaysOnlyStops(s: State, h: nat, events: seq<Event>)
    requires OnlyStops(s, h) && forall i | 0 <= i < |events| :: !events[i].StartSTT? && !events[i].SetLanguage?
    ensures OnlyStops(Run(s, events), h)
    decreases |events|
  {
    if events != [] {
      NextOnlyStops(s, h, events[0]);
      assert forall i | 0 <= i < |events[1..]| :: events[1..][i] == events[i + 1];
      StaysOnlyStops(Next(s, events[0]), h, events[1..]);
    }
  }

  lemma StepOnlyStops(s: State, h: nat, k: nat, a: Answer)
    requires OnlyStops(s, h) && k in s.handlers
    ensures OnlyStops(Advance(s, k, a), h)
  {
  }

  lemma NextOnlyStops(s: State, h: nat, e: Event)
    requires OnlyStops(s, h) && !e.StartSTT? && !e.SetLanguage?
    ensures OnlyStops(Next(s, e), h)
  {
    if e.Step? && e.h in s.handlers {
      StepOnlyStops(s, h, e.h, e.answer);
    }
  }

  /** From a moment at which only stops are under way, one more stop, and whatever else comes. */
  lemma StopClears(s: State, h: nat, after: seq<Event>)
    requires h !in s.handlers && forall k | k in s.handlers :: Stops(s.handlers[k])
    requires forall i | 0 <= i < |after| :: !after[i].StartSTT? && !after[i].SetLanguage?
    ensures Quiescent(Run(Next(s, StopSTT(h)), after)) ==> !Run(Next(s, StopSTT(h)), after).sttOn
  {
    StaysOnlyStops(Next(s, StopSTT(h)), h, after);
  }

  lemma RunThrough(s: State, before: seq<Event>, e: Event, after: seq<Event>)
    ensures Run(s, before + ([e] + after)) == Run(Next(Run(s, before), e), after)
  {
    RunAppend(s, before, [e] + after);
    RunAppend(Run(s, before), [e], after);
    RunOfOne(Run(s, before), e);
  }

  /**
   After a stop that no start was under way before, and none begins after, no transcriber is attached
   to the participant's leg.
   */
  lemma StoppedIsDetached(lang: Lang, events: seq<Event>, before: seq<Event>, h: nat, after: seq<Event>)
    requires LegsSafeAlong(Start(lang), events) && StopsWorkAlong(Start(lang), events) && FreshLegs({}, events)
    requires events == before + ([StopSTT(h)] + after)
    requires h !in Run(Start(lang), before).handlers
    requires forall k | k in Run(Start(lang), before).handlers :: Stops(Run(Start(lang), before).handlers[k])
    requires forall i | 0 <= i < |after| :: !after[i].StartSTT? && !after[i].SetLanguage?
    ensures var t := Run(Start(lang), events);
      Quiescent(t) ==> !t.sttOn && (t.legID.Some? ==> t.legID.value !in t.attached)
  {
    AttachedIffMarked(lang, events);
    RunThrough(Start(lang), before, StopSTT(h), after);
    StopClears(Run(Start(lang), before), h, after);
  }
}
