/**
 Ringing several phones for one caller (cmd/pbx/dialplan_fork.go): the first to answer
 is connected, the others are dropped, and if all leave unanswered the caller goes on
 without an answer.

 Every critical section under the group's lock is one step, and so is every command a
 handler sends after it: in between, other handlers run. A handler that looked the
 group up in time may enter as late as it likes, so a step is possible at any time.
 */
module Fork {
  import opened Options

  type Leg = string

  /** What a handler still has to do after it let go of the lock. */
  datatype Task =
    | Drop(leg: Leg)        // stop a browser's ringing, or cancel a phone
    | RingOver(leg: Leg)    // the ring time of this browser is over
    | NobodyAnswered        // the caller goes down the no-answer path

  datatype ForkState = ForkState(
    rung: map<Leg, bool>,       // every candidate there was: is it a browser?
    candidates: set<Leg>,
    winner: Option<Leg>,        // `won` in the program, and who
    tasks: multiset<Task>,
    // What has happened.
    dropped: multiset<Leg>,
    noAnswers: nat,
    answers: multiset<Leg>,     // answers handled, by leg
    abandoned: set<Leg>,        // legs that were candidates when the caller gave up
    again: bool,                // the winner, still listed, answered once more
    refused: bool)              // the caller could not be answered for the winner

  datatype Event =
    | Answered(leg: Leg, callerOk: bool)
    | Gone(leg: Leg)
    | RingTimeout
    | CallerGaveUp
    | Do(task: Task)

  function Start(rung: map<Leg, bool>): ForkState {
    ForkState(rung, rung.Keys, None, multiset{}, multiset{}, 0, multiset{}, {}, false, false)
  }

  predicate IsBrowser(rung: map<Leg, bool>, leg: Leg) {
    leg in rung && rung[leg]
  }

  function Drops(legs: set<Leg>): multiset<Task> {
    multiset(set leg | leg in legs :: Drop(leg))
  }

  function RingOvers(legs: set<Leg>): multiset<Task> {
    multiset(set leg | leg in legs :: RingOver(leg))
  }

  /** A candidate answers: the first wins, one that comes later is dropped. */
  function OnAnswered(f: ForkState, leg: Leg, callerOk: bool): (r: ForkState)
    ensures r.rung == f.rung && r.abandoned == f.abandoned && r.answers == f.answers + multiset{leg}
    ensures callerOk && !f.refused ==> !r.refused
  {
    var g := f.(answers := f.answers + multiset{leg});
    if leg !in f.candidates then g
    else if f.winner.Some? then g.(tasks := f.tasks + multiset{Drop(leg)}, again := f.again || f.winner == Some(leg))
    else
      g.(winner := Some(leg), refused := !callerOk,
         tasks := f.tasks + Drops(if callerOk then f.candidates - {leg} else f.candidates))
  }

  /** A candidate stops ringing: declined, timed out, closed. */
  function OnGone(f: ForkState, leg: Leg): (r: ForkState)
    ensures r.rung == f.rung && r.abandoned == f.abandoned && r.answers == f.answers && r.refused == f.refused
  {
    if leg !in f.candidates then f
    else
      var rest := f.candidates - {leg};
      if f.winner.Some? then f.(candidates := rest)
      else
        f.(candidates := rest,
           tasks := f.tasks + (if IsBrowser(f.rung, leg) then multiset{Drop(leg)} else multiset{})
                            + (if rest == {} then multiset{NobodyAnswered} else multiset{}))
  }

  function OnRingTimeout(f: ForkState): (r: ForkState)
    ensures r.rung == f.rung && r.abandoned == f.abandoned && r.answers == f.answers && r.refused == f.refused
  {
    if f.winner.Some? then f
    else f.(tasks := f.tasks + RingOvers(set leg | leg in f.candidates && IsBrowser(f.rung, leg)))
  }

  /** The caller hangs up: all are dropped, but the group is not marked as decided. */
  function OnCallerGaveUp(f: ForkState): (r: ForkState)
    ensures r.rung == f.rung && r.answers == f.answers && r.refused == f.refused
  {
    f.(tasks := f.tasks + Drops(f.candidates), abandoned := f.abandoned + f.candidates)
  }

  function OnDo(f: ForkState, task: Task): (r: ForkState)
    ensures r.rung == f.rung && r.abandoned == f.abandoned && r.answers == f.answers && r.refused == f.refused
  {
    if task !in f.tasks then f
    else
      var g := f.(tasks := f.tasks - multiset{task});
      match task
      case Drop(leg) => g.(dropped := f.dropped + multiset{leg})
      case RingOver(leg) => OnGone(g, leg)
      case NobodyAnswered => g.(noAnswers := f.noAnswers + 1)
  }

  function Next(f: ForkState, e: Event): (r: ForkState)
    ensures r.rung == f.rung
    ensures r.answers == if e.Answered? then f.answers + multiset{e.leg} else f.answers
    ensures e != CallerGaveUp ==> r.abandoned == f.abandoned
    ensures (e.Answered? ==> e.callerOk) && !f.refused ==> !r.refused
  {
    match e
    case Answered(leg, callerOk) => OnAnswered(f, leg, callerOk)
    case Gone(leg) => OnGone(f, leg)
    case RingTimeout => OnRingTimeout(f)
    case CallerGaveUp => OnCallerGaveUp(f)
    case Do(task) => OnDo(f, task)
  }

  function Run(f: ForkState, events: seq<Event>): ForkState
    decreases |events|
  {
    if events == [] then f else Next(Run(f, events[..|events| - 1]), events[|events| - 1])
  }

  // ---------------------------------------------------------------------------
  // The invariant
  // ---------------------------------------------------------------------------

  /** How often a leg has been dropped, or is about to be. */
  function Dropping(f: ForkState, leg: Leg): nat {
    f.dropped[leg] + f.tasks[Drop(leg)]
  }

  /** How often the caller has gone down the no-answer path, or is about to. */
  function Unanswered(f: ForkState): nat {
    f.noAnswers + f.tasks[NobodyAnswered]
  }

  ghost predicate Inv(f: ForkState) {
    && f.candidates <= f.rung.Keys
    && f.abandoned <= f.rung.Keys
    && Unanswered(f) == (if f.candidates == {} && f.winner.None? then 1 else 0)
    && match f.winner
       case None =>
         && !f.again && !f.refused
         && (forall leg | leg in f.candidates :: Dropping(f, leg) > 0 <==> leg in f.abandoned)
         && (forall leg | IsBrowser(f.rung, leg) && leg !in f.candidates :: Dropping(f, leg) > 0)
       case Some(w) =>
         && w in f.rung && f.answers[w] >= 1 && (f.again ==> f.answers[w] >= 2)
         && (Dropping(f, w) > 0 <==> f.again || f.refused || w in f.abandoned)
         && (forall leg | (IsBrowser(f.rung, leg) || leg in f.candidates) && leg != w :: Dropping(f, leg) > 0)
  }

  lemma DropsCount(legs: set<Leg>, task: Task)
    ensures Drops(legs)[task] == if task.Drop? && task.leg in legs then 1 else 0
  {
  }

  lemma RingOversCount(legs: set<Leg>, task: Task)
    ensures !task.RingOver? ==> RingOvers(legs)[task] == 0
  {
  }

  lemma WonKeeps(f: ForkState, leg: Leg, callerOk: bool)
    requires Inv(f) && f.winner.None? && leg in f.candidates
    ensures Inv(OnAnswered(f, leg, callerOk))
  {
    var losers := if callerOk then f.candidates - {leg} else f.candidates;
    var g := OnAnswered(f, leg, callerOk);
    forall other ensures Dropping(g, other) == Dropping(f, other) + if other in losers then 1 else 0 {
      DropsCount(losers, Drop(other));
    }
    DropsCount(losers, NobodyAnswered);
  }

  lemma LateAnswerKeeps(f: ForkState, leg: Leg, callerOk: bool)
    requires Inv(f) && (f.winner.Some? || leg !in f.candidates)
    ensures Inv(OnAnswered(f, leg, callerOk))
  {
    var g := OnAnswered(f, leg, callerOk);
    assert forall other ::
      Dropping(g, other) == Dropping(f, other) + (if other == leg && leg in f.candidates then 1 else 0);
  }

  lemma AnsweredKeeps(f: ForkState, leg: Leg, callerOk: bool)
    requires Inv(f)
    ensures Inv(OnAnswered(f, leg, callerOk))
  {
    if f.winner.None? && leg in f.candidates {
      WonKeeps(f, leg, callerOk);
    } else {
      LateAnswerKeeps(f, leg, callerOk);
    }
  }

  lemma GoneKeeps(f: ForkState, leg: Leg)
    requires Inv(f)
    ensures Inv(OnGone(f, leg))
  {
    var g := OnGone(f, leg);
    if leg in f.candidates && f.winner.None? {
      var rest := f.candidates - {leg};
      assert forall other ::
        Dropping(g, other) == Dropping(f, other) + (if other == leg && IsBrowser(f.rung, leg) then 1 else 0);
    }
  }

  lemma RingTimeoutKeeps(f: ForkState)
    requires Inv(f)
    ensures Inv(OnRingTimeout(f))
  {
    var legs := set leg | leg in f.candidates && IsBrowser(f.rung, leg);
    forall task: Task | !task.RingOver? ensures RingOvers(legs)[task] == 0 {
      RingOversCount(legs, task);
    }
  }

  lemma CallerGaveUpKeeps(f: ForkState)
    requires Inv(f)
    ensures Inv(OnCallerGaveUp(f))
  {
    forall task ensures Drops(f.candidates)[task] == if task.Drop? && task.leg in f.candidates then 1 else 0 {
      DropsCount(f.candidates, task);
    }
  }

  lemma RingOverTaken(f: ForkState, leg: Leg)
    requires Inv(f) && RingOver(leg) in f.tasks
    ensures Inv(f.(tasks := f.tasks - multiset{RingOver(leg)}))
  {
    assert forall other :: Dropping(f.(tasks := f.tasks - multiset{RingOver(leg)}), other) == Dropping(f, other);
  }

  lemma DropKeeps(f: ForkState, leg: Leg)
    requires Inv(f) && Drop(leg) in f.tasks
    ensures Inv(OnDo(f, Drop(leg)))
  {
    var g := OnDo(f, Drop(leg));
    assert forall other :: Dropping(g, other) == Dropping(f, other);
    assert Unanswered(g) == Unanswered(f);
  }

  lemma RingOverKeeps(f: ForkState, leg: Leg)
    requires Inv(f) && RingOver(leg) in f.tasks
    ensures Inv(OnDo(f, RingOver(leg)))
  {
    RingOverTaken(f, leg);
    GoneKeeps(f.(tasks := f.tasks - multiset{RingOver(leg)}), leg);
  }

  lemma NobodyAnsweredKeeps(f: ForkState)
    requires Inv(f) && NobodyAnswered in f.tasks
    ensures Inv(OnDo(f, NobodyAnswered))
  {
    var g := OnDo(f, NobodyAnswered);
    assert forall other :: Dropping(g, other) == Dropping(f, other);
    assert Unanswered(g) == Unanswered(f);
  }

  lemma DoKeeps(f: ForkState, task: Task)
    requires Inv(f)
    ensures Inv(OnDo(f, task))
  {
    if task in f.tasks {
      match task
      case Drop(leg) => DropKeeps(f, leg);
      case RingOver(leg) => RingOverKeeps(f, leg);
      case NobodyAnswered => NobodyAnsweredKeeps(f);
    }
  }

  lemma NextKeeps(f: ForkState, e: Event)
    requires Inv(f)
    ensures Inv(Next(f, e))
  {
    match e
    case Answered(leg, callerOk) =>
      AnsweredKeeps(f, leg, callerOk);
      assert Next(f, e) == OnAnswered(f, leg, callerOk);
    case Gone(leg) =>
      GoneKeeps(f, leg);
      assert Next(f, e) == OnGone(f, leg);
    case RingTimeout =>
      RingTimeoutKeeps(f);
      assert Next(f, e) == OnRingTimeout(f);
    case CallerGaveUp =>
      CallerGaveUpKeeps(f);
      assert Next(f, e) == OnCallerGaveUp(f);
    case Do(task) =>
      DoKeeps(f, task);
      assert Next(f, e) == OnDo(f, task);
  }

  lemma {:induction false} RunKeeps(rung: map<Leg, bool>, events: seq<Event>)
    requires rung.Keys != {}
    ensures Inv(Run(Start(rung), events)) && Run(Start(rung), events).rung == rung
    decreases |events|
  {
    if events != [] {
      RunKeeps(rung, events[..|events| - 1]);
      NextKeeps(Run(Start(rung), events[..|events| - 1]), events[|events| - 1]);
    }
  }

  // ---------------------------------------------------------------------------
  // Main results
  // ---------------------------------------------------------------------------

  lemma NextKeepsWinner(f: ForkState, e: Event)
    requires f.winner.Some?
    ensures Next(f, e).winner == f.winner
  {
  }

  /** Once somebody has won, nobody else does. */
  lemma {:induction false} WinnerStays(f: ForkState, events: seq<Event>)
    requires f.winner.Some?
    ensures Run(f, events).winner == f.winner
    decreases |events|
  {
    if events != [] {
      WinnerStays(f, events[..|events| - 1]);
      NextKeepsWinner(Run(f, events[..|events| - 1]), events[|events| - 1]);
    }
  }

  /**
   Every fork ends one way: with a winner the caller never goes down the no-answer
   path; without one, exactly once, and exactly when no candidate is left.
   */
  lemma OneOutcome(rung: map<Leg, bool>, events: seq<Event>)
    requires rung.Keys != {}
    ensures var f := Run(Start(rung), events);
      && (f.winner.Some? ==> Unanswered(f) == 0)
      && (f.winner.None? ==> Unanswered(f) == if f.candidates == {} then 1 else 0)
      && (f.winner.Some? ==> f.winner.value in rung)
  {
    RunKeeps(rung, events);
  }

  /** Candidates that decline on the spot, one after the other, before anything else happens. */
  function Declines(legs: seq<Leg>): seq<Event> {
    seq(|legs|, i requires 0 <= i < |legs| => Gone(legs[i]))
  }

  /** Of the candidates, those are left that have not declined. */
  predicate LeftAfter(f: ForkState, rung: map<Leg, bool>, legs: seq<Leg>) {
    f.winner.None? && f.noAnswers == 0 && f.candidates == set leg | leg in rung && leg !in legs
  }

  lemma OneMoreDecline(f: ForkState, rung: map<Leg, bool>, before: seq<Leg>, leg: Leg)
    requires LeftAfter(f, rung, before)
    ensures LeftAfter(OnGone(f, leg), rung, before + [leg])
  {
  }

  lemma {:induction false} DeclinesTakeOff(rung: map<Leg, bool>, legs: seq<Leg>)
    ensures LeftAfter(Run(Start(rung), Declines(legs)), rung, legs)
    decreases |legs|
  {
    if legs != [] {
      var before, last := legs[..|legs| - 1], legs[|legs| - 1];
      DeclinesTakeOff(rung, before);
      assert Declines(legs)[..|legs| - 1] == Declines(before);
      OneMoreDecline(Run(Start(rung), Declines(before)), rung, before, last);
      assert before + [last] == legs;
    }
  }

  /** They take the caller down the no-answer path at once exactly if they are all the candidates there are. */
  lemma DeclinesAreLastIff(rung: map<Leg, bool>, legs: seq<Leg>)
    requires rung.Keys != {}
    ensures NobodyAnswered in Run(Start(rung), Declines(legs)).tasks <==> forall leg | leg in rung :: leg in legs
  {
    RunKeeps(rung, Declines(legs));
    DeclinesTakeOff(rung, legs);
    var f := Run(Start(rung), Declines(legs));
    assert f.tasks[NobodyAnswered] == Unanswered(f);
    assert f.candidates == {} <==> forall leg | leg in rung :: leg in legs by {
      if f.candidates == {} {
        forall leg | leg in rung ensures leg in legs {
          assert leg !in f.candidates;
        }
      }
    }
  }

  /** Nothing left to do for any handler. */
  predicate Quiet(f: ForkState) {
    f.tasks == multiset{}
  }

  /**
   When the dust has settled on a fork with a winner, every other browser and every other
   candidate has been dropped.
   */
  lemma OthersAreDropped(rung: map<Leg, bool>, events: seq<Event>, leg: Leg)
    requires rung.Keys != {} && Quiet(Run(Start(rung), events))
    requires Run(Start(rung), events).winner.Some? && leg != Run(Start(rung), events).winner.value
    requires (leg in rung && rung[leg]) || leg in Run(Start(rung), events).candidates
    ensures leg in Run(Start(rung), events).dropped
  {
    RunKeeps(rung, events);
    assert Dropping(Run(Start(rung), events), leg) > 0;
  }

  /** And without one, every browser that stopped ringing has been told so, and the caller has gone on. */
  lemma NobodyKeepsRinging(rung: map<Leg, bool>, events: seq<Event>)
    requires rung.Keys != {} && Quiet(Run(Start(rung), events))
    requires var f := Run(Start(rung), events); f.candidates == {} && f.winner.None?
    ensures var f := Run(Start(rung), events); f.noAnswers == 1 && forall leg | leg in rung && rung[leg] ::
      leg in f.dropped
  {
    RunKeeps(rung, events);
    var f := Run(Start(rung), events);
    forall leg | leg in rung && rung[leg] ensures leg in f.dropped {
      assert IsBrowser(f.rung, leg);
    }
  }

  /**
   The winner itself is dropped exactly when it answered again while still listed,
   when the caller gave up while it was a candidate, or when the caller could not be
   answered for it.
   */
  lemma WinnerDroppedIff(rung: map<Leg, bool>, events: seq<Event>)
    requires rung.Keys != {} && Quiet(Run(Start(rung), events))
    requires Run(Start(rung), events).winner.Some?
    ensures var f := Run(Start(rung), events);
      f.winner.value in f.dropped <==> f.again || f.refused || f.winner.value in f.abandoned
  {
    RunKeeps(rung, events);
  }

  function AnswersBy(events: seq<Event>, leg: Leg): nat
    decreases |events|
  {
    if events == [] then 0
    else AnswersBy(events[..|events| - 1], leg) + if events[|events| - 1].Answered? && events[|events| - 1].leg == leg
      then 1 else 0
  }

  lemma {:induction false} HistoryIsTold(rung: map<Leg, bool>, events: seq<Event>, leg: Leg)
    ensures Run(Start(rung), events).answers[leg] == AnswersBy(events, leg)
    ensures CallerGaveUp !in events ==> Run(Start(rung), events).abandoned == {}
    ensures (forall e | e in events && e.Answered? :: e.callerOk) ==> !Run(Start(rung), events).refused
    decreases |events|
  {
    if events != [] {
      var before := events[..|events| - 1];
      HistoryIsTold(rung, before, leg);
      assert forall e | e in before :: e in events;
      assert events[|events| - 1] in events;
    }
  }

  /** So the winner is left alone when nobody answers twice, the caller stays and can be answered. */
  lemma WinnerIsLeftAlone(rung: map<Leg, bool>, events: seq<Event>)
    requires rung.Keys != {} && Run(Start(rung), events).winner.Some?
    requires forall leg :: AnswersBy(events, leg) <= 1
    requires CallerGaveUp !in events && forall e | e in events && e.Answered? :: e.callerOk
    ensures Dropping(Run(Start(rung), events), Run(Start(rung), events).winner.value) == 0
  {
    RunKeeps(rung, events);
    HistoryIsTold(rung, events, Run(Start(rung), events).winner.value);
  }

  /**
   What the event means for this leg, in this state: the caller gives up on it, it answers for a
   caller who cannot be answered, or it answers once more.
   */
  predicate IsReason(f: ForkState, e: Event, leg: Leg) {
    leg in f.candidates
    && match e
       case CallerGaveUp => true
       case Answered(l, callerOk) => l == leg && (f.winner == Some(leg) || (f.winner.None? && !callerOk))
       case _ => false
  }

  ghost predicate HasReason(rung: map<Leg, bool>, events: seq<Event>, leg: Leg) {
    exists i: nat | i < |events| :: IsReason(Run(Start(rung), events[..i]), events[i], leg)
  }

  predicate Recorded(f: ForkState, leg: Leg) {
    leg in f.abandoned || (f.winner == Some(leg) && (f.again || f.refused))
  }

  lemma NextRecords(f: ForkState, e: Event, leg: Leg)
    requires f.winner.None? ==> !f.again && !f.refused
    ensures Recorded(Next(f, e), leg) <==> Recorded(f, leg) || IsReason(f, e, leg)
  {
  }

  lemma OneMoreReason(rung: map<Leg, bool>, before: seq<Event>, e: Event, leg: Leg)
    ensures HasReason(rung, before + [e], leg) <==>
      HasReason(rung, before, leg) || IsReason(Run(Start(rung), before), e, leg)
  {
    var events := before + [e];
    assert events[..|before|] == before;
    assert forall i: nat | i < |before| :: events[..i] == before[..i] && events[i] == before[i];
    if i: nat :| i < |before| && IsReason(Run(Start(rung), before[..i]), before[i], leg) {
      assert IsReason(Run(Start(rung), events[..i]), events[i], leg);
    }
    if IsReason(Run(Start(rung), before), e, leg) {
      assert IsReason(Run(Start(rung), events[..|before|]), events[|before|], leg);
    }
  }

  lemma NothingRecordedYet(rung: map<Leg, bool>, events: seq<Event>)
    requires rung.Keys != {}
    ensures Run(Start(rung), events).winner.None? ==>
      !Run(Start(rung), events).again && !Run(Start(rung), events).refused
  {
    RunKeeps(rung, events);
  }

  lemma {:induction false} ReasonsAreRecorded(rung: map<Leg, bool>, events: seq<Event>, leg: Leg)
    requires rung.Keys != {}
    ensures Recorded(Run(Start(rung), events), leg) <==> HasReason(rung, events, leg)
    decreases |events|
  {
    if events != [] {
      var before, e := events[..|events| - 1], events[|events| - 1];
      ReasonsAreRecorded(rung, before, leg);
      NothingRecordedYet(rung, before);
      NextRecords(Run(Start(rung), before), e, leg);
      assert before + [e] == events;
      OneMoreReason(rung, before, e, leg);
    }
  }

  /**
   Over the events of a run: the winner is dropped exactly if at some moment, while it
   was listed, the caller gave up, it answered for a caller who could not be answered,
   or it answered after it had won.
   */
  lemma WinnerDroppedIffEvent(rung: map<Leg, bool>, events: seq<Event>)
    requires rung.Keys != {} && Quiet(Run(Start(rung), events))
    requires Run(Start(rung), events).winner.Some?
    ensures var w := Run(Start(rung), events).winner.value;
      w in Run(Start(rung), events).dropped <==> HasReason(rung, events, w)
  {
    WinnerDroppedIff(rung, events);
    ReasonsAreRecorded(rung, events, Run(Start(rung), events).winner.value);
  }

  lemma OneDrop(leg: Leg)
    ensures Drops({leg}) == multiset{Drop(leg)} && Drops({}) == multiset{}
  {
    assert (set l | l in {leg} :: Drop(l)) == {Drop(leg)};
  }

  /** The only candidate, a browser. */
  predicate Lonely(f: ForkState, leg: Leg) {
    f.candidates == {leg} && f.winner.None?
  }

  lemma LonelyWins(f: ForkState, leg: Leg, callerOk: bool)
    requires Lonely(f, leg)
    ensures Next(f, Answered(leg, callerOk)) ==
      f.(winner := Some(leg), answers := f.answers + multiset{leg}, refused := !callerOk,
      tasks := if callerOk then f.tasks else f.tasks + multiset{Drop(leg)})
  {
    OneDrop(leg);
    assert f.candidates - {leg} == {};
  }

  lemma DropIsDone(f: ForkState, leg: Leg)
    requires f.tasks == multiset{Drop(leg)}
    ensures Next(f, Do(Drop(leg))) == f.(tasks := multiset{}, dropped := f.dropped + multiset{leg})
  {
  }

  /** It happens when the winner's answer is handled twice, */
  lemma AnsweringTwiceDropsWinner(leg: Leg)
    ensures var f := Run(Start(map[leg := true]), [Answered(leg, true), Answered(leg, true), Do(Drop(leg))]);
      f.winner == Some(leg) && leg in f.dropped && Quiet(f)
  {
    var s := Start(map[leg := true]);
    RunOfThree(s, Answered(leg, true), Answered(leg, true), Do(Drop(leg)));
    LonelyWins(s, leg, true);
    var s1 := Next(s, Answered(leg, true));
    var s2 := Next(s1, Answered(leg, true));
    assert s2.winner == Some(leg) && s2.tasks == multiset{Drop(leg)};
    DropIsDone(s2, leg);
  }

  lemma GivingUpOnLonely(f: ForkState, leg: Leg)
    requires Lonely(f, leg)
    ensures Next(f, CallerGaveUp) == f.(tasks := f.tasks + multiset{Drop(leg)}, abandoned := f.abandoned + {leg})
  {
    OneDrop(leg);
  }

  lemma WinsAndIsDropped(f: ForkState, leg: Leg)
    requires Lonely(f, leg) && f.tasks == multiset{Drop(leg)}
    ensures var g := Next(Next(f, Answered(leg, true)), Do(Drop(leg)));
      g.winner == Some(leg) && leg in g.dropped && Quiet(g)
  {
    LonelyWins(f, leg, true);
    DropIsDone(Next(f, Answered(leg, true)), leg);
  }

  /** when the caller gives up before the answer is handled, */
  lemma CallerLeavingDropsWinner(leg: Leg)
    ensures var f := Run(Start(map[leg := true]), [CallerGaveUp, Answered(leg, true), Do(Drop(leg))]);
      f.winner == Some(leg) && leg in f.dropped && Quiet(f)
  {
    var s := Start(map[leg := true]);
    RunOfThree(s, CallerGaveUp, Answered(leg, true), Do(Drop(leg)));
    GivingUpOnLonely(s, leg);
    WinsAndIsDropped(Next(s, CallerGaveUp), leg);
  }

  /** and when the caller cannot be answered for the winner. */
  lemma RefusedCallerDropsWinner(leg: Leg)
    ensures var f := Run(Start(map[leg := true]), [Answered(leg, false), Do(Drop(leg)), RingTimeout]);
      f.winner == Some(leg) && leg in f.dropped && Quiet(f)
  {
    var s := Start(map[leg := true]);
    RunOfThree(s, Answered(leg, false), Do(Drop(leg)), RingTimeout);
    LonelyWins(s, leg, false);
    DropIsDone(Next(s, Answered(leg, false)), leg);
  }

  lemma RunOfThree(f: ForkState, a: Event, b: Event, c: Event)
    ensures Run(f, [a, b, c]) == Next(Next(Next(f, a), b), c)
  {
    assert [a, b, c][..2] == [a, b] && [a, b][..1] == [a] && [a][..0] == [];
    assert Run(f, [a]) == Next(Run(f, []), a);
    assert Run(f, [a, b]) == Next(Run(f, [a]), b);
  }

  // ---------------------------------------------------------------------------
  // When the ring time is over
  // ---------------------------------------------------------------------------

  lemma {:induction false} RunGoesOn(f: ForkState, before: seq<Event>, after: seq<Event>)
    ensures Run(f, before + after) == Run(Run(f, before), after)
    decreases |after|
  {
    if after == [] {
      assert before + after == before;
    } else {
      assert (before + after)[..|before + after| - 1] == before + after[..|after| - 1];
      RunGoesOn(f, before, after[..|after| - 1]);
    }
  }

  lemma RunThrough(f: ForkState, before: seq<Event>, e: Event, after: seq<Event>)
    ensures Run(f, before + ([e] + after)) == Run(Next(Run(f, before), e), after)
  {
    RunGoesOn(f, before, [e] + after);
    RunGoesOn(Run(f, before), [e], after);
    assert [e][..0] == [];
  }

  /** Each of these has left, or its ring time is about to be ended. */
  ghost predicate Ending(f: ForkState, legs: set<Leg>) {
    forall leg | leg in legs :: leg !in f.candidates || RingOver(leg) in f.tasks
  }

  /** Ring times end for browsers only. */
  ghost predicate OnlyBrowsersTimed(f: ForkState) {
    forall leg | RingOver(leg) in f.tasks :: IsBrowser(f.rung, leg)
  }

  predicate IsListedBrowser(f: ForkState, leg: Leg) {
    leg in f.candidates && IsBrowser(f.rung, leg)
  }

  lemma RingOverIsIn(legs: set<Leg>, leg: Leg)
    ensures RingOvers(legs)[RingOver(leg)] == if leg in legs then 1 else 0
  {
    if leg in legs {
      assert RingOver(leg) in set l | l in legs :: RingOver(l);
    }
  }

  lemma AnswerLeavesRingOvers(f: ForkState, leg: Leg, callerOk: bool, other: Leg)
    ensures OnAnswered(f, leg, callerOk).tasks[RingOver(other)] == f.tasks[RingOver(other)]
  {
    DropsCount(if callerOk then f.candidates - {leg} else f.candidates, RingOver(other));
  }

  lemma TimeoutAddsRingOvers(f: ForkState, leg: Leg)
    ensures OnRingTimeout(f).tasks[RingOver(leg)] == f.tasks[RingOver(leg)] +
      if f.winner.None? && IsListedBrowser(f, leg) then 1 else 0
  {
    var browsers := set l | l in f.candidates && IsBrowser(f.rung, l);
    RingOverIsIn(browsers, leg);
  }

  lemma GivingUpLeavesRingOvers(f: ForkState, leg: Leg)
    ensures OnCallerGaveUp(f).tasks[RingOver(leg)] == f.tasks[RingOver(leg)]
  {
    DropsCount(f.candidates, RingOver(leg));
  }

  lemma GoneLeavesRingOvers(f: ForkState, leg: Leg, other: Leg)
    ensures OnGone(f, leg).tasks[RingOver(other)] == f.tasks[RingOver(other)]
    ensures leg !in OnGone(f, leg).candidates && OnGone(f, leg).candidates <= f.candidates
    ensures other != leg && other in f.candidates ==> other in OnGone(f, leg).candidates
  {
  }

  lemma DoTakesRingOver(f: ForkState, task: Task, leg: Leg)
    ensures OnDo(f, task).tasks[RingOver(leg)] ==
      if task == RingOver(leg) && task in f.tasks then f.tasks[task] - 1 else f.tasks[RingOver(leg)]
    ensures task == RingOver(leg) && task in f.tasks ==> leg !in OnDo(f, task).candidates
    ensures OnDo(f, task).candidates <= f.candidates
  {
    if task.RingOver? && task in f.tasks {
      GoneLeavesRingOvers(f.(tasks := f.tasks - multiset{task}), task.leg, leg);
    }
  }

  /** What an event does to the ring time of one leg: begins to end it, or ends it by taking the leg off the list. */
  lemma RingOverMoves(f: ForkState, e: Event, leg: Leg)
    ensures var g := Next(f, e);
      && g.tasks[RingOver(leg)] == (
        if e == RingTimeout && f.winner.None? && IsListedBrowser(f, leg) then f.tasks[RingOver(leg)] + 1
        else if e == Do(RingOver(leg)) && RingOver(leg) in f.tasks then f.tasks[RingOver(leg)] - 1
        else f.tasks[RingOver(leg)])
      && (e == Do(RingOver(leg)) && RingOver(leg) in f.tasks ==> leg !in g.candidates)
      && g.candidates <= f.candidates
  {
    match e
    case Answered(l, callerOk) => AnswerLeavesRingOvers(f, l, callerOk, leg);
    case Gone(l) => GoneLeavesRingOvers(f, l, leg);
    case RingTimeout => TimeoutAddsRingOvers(f, leg);
    case CallerGaveUp => GivingUpLeavesRingOvers(f, leg);
    case Do(task) => DoTakesRingOver(f, task, leg);
  }

  lemma TimeoutEnds(f: ForkState)
    requires f.winner.None?
    ensures Ending(Next(f, RingTimeout), set leg | leg in f.candidates && IsBrowser(f.rung, leg))
    ensures Next(f, RingTimeout).candidates == f.candidates && Next(f, RingTimeout).winner.None?
  {
    forall leg | IsListedBrowser(f, leg) ensures RingOver(leg) in Next(f, RingTimeout).tasks {
      RingOverMoves(f, RingTimeout, leg);
    }
  }

  lemma NextStaysEnding(f: ForkState, e: Event, legs: set<Leg>)
    requires Ending(f, legs)
    ensures Ending(Next(f, e), legs) && Next(f, e).candidates <= f.candidates
  {
    forall leg | leg in legs ensures leg !in Next(f, e).candidates || RingOver(leg) in Next(f, e).tasks {
      RingOverMoves(f, e, leg);
    }
    RingOverMoves(f, e, "");
  }

  lemma {:induction false} StaysEnding(f: ForkState, events: seq<Event>, legs: set<Leg>)
    requires Ending(f, legs)
    ensures Ending(Run(f, events), legs) && Run(f, events).candidates <= f.candidates
    decreases |events|
  {
    if events != [] {
      StaysEnding(f, events[..|events| - 1], legs);
      NextStaysEnding(Run(f, events[..|events| - 1]), events[|events| - 1], legs);
    }
  }

  lemma NextTimesBrowsers(f: ForkState, e: Event)
    requires OnlyBrowsersTimed(f)
    ensures OnlyBrowsersTimed(Next(f, e))
  {
    forall leg | RingOver(leg) in Next(f, e).tasks ensures IsBrowser(f.rung, leg) {
      RingOverMoves(f, e, leg);
    }
  }

  lemma {:induction false} RunTimesBrowsers(f: ForkState, events: seq<Event>)
    requires OnlyBrowsersTimed(f)
    ensures OnlyBrowsersTimed(Run(f, events))
    decreases |events|
  {
    if events != [] {
      RunTimesBrowsers(f, events[..|events| - 1]);
      NextTimesBrowsers(Run(f, events[..|events| - 1]), events[|events| - 1]);
    }
  }

  lemma TaskKeepsPhone(f: ForkState, task: Task, leg: Leg)
    requires OnlyBrowsersTimed(f) && leg in f.candidates && !IsBrowser(f.rung, leg)
    ensures leg in OnDo(f, task).candidates
  {
    if task.RingOver? && task in f.tasks {
      GoneLeavesRingOvers(f.(tasks := f.tasks - multiset{task}), task.leg, leg);
    }
  }

  /** Nobody has won, and these phones are listed. */
  ghost predicate PhonesRing(f: ForkState, phones: set<Leg>) {
    f.winner.None? && phones <= f.candidates && forall leg | leg in phones :: !IsBrowser(f.rung, leg)
  }

  lemma TaskKeepsPhones(f: ForkState, task: Task, phones: set<Leg>)
    requires OnlyBrowsersTimed(f) && PhonesRing(f, phones)
    ensures PhonesRing(OnDo(f, task), phones)
  {
    forall leg | leg in phones ensures leg in OnDo(f, task).candidates {
      TaskKeepsPhone(f, task, leg);
    }
  }

  /** Doing tasks makes nobody win, and takes no phone off the list. */
  lemma {:induction false} TasksKeepPhones(f: ForkState, events: seq<Event>, phones: set<Leg>)
    requires OnlyBrowsersTimed(f) && PhonesRing(f, phones) && forall e | e in events :: e.Do?
    ensures PhonesRing(Run(f, events), phones)
    decreases |events|
  {
    if events != [] {
      var before := events[..|events| - 1];
      assert forall e | e in before :: e in events;
      assert events[|events| - 1] in events;
      TasksKeepPhones(f, before, phones);
      RunTimesBrowsers(f, before);
      TaskKeepsPhones(Run(f, before), events[|events| - 1].task, phones);
    }
  }

  /** All done without a winner, these browsers are off the list, and have been told. */
  lemma EndedRings(g: ForkState, browsers: set<Leg>)
    requires Inv(g) && Quiet(g) && g.winner.None? && Ending(g, browsers)
    requires forall leg | leg in browsers :: IsBrowser(g.rung, leg)
    ensures forall leg | leg in browsers :: leg !in g.candidates && leg in g.dropped
    ensures g.noAnswers == if g.candidates == {} then 1 else 0
  {
    forall leg | leg in browsers ensures leg !in g.candidates && leg in g.dropped {
      assert Dropping(g, leg) > 0;
    }
    assert Unanswered(g) == g.noAnswers;
  }

  /**
   The ring time is over and nobody has won. Whatever comes, if in the end all tasks are done and
   nobody has won even then, every browser that was listed is off the list and has been told to stop,
   and if nobody is left the caller has gone on exactly once.
   */
  lemma RingTimeEnds(rung: map<Leg, bool>, before: seq<Event>, after: seq<Event>)
    requires rung.Keys != {} && Run(Start(rung), before).winner.None?
    ensures var f, g := Run(Start(rung), before), Run(Start(rung), before + ([RingTimeout] + after));
      Quiet(g) && g.winner.None? ==>
        && (forall leg | leg in f.candidates && leg in rung && rung[leg] :: leg !in g.candidates && leg in g.dropped)
        && g.candidates <= f.candidates && g.noAnswers == if g.candidates == {} then 1 else 0
  {
    var f := Run(Start(rung), before);
    var browsers := set leg | leg in f.candidates && IsBrowser(f.rung, leg);
    RunKeeps(rung, before);
    RunTimesBrowsers(Start(rung), before);
    RunThrough(Start(rung), before, RingTimeout, after);
    TimeoutEnds(f);
    StaysEnding(Next(f, RingTimeout), after, browsers);
    RunKeeps(rung, before + ([RingTimeout] + after));
    var g := Run(Start(rung), before + ([RingTimeout] + after));
    if Quiet(g) && g.winner.None? {
      EndedRings(g, browsers);
    }
  }

  /** If nothing comes but the tasks themselves, exactly the phones that were listed still ring. */
  lemma OnlyPhonesRingOn(rung: map<Leg, bool>, before: seq<Event>, tasks: seq<Event>)
    requires rung.Keys != {} && Run(Start(rung), before).winner.None? && forall e | e in tasks :: e.Do?
    ensures var f, g := Run(Start(rung), before), Run(Start(rung), before + ([RingTimeout] + tasks));
      Quiet(g) ==> g.winner.None? && g.candidates == set leg | leg in f.candidates && !(leg in rung && rung[leg])
  {
    var f := Run(Start(rung), before);
    RingTimeEnds(rung, before, tasks);
    RunKeeps(rung, before);
    RunTimesBrowsers(Start(rung), before);
    RunThrough(Start(rung), before, RingTimeout, tasks);
    TimeoutEnds(f);
    NextTimesBrowsers(f, RingTimeout);
    TasksKeepPhones(Next(f, RingTimeout), tasks, set leg | leg in f.candidates && !IsBrowser(f.rung, leg));
  }

  /** Once somebody has won, the end of the ring time changes nothing. */
  lemma RingTimeAfterWin(f: ForkState)
    requires f.winner.Some?
    ensures Next(f, RingTimeout) == f
  {
  }
}
