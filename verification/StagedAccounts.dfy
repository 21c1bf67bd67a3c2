/**
 Nothing of what is staged is lost (cmd/interpreter/interpret.go, session.go), at the
 granularity of the locks: every id ends up staged or sent for, the index is cleared of
 what is not staged, and no two handlers guess about one turn at a time.
 */
module StagedAccounts {
  import opened Options
  import opened Staging
  import opened StagedOwnership

  // ---------------------------------------------------------------------------
  // Nothing is lost
  // ---------------------------------------------------------------------------

  ghost function AttemptedIds(attempts: seq<Attempt>): set<TtsId> {
    set i | 0 <= i < |attempts| :: attempts[i].id
  }

  /** The step hands on every id it finds: to the desk, to the handler, or to the server. */
  ghost predicate HandsOn(d: Desk, news: set<TtsId>, hd: Handler, eff: Effect) {
    StagedIds(d) + Holds(hd) + news <= StagedIds(eff.desk) + Holds(eff.next) + AttemptedIds(eff.sent)
  }

  /** The listener's leg is up, and nothing is staged over what is staged already. */
  predicate Careful(d: Desk, hd: Handler, a: Answer) {
    a.legUp && (hd.Putting? ==> hd.turn !in d.staged)
  }

  lemma PreflightHandsOn(d: Desk, nextId: TtsId, hd: Handler, a: Answer)
    requires DeskOk(d) && InPreflight(hd) && Careful(d, hd, a)
    ensures var eff := AdvancePreflight(d, nextId, hd, a); HandsOn(d, if eff.staged then {nextId} else {}, hd, eff)
  {
    var eff := AdvancePreflight(d, nextId, hd, a);
    if hd.Putting? {
      assert eff.desk.staged[hd.turn] == hd.st;
      forall id | id in StagedIds(d) ensures id in StagedIds(eff.desk) {
        var t :| t in d.staged && d.staged[t].ttsID == id;
        assert t in eff.desk.staged && eff.desk.staged[t] == d.staged[t];
      }
    } else if hd.DroppingStale? {
      assert eff.sent[0].id == hd.st.ttsID;
    }
  }

  lemma EvictionHandsOn(d: Desk, hd: Handler, a: Answer)
    requires DeskOk(d) && InEviction(hd) && Careful(d, hd, a) && Releases(hd) !! StagedIds(d)
    ensures HandsOn(d, {}, hd, AdvanceEviction(d, hd, a))
  {
    if hd.TakingOldest? {
      TakeKeeps(d, hd.oldest);
    } else if hd.DiscardingOldest? {
      assert AdvanceEviction(d, hd, a).sent[0].id == hd.victim;
    } else if hd.ReleasingOldest? {
      ReleaseKeeps(d, hd.victim);
    }
  }

  lemma FinishHandsOn(d: Desk, hd: Handler, a: Answer)
    requires DeskOk(d) && InFinish(hd) && Careful(d, hd, a)
    ensures HandsOn(d, {}, hd, AdvanceFinish(d, hd, a))
  {
    if hd.TakingFinal? {
      TakeKeeps(d, hd.turn);
    } else if hd.Committing? || hd.DiscardingFinal? {
      assert AdvanceFinish(d, hd, a).sent[0].id == hd.st.ttsID;
    }
  }

  lemma DiscardHandsOn(d: Desk, hd: Handler, a: Answer)
    requires DeskOk(d) && !InPreflight(hd) && !InEviction(hd) && !InFinish(hd) && Careful(d, hd, a)
    requires Releases(hd) !! StagedIds(d)
    ensures HandsOn(d, {}, hd, AdvanceDiscard(d, hd, a))
  {
    match hd
    case TakingResumed(turn) => TakeKeeps(d, turn);
    case DiscardingResumed(st) => assert AdvanceDiscard(d, hd, a).sent[0].id == st.ttsID;
    case Releasing(id) => ReleaseKeeps(d, id);
    case DiscardingMany(ids) => if a.which in ids { assert AdvanceDiscard(d, hd, a).sent[0].id == a.which; }
    case Done =>
  }

  lemma AdvanceHandsOn(d: Desk, nextId: TtsId, hd: Handler, a: Answer)
    requires DeskOk(d) && Careful(d, hd, a) && Releases(hd) !! StagedIds(d)
    requires nextId !in StagedIds(d) && Holds(hd) !! StagedIds(d)
    ensures var eff := Advance(d, nextId, hd, a); HandsOn(d, if eff.staged then {nextId} else {}, hd, eff)
  {
    AdvanceMovesOwnership(d, nextId, hd, a);
    if InPreflight(hd) {
      PreflightHandsOn(d, nextId, hd, a);
    } else if InEviction(hd) {
      EvictionHandsOn(d, hd, a);
      EvictionMovesOwnership(d, hd, a);
    } else if InFinish(hd) {
      FinishHandsOn(d, hd, a);
      FinishMovesOwnership(d, hd, a);
    } else {
      DiscardHandsOn(d, hd, a);
      DiscardMovesOwnership(d, hd, a);
    }
  }

  ghost predicate SomebodyHolds(s: State, id: TtsId) {
    exists h :: h in s.handlers && id in Holds(s.handlers[h])
  }

  /** Every id ever given out is staged, in some handler's hands, or was sent for. */
  ghost predicate AllAccounted(s: State) {
    forall id: TtsId | id < s.nextId ::
      id in StagedIds(s.desk) || SomebodyHolds(s, id) || id in AttemptedIds(s.attempts)
  }

  lemma AttemptedMore(a: seq<Attempt>, b: seq<Attempt>)
    ensures AttemptedIds(a + b) == AttemptedIds(a) + AttemptedIds(b)
  {
    forall id | id in AttemptedIds(b) ensures id in AttemptedIds(a + b) {
      var i :| 0 <= i < |b| && b[i].id == id;
      assert (a + b)[|a| + i].id == id;
    }
    forall id | id in AttemptedIds(a) ensures id in AttemptedIds(a + b) {
      var i :| 0 <= i < |a| && a[i].id == id;
      assert (a + b)[i].id == id;
    }
  }

  lemma ApplyAccounts(s: State, h: nat, eff: Effect)
    requires AllAccounted(s) && h in s.handlers
    requires HandsOn(s.desk, if eff.staged then {s.nextId} else {}, s.handlers[h], eff)
    ensures AllAccounted(Apply(s, h, eff))
  {
    var t := Apply(s, h, eff);
    AttemptedMore(s.attempts, eff.sent);
    forall id: TtsId | id < t.nextId
      ensures id in StagedIds(t.desk) || SomebodyHolds(t, id) || id in AttemptedIds(t.attempts) {
      if SomebodyHolds(s, id) && id !in Holds(s.handlers[h]) {
        var k :| k in s.handlers && id in Holds(s.handlers[k]);
        assert k in t.handlers && t.handlers[k] == s.handlers[k];
      }
      if id in Holds(eff.next) {
        assert id in Holds(t.handlers[h]);
      }
    }
  }

  lemma StepAccounts(s: State, h: nat, a: Answer)
    requires Inv(s) && AllAccounted(s) && h in s.handlers && Careful(s.desk, s.handlers[h], a)
    ensures AllAccounted(Next(s, Step(h, a)))
  {
    AdvanceHandsOn(s.desk, s.nextId, s.handlers[h], a);
    ApplyAccounts(s, h, Advance(s.desk, s.nextId, s.handlers[h], a));
  }

  lemma DropAccounts(s: State, h: nat, turns: set<int>)
    requires Inv(s) && AllAccounted(s) && h !in s.handlers
    ensures AllAccounted(DropAndDiscard(s, h, turns))
  {
    var t := DropAndDiscard(s, h, turns);
    DropTurnsKeeps(s.desk, turns);
    forall id: TtsId | id < t.nextId
      ensures id in StagedIds(t.desk) || SomebodyHolds(t, id) || id in AttemptedIds(t.attempts) {
      if SomebodyHolds(s, id) {
        var k :| k in s.handlers && id in Holds(s.handlers[k]);
        assert k in t.handlers && t.handlers[k] == s.handlers[k];
      }
      if id in IdsOf(s.desk, turns) {
        assert id in Holds(t.handlers[h]);
      }
    }
  }

  lemma QuietAccounts(s: State, t: State)
    requires AllAccounted(s) && t.desk.staged == s.desk.staged && t.nextId == s.nextId && t.attempts == s.attempts
    requires forall h | h in s.handlers :: h in t.handlers && t.handlers[h] == s.handlers[h]
    ensures AllAccounted(t)
  {
    assert StagedIds(t.desk) == StagedIds(s.desk);
    forall id: TtsId | SomebodyHolds(s, id) ensures SomebodyHolds(t, id) {
      var k :| k in s.handlers && id in Holds(s.handlers[k]);
      assert t.handlers[k] == s.handlers[k];
    }
  }

  /** All through the run, the leg is up and nothing is staged over what is staged already. */
  ghost predicate CarefulAlong(s: State, events: seq<Event>)
    decreases |events|
  {
    events != [] ==>
      && (events[0].Step? && events[0].h in s.handlers ==> Careful(s.desk, s.handlers[events[0].h], events[0].answer))
      && CarefulAlong(Next(s, events[0]), events[1..])
  }

  lemma NextAccounts(s: State, e: Event)
    requires Inv(s) && AllAccounted(s)
    requires e.Step? && e.h in s.handlers ==> Careful(s.desk, s.handlers[e.h], e.answer)
    ensures AllAccounted(Next(s, e))
  {
    match e
    case Step(h, a) => if h in s.handlers { StepAccounts(s, h, a); }
    case VoiceOrLanguageChanged(h) => if h !in s.handlers { DropAccounts(s, h, s.desk.staged.Keys); }
    case SweepTick(h, cutoff) => if h !in s.handlers { DropAccounts(s, h, ExpiredTurns(s.desk, cutoff)); }
    case _ => QuietAccounts(s, Next(s, e));
  }

  lemma {:induction false} RunAccounts(s: State, events: seq<Event>)
    requires Inv(s) && AllAccounted(s) && CarefulAlong(s, events)
    ensures AllAccounted(Run(s, events))
    decreases |events|
  {
    if events != [] {
      var e := events[0];
      NextKeeps(s, e);
      NextAccounts(s, e);
      RunAccounts(Next(s, e), events[1..]);
    }
  }

  predicate IsOnlyAttempt(attempts: seq<Attempt>, i: nat, id: TtsId)
    requires i < |attempts|
  {
    attempts[i].id == id && forall j | 0 <= j < |attempts| && j != i :: attempts[j].id != id
  }

  /**
   Over every interleaving in which the listener's leg is up and no turn is staged twice: once all
   handlers have come to their end, every id ever given out is staged still, or was sent exactly one
   commit or discard.
   */
  lemma NothingIsLost(events: seq<Event>, id: TtsId)
    requires CarefulAlong(START, events) && id < Run(START, events).nextId
    requires forall h | h in Run(START, events).handlers :: Run(START, events).handlers[h].Done?
    ensures var s := Run(START, events);
      if id in StagedIds(s.desk) then id !in AttemptedIds(s.attempts)
      else exists i | 0 <= i < |s.attempts| :: IsOnlyAttempt(s.attempts, i, id)
  {
    RunKeeps(START, events);
    RunAccounts(START, events);
    var s := Run(START, events);
    if id !in StagedIds(s.desk) {
      assert id in AttemptedIds(s.attempts);
      var i :| 0 <= i < |s.attempts| && s.attempts[i].id == id;
      assert IsOnlyAttempt(s.attempts, i, id);
    }
  }

  // ---------------------------------------------------------------------------
  // The index
  // ---------------------------------------------------------------------------

  /** An id that was just given out, and is not indexed yet. */
  function JustIssued(hd: Handler): set<TtsId> {
    match hd
    case CheckingStale(_, st) => {st.ttsID}
    case Putting(_, st) => {st.ttsID}
    case DroppingStale(_, st) => {st.ttsID}
    case _ => {}
  }

  /** An id that was taken off the desk, and is indexed until it is released. */
  function TakenOff(hd: Handler): set<TtsId> {
    if hd.DiscardingMany? then {} else Holds(hd) - JustIssued(hd) + Releases(hd)
  }

  ghost predicate SomebodyTook(s: State, id: TtsId) {
    exists h :: h in s.handlers && id in TakenOff(s.handlers[h])
  }

  /** What is indexed is staged, or somebody has taken it and will release it. */
  ghost predicate IndexOk(s: State) {
    && (forall id | id in s.desk.stagedByID :: id < s.nextId && (id in StagedIds(s.desk) || SomebodyTook(s, id)))
    && (forall h, id | h in s.handlers && id in JustIssued(s.handlers[h]) :: id !in s.desk.stagedByID)
  }

  /** What a step does to the index: whatever leaves the desk or the handler unreleased stays with the handler. */
  ghost predicate IndexMoves(d: Desk, nextId: TtsId, hd: Handler, eff: Effect) {
    && (forall id | id in eff.desk.stagedByID ::
      || (id in d.stagedByID && (id in TakenOff(hd) ==> id in StagedIds(eff.desk) || id in TakenOff(eff.next)))
      || (id in JustIssued(hd) && id in StagedIds(eff.desk)))
    && (forall id | id in StagedIds(d) :: id in StagedIds(eff.desk) || id in TakenOff(eff.next))
    && (forall id | id in JustIssued(eff.next) ::
      (id in JustIssued(hd) && eff.desk.stagedByID == d.stagedByID) || (eff.staged && id == nextId && eff.desk == d))
    && (eff.staged ==> eff.desk == d)
  }

  lemma PreflightMovesIndex(d: Desk, nextId: TtsId, hd: Handler, a: Answer)
    requires DeskOk(d) && InPreflight(hd) && Careful(d, hd, a)
    ensures IndexMoves(d, nextId, hd, AdvancePreflight(d, nextId, hd, a))
  {
    var eff := AdvancePreflight(d, nextId, hd, a);
    if hd.Putting? {
      assert eff.desk.staged[hd.turn] == hd.st;
      forall id | id in StagedIds(d) ensures id in StagedIds(eff.desk) {
        var t :| t in d.staged && d.staged[t].ttsID == id;
        assert eff.desk.staged[t] == d.staged[t];
      }
    } else {
      assert StagedIds(eff.desk) == StagedIds(d);
    }
  }

  lemma EvictionMovesIndex(d: Desk, nextId: TtsId, hd: Handler, a: Answer)
    requires DeskOk(d) && InEviction(hd) && Releases(hd) !! StagedIds(d)
    ensures IndexMoves(d, nextId, hd, AdvanceEviction(d, hd, a))
  {
    match hd
    case LookingForOldest(_, _, _) => LookingMovesIndex(d, nextId, hd, a);
    case TakingOldest(_, _, _, _) => OldestTakenMovesIndex(d, nextId, hd, a);
    case DiscardingOldest(_, _, _, _) => OldestDiscardedMovesIndex(d, nextId, hd, a);
    case ReleasingOldest(_, _, _, _) => OldestReleasedMovesIndex(d, nextId, hd, a);
  }

  lemma LookingMovesIndex(d: Desk, nextId: TtsId, hd: Handler, a: Answer)
    requires hd.LookingForOldest?
    ensures IndexMoves(d, nextId, hd, AdvanceEviction(d, hd, a))
  {
  }

  lemma OldestDiscardedMovesIndex(d: Desk, nextId: TtsId, hd: Handler, a: Answer)
    requires hd.DiscardingOldest?
    ensures IndexMoves(d, nextId, hd, AdvanceEviction(d, hd, a))
  {
  }

  lemma OldestReleasedMovesIndex(d: Desk, nextId: TtsId, hd: Handler, a: Answer)
    requires DeskOk(d) && hd.ReleasingOldest? && hd.victim !in StagedIds(d)
    ensures IndexMoves(d, nextId, hd, AdvanceEviction(d, hd, a))
  {
    ReleaseKeeps(d, hd.victim);
  }

  lemma OldestTakenMovesIndex(d: Desk, nextId: TtsId, hd: Handler, a: Answer)
    requires DeskOk(d) && hd.TakingOldest?
    ensures IndexMoves(d, nextId, hd, AdvanceEviction(d, hd, a))
  {
    TakeKeeps(d, hd.oldest);
  }

  lemma FinishMovesIndex(d: Desk, nextId: TtsId, hd: Handler, a: Answer)
    requires DeskOk(d) && InFinish(hd)
    ensures IndexMoves(d, nextId, hd, AdvanceFinish(d, hd, a))
  {
    if hd.TakingFinal? {
      FinalTakenMovesIndex(d, nextId, hd, a);
    } else {
      FinalMovesIndex(d, nextId, hd, a);
    }
  }

  lemma FinalMovesIndex(d: Desk, nextId: TtsId, hd: Handler, a: Answer)
    requires InFinish(hd) && !hd.TakingFinal?
    ensures IndexMoves(d, nextId, hd, AdvanceFinish(d, hd, a))
  {
  }

  lemma FinalTakenMovesIndex(d: Desk, nextId: TtsId, hd: Handler, a: Answer)
    requires DeskOk(d) && hd.TakingFinal?
    ensures IndexMoves(d, nextId, hd, AdvanceFinish(d, hd, a))
  {
    TakeKeeps(d, hd.turn);
  }

  lemma DiscardMovesIndex(d: Desk, nextId: TtsId, hd: Handler, a: Answer)
    requires DeskOk(d) && !InPreflight(hd) && !InEviction(hd) && !InFinish(hd) && Releases(hd) !! StagedIds(d)
    ensures IndexMoves(d, nextId, hd, AdvanceDiscard(d, hd, a))
  {
    if hd.TakingResumed? {
      TakeKeeps(d, hd.turn);
    } else if hd.Releasing? {
      ReleaseKeeps(d, hd.id);
    }
  }

  lemma ApplyKeepsIndex(s: State, h: nat, eff: Effect)
    requires Inv(s) && IndexOk(s) && h in s.handlers && IndexMoves(s.desk, s.nextId, s.handlers[h], eff)
    ensures IndexOk(Apply(s, h, eff))
  {
    var t := Apply(s, h, eff);
    forall id | id in t.desk.stagedByID ensures id < t.nextId && (id in StagedIds(t.desk) || SomebodyTook(t, id)) {
      if id in s.desk.stagedByID && SomebodyTook(s, id) && id !in TakenOff(s.handlers[h]) {
        var k :| k in s.handlers && id in TakenOff(s.handlers[k]);
        assert t.handlers[k] == s.handlers[k];
      }
      if id in TakenOff(eff.next) {
        assert t.handlers[h] == eff.next;
      }
    }
  }

  lemma StepKeepsIndex(s: State, h: nat, a: Answer)
    requires Inv(s) && IndexOk(s) && h in s.handlers && Careful(s.desk, s.handlers[h], a)
    ensures IndexOk(Next(s, Step(h, a)))
  {
    var d, hd := s.desk, s.handlers[h];
    AdvanceMovesOwnership(d, s.nextId, hd, a);
    if InPreflight(hd) {
      PreflightMovesIndex(d, s.nextId, hd, a);
    } else if InEviction(hd) {
      EvictionMovesIndex(d, s.nextId, hd, a);
    } else if InFinish(hd) {
      FinishMovesIndex(d, s.nextId, hd, a);
    } else {
      DiscardMovesIndex(d, s.nextId, hd, a);
    }
    ApplyKeepsIndex(s, h, Advance(d, s.nextId, hd, a));
  }

  lemma TakersStay(s: State, t: State)
    requires forall h | h in s.handlers :: h in t.handlers && t.handlers[h] == s.handlers[h]
    ensures forall id | SomebodyTook(s, id) :: SomebodyTook(t, id)
  {
    forall id | SomebodyTook(s, id) ensures SomebodyTook(t, id) {
      var k :| k in s.handlers && id in TakenOff(s.handlers[k]);
      assert t.handlers[k] == s.handlers[k];
    }
  }

  lemma DroppedFromIndex(d: Desk, turns: set<int>)
    requires DeskOk(d)
    ensures forall id | id in DropTurns(d, turns).stagedByID ::
      id in d.stagedByID && (id in StagedIds(d) ==> id in StagedIds(DropTurns(d, turns)))
  {
    DropTurnsKeeps(d, turns);
  }

  lemma DropKeepsIndex(s: State, h: nat, turns: set<int>)
    requires Inv(s) && IndexOk(s) && h !in s.handlers
    ensures IndexOk(DropAndDiscard(s, h, turns))
  {
    var t := DropAndDiscard(s, h, turns);
    DroppedFromIndex(s.desk, turns);
    TakersStay(s, t);
    forall k, id | k in t.handlers && id in JustIssued(t.handlers[k]) ensures id !in t.desk.stagedByID {
      assert k in s.handlers && t.handlers[k] == s.handlers[k];
    }
  }

  lemma QuietKeepsIndex(s: State, t: State)
    requires IndexOk(s) && t.nextId == s.nextId
    requires t.desk.staged == s.desk.staged && t.desk.stagedByID == s.desk.stagedByID
    requires forall h | h in s.handlers :: h in t.handlers && t.handlers[h] == s.handlers[h]
    requires forall h | h in t.handlers && h !in s.handlers :: JustIssued(t.handlers[h]) == {}
    ensures IndexOk(t)
  {
    assert StagedIds(t.desk) == StagedIds(s.desk);
    TakersStay(s, t);
  }

  lemma NextKeepsIndex(s: State, e: Event)
    requires Inv(s) && IndexOk(s)
    requires e.Step? && e.h in s.handlers ==> Careful(s.desk, s.handlers[e.h], e.answer)
    ensures IndexOk(Next(s, e))
  {
    match e
    case Step(h, a) => if h in s.handlers { StepKeepsIndex(s, h, a); }
    case VoiceOrLanguageChanged(h) => if h !in s.handlers { DropKeepsIndex(s, h, s.desk.staged.Keys); }
    case SweepTick(h, cutoff) => if h !in s.handlers { DropKeepsIndex(s, h, ExpiredTurns(s.desk, cutoff)); }
    case _ => QuietKeepsIndex(s, Next(s, e));
  }

  lemma {:induction false} RunKeepsIndex(s: State, events: seq<Event>)
    requires Inv(s) && IndexOk(s) && CarefulAlong(s, events)
    ensures IndexOk(Run(s, events))
    decreases |events|
  {
    if events != [] {
      var e := events[0];
      NextKeeps(s, e);
      NextKeepsIndex(s, e);
      RunKeepsIndex(Next(s, e), events[1..]);
    }
  }

  /** In the same runs, once all handlers have come to their end, just what is staged is indexed. */
  lemma IndexIsDesk(events: seq<Event>, id: TtsId)
    requires CarefulAlong(START, events)
    requires forall h | h in Run(START, events).handlers :: Run(START, events).handlers[h].Done?
    ensures id in Run(START, events).desk.stagedByID <==> id in StagedIds(Run(START, events).desk)
  {
    RunKeeps(START, events);
    RunKeepsIndex(START, events);
  }

  // ---------------------------------------------------------------------------
  // One guess at a time
  // ---------------------------------------------------------------------------

  /** The turn that the handler is guessing about. */
  function GuessesAbout(hd: Handler): Option<int> {
    if InPreflight(hd) || InEviction(hd) then Some(hd.turn) else None
  }

  ghost predicate SomebodyGuesses(s: State, turn: int) {
    exists h :: h in s.handlers && GuessesAbout(s.handlers[h]) == Some(turn)
  }

  /** Whoever guesses about a turn has put up its barrier, and nobody else guesses about it. */
  ghost predicate Barriers(s: State) {
    && (forall h | h in s.handlers && GuessesAbout(s.handlers[h]).Some? ::
      GuessesAbout(s.handlers[h]).value in s.desk.pending)
    && (forall h, k | h in s.handlers && k in s.handlers && h != k && GuessesAbout(s.handlers[h]).Some? ::
      GuessesAbout(s.handlers[h]) != GuessesAbout(s.handlers[k]))
    && (forall turn | turn in s.desk.pending :: SomebodyGuesses(s, turn))
  }

  /** A step goes on guessing about the same turn, or takes the barrier down. */
  predicate MovesBarrier(d: Desk, hd: Handler, eff: Effect) {
    || (GuessesAbout(eff.next) == GuessesAbout(hd) && eff.desk.pending == d.pending)
    || (GuessesAbout(hd).Some? && eff.next.Done? && eff.desk.pending == d.pending - {GuessesAbout(hd).value})
  }

  lemma PreflightMovesBarrier(d: Desk, nextId: TtsId, hd: Handler, a: Answer)
    requires InPreflight(hd)
    ensures MovesBarrier(d, hd, AdvancePreflight(d, nextId, hd, a))
  {
  }

  lemma EvictionMovesBarrier(d: Desk, hd: Handler, a: Answer)
    requires InEviction(hd)
    ensures MovesBarrier(d, hd, AdvanceEviction(d, hd, a))
  {
  }

  lemma FinishMovesBarrier(d: Desk, hd: Handler, a: Answer)
    requires InFinish(hd)
    ensures MovesBarrier(d, hd, AdvanceFinish(d, hd, a))
  {
  }

  lemma DiscardMovesBarrier(d: Desk, hd: Handler, a: Answer)
    requires !InPreflight(hd) && !InEviction(hd) && !InFinish(hd)
    ensures MovesBarrier(d, hd, AdvanceDiscard(d, hd, a))
  {
  }

  lemma AdvanceMovesBarrier(d: Desk, nextId: TtsId, hd: Handler, a: Answer)
    ensures MovesBarrier(d, hd, Advance(d, nextId, hd, a))
  {
    if InPreflight(hd) {
      PreflightMovesBarrier(d, nextId, hd, a);
    } else if InEviction(hd) {
      EvictionMovesBarrier(d, hd, a);
    } else if InFinish(hd) {
      FinishMovesBarrier(d, hd, a);
    } else {
      DiscardMovesBarrier(d, hd, a);
    }
  }

  lemma BarriersStay(s: State, t: State, h: nat)
    requires Barriers(s) && h in s.handlers && h in t.handlers && t.handlers == s.handlers[h := t.handlers[h]]
    requires || (GuessesAbout(t.handlers[h]) == GuessesAbout(s.handlers[h]) && t.desk.pending == s.desk.pending)
             || (GuessesAbout(s.handlers[h]).Some? && t.handlers[h].Done?
                 && t.desk.pending == s.desk.pending - {GuessesAbout(s.handlers[h]).value})
    ensures Barriers(t)
  {
    forall turn | turn in t.desk.pending ensures SomebodyGuesses(t, turn) {
      var k :| k in s.handlers && GuessesAbout(s.handlers[k]) == Some(turn);
      assert k in t.handlers && GuessesAbout(t.handlers[k]) == Some(turn);
    }
  }

  lemma BarrierPutUp(s: State, t: State, h: nat, turn: int)
    requires Barriers(s) && h !in s.handlers && turn !in s.desk.pending
    requires h in t.handlers && t.handlers == s.handlers[h := t.handlers[h]]
    requires GuessesAbout(t.handlers[h]) == Some(turn)
    requires t.desk.pending == s.desk.pending + {turn}
    ensures Barriers(t)
  {
    forall other | other in t.desk.pending ensures SomebodyGuesses(t, other) {
      if other == turn {
        assert GuessesAbout(t.handlers[h]) == Some(other);
      } else {
        var k :| k in s.handlers && GuessesAbout(s.handlers[k]) == Some(other);
        assert GuessesAbout(t.handlers[k]) == Some(other);
      }
    }
  }

  lemma NoBarrierTouched(s: State, t: State)
    requires Barriers(s) && t.desk.pending == s.desk.pending
    requires forall h | h in s.handlers :: h in t.handlers && t.handlers[h] == s.handlers[h]
    requires forall h | h in t.handlers && h !in s.handlers :: GuessesAbout(t.handlers[h]).None?
    ensures Barriers(t)
  {
    forall turn | turn in t.desk.pending ensures SomebodyGuesses(t, turn) {
      var k :| k in s.handlers && GuessesAbout(s.handlers[k]) == Some(turn);
      assert GuessesAbout(t.handlers[k]) == Some(turn);
    }
  }

  lemma NextKeepsBarriers(s: State, e: Event)
    requires Barriers(s)
    ensures Barriers(Next(s, e))
  {
    var t := Next(s, e);
    if e.Step? {
      if e.h in s.handlers {
        AdvanceMovesBarrier(s.desk, s.nextId, s.handlers[e.h], e.answer);
        BarriersStay(s, t, e.h);
      }
    } else if e.EagerEndOfTurn? && t != s {
      BarrierPutUp(s, t, e.h, e.turn);
    } else {
      NoBarrierTouched(s, t);
    }
  }

  lemma {:induction false} RunKeepsBarriers(s: State, events: seq<Event>)
    requires Barriers(s)
    ensures Barriers(Run(s, events))
    decreases |events|
  {
    if events != [] {
      NextKeepsBarriers(s, events[0]);
      RunKeepsBarriers(Next(s, events[0]), events[1..]);
    }
  }

  /**
   Over every interleaving no two handlers guess about one turn at a time; and once all have come to
   their end, no barrier is up.
   */
  lemma OneGuessAtATime(events: seq<Event>)
    ensures var s := Run(START, events);
      && (forall h, k | h in s.handlers && k in s.handlers && h != k && GuessesAbout(s.handlers[h]).Some? ::
        GuessesAbout(s.handlers[h]) != GuessesAbout(s.handlers[k]))
      && ((forall h | h in s.handlers :: s.handlers[h].Done?) ==> s.desk.pending == {})
  {
    RunKeepsBarriers(START, events);
    var s := Run(START, events);
    if forall h | h in s.handlers :: s.handlers[h].Done? {
      assert forall h | h in s.handlers :: GuessesAbout(s.handlers[h]).None?;
      assert forall turn :: turn !in s.desk.pending;
    }
  }

  // ---------------------------------------------------------------------------
  // What is put, and what is played
  // ---------------------------------------------------------------------------

  /** A guess is put on the desk only if its turn has not ended when that is looked at; otherwise it is discarded. */
  lemma StaleGuessIsDropped(d: Desk, nextId: TtsId, turn: int, st: Staged, a: Answer, b: Answer)
    ensures var next := Advance(d, nextId, CheckingStale(turn, st), a).next;
      && (next == Putting(turn, st) <==> turn > d.maxDone)
      && (turn <= d.maxDone ==> forall e: Desk ::
        Advance(e, nextId, next, b).sent == [Attempt(Discard, st.ttsID, st.ttsID in e.ready)])
  {
  }

  /** With the leg up, what was staged may be played only if it is what was said, and is discarded if it is not. */
  lemma OnlyWhatWasSaidIsPlayed(d: Desk, nextId: TtsId, final: string, st: Staged, a: Answer, b: Answer)
    requires a.legUp
    ensures var next := Advance(d, nextId, Comparing(final, st), a).next;
      && (st.src == final ==> next == AwaitingReady(st))
      && (st.src != final ==> forall e: Desk ::
        Advance(e, nextId, next, b).sent == [Attempt(Discard, st.ttsID, st.ttsID in e.ready)])
  {
  }

  const FINE := Answer(true, true, "", 0, 0)

  lemma RunThree(s: State, e: Event)
    ensures Run(s, [e, e, e]) == Next(Next(Next(s, e), e), e)
  {
    assert [e, e, e][1..] == [e, e] && [e, e][1..] == [e] && [e][1..] == [];
    assert Run(Next(Next(s, e), e), [e]) == Run(Next(Next(Next(s, e), e), e), []);
    assert Run(Next(s, e), [e, e]) == Run(Next(Next(s, e), e), [e]);
  }

  /** Three steps after it has taken an entry that is ready and was said, a handler commits it. */
  lemma ReadyGuessIsCommitted(s: State, h: nat, st: Staged)
    requires h in s.handlers && s.handlers[h] == Comparing(st.src, st) && st.ttsID in s.desk.ready
    ensures var t := Run(s, [Step(h, FINE), Step(h, FINE), Step(h, FINE)]);
      && t.attempts == s.attempts + [Attempt(Commit, st.ttsID, true)]
      && h in t.handlers && t.handlers[h] == Releasing(st.ttsID) && t.desk == s.desk
  {
    var e := Step(h, FINE);
    RunThree(s, e);
    var s1 := s.(handlers := s.handlers[h := AwaitingReady(st)]);
    assert Next(s, e) == s1 by { assert s.attempts + [] == s.attempts && s.retired + {} == s.retired; }
    var s2 := s1.(handlers := s1.handlers[h := Committing(st)]);
    assert Next(s1, e) == s2 by { assert s.attempts + [] == s.attempts && s.retired + {} == s.retired; }
  }

  /** With the desk full, a guess first takes the lowest turn, and with room it goes on at once. */
  lemma FullDeskIsEvictedFrom(d: Desk, nextId: TtsId, turn: int, src: string, text: string, a: Answer, oldest: int)
    requires oldest in d.staged && forall u | u in d.staged :: oldest <= u
    ensures var next := Advance(d, nextId, LookingForOldest(turn, src, text), a).next;
      if |d.staged| < 3 then next == Requesting(turn, src, text)
      else
        && next == TakingOldest(turn, src, text, oldest)
        && Advance(d, nextId, next, a).next == DiscardingOldest(turn, src, text, d.staged[oldest].ttsID)
        && oldest !in Advance(d, nextId, next, a).desk.staged
  {
  }

  /** A turn that has ended by then is not guessed about any further. */
  lemma EndedTurnIsNotAskedFor(d: Desk, nextId: TtsId, turn: int, src: string, text: string, a: Answer)
    ensures Advance(d, nextId, CheckingDone(turn, src, text), a).next ==
      if turn <= d.maxDone then ClosingBarrier(turn) else LookingForOldest(turn, src, text)
  {
  }

  /** The end of a turn is recorded before anything else is done about it. */
  lemma EndIsRecorded(s: State, h: nat, turn: int, final: string)
    requires h !in s.handlers
    ensures var t := Next(s, EndOfTurn(h, turn, final));
      && t.desk == s.desk.(maxDone := t.desk.maxDone) && turn <= t.desk.maxDone && s.desk.maxDone <= t.desk.maxDone
      && (t.desk.maxDone == turn || t.desk.maxDone == s.desk.maxDone)
      && h in t.handlers && t.handlers[h] == AwaitingBarrier(turn, final)
  {
  }

  /** What a change of voice or language, or the sweeper, takes off the desk is in the hands of its handler. */
  lemma TakenOffIsHeld(s: State, e: Event)
    requires (e.VoiceOrLanguageChanged? || e.SweepTick?) && e.h !in s.handlers
    ensures var t := Next(s, e);
      && e.h in t.handlers
      && (forall turn | turn in t.desk.staged :: turn in s.desk.staged)
      && (forall turn | turn in s.desk.staged ::
        turn in t.desk.staged <==> e.SweepTick? && s.desk.staged[turn].at >= e.cutoff)
      && (forall turn | turn in t.desk.staged :: t.desk.staged[turn] == s.desk.staged[turn])
      && (forall turn | turn in s.desk.staged && turn !in t.desk.staged ::
        s.desk.staged[turn].ttsID in Holds(t.handlers[e.h]))
  {
  }

  /** The report that synthesis is done closes the channel of an indexed id, once. */
  lemma ReportClosesOnce(s: State, id: TtsId)
    ensures var t := Next(s, SynthesisReady(id));
      if id in s.desk.stagedByID && id !in s.desk.ready
      then id in t.desk.ready && t.closed == s.closed + [id] && t.desk == s.desk.(ready := t.desk.ready)
      else t == s
  {
  }
}
