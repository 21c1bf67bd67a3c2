/**
 Who may still commit or discard a staged utterance (cmd/interpreter/interpret.go),
 at the granularity of the locks: every critical section and every command sent to
 the media server is one step, and any number of handlers interleave freely.

 A handler is the point it has reached together with what it holds in local
 variables. Translation, the media server and the clock answer arbitrarily.
 */
module StagedOwnership {
  import opened Options
  import opened Staging

  datatype Handler =
    // preflight: translate, make room, ask the server to stage, record it
    | Translating(turn: int, src: string)
    | CheckingDone(turn: int, src: string, text: string)
    | LookingForOldest(turn: int, src: string, text: string)
    | TakingOldest(turn: int, src: string, text: string, oldest: int)
    | DiscardingOldest(turn: int, src: string, text: string, victim: TtsId)
    | ReleasingOldest(turn: int, src: string, text: string, victim: TtsId)
    | Requesting(turn: int, src: string, text: string)
    | CheckingStale(turn: int, st: Staged)
    | Putting(turn: int, st: Staged)
    | DroppingStale(turn: int, st: Staged)
    | ClosingBarrier(turn: int)
    // finishTurn: wait for the barrier, take the entry, commit or discard it
    | AwaitingBarrier(turn: int, final: string)
    | TakingFinal(turn: int, final: string)
    | Comparing(final: string, st: Staged)
    | AwaitingReady(st: Staged)
    | Committing(st: Staged)
    | DiscardingFinal(st: Staged)
    // discardStaged, and the end of every path that took an entry
    | TakingResumed(turn: int)
    | DiscardingResumed(st: Staged)
    | Releasing(id: TtsId)
    // discardAllStaged and the sweeper: entries already out of both maps
    | DiscardingMany(ids: set<TtsId>)
    | Done

  datatype Command = Commit | Discard

  /** A command sent for a staged id, and whether its readyCh was closed at that moment. */
  datatype Attempt = Attempt(command: Command, id: TtsId, wasReady: bool)

  /** `retired` is history: the ids that handlers have finished with. */
  datatype State = State(
    desk: Desk,
    handlers: map<nat, Handler>,
    nextId: TtsId,
    attempts: seq<Attempt>,
    closed: seq<TtsId>,
    retired: set<TtsId>)

  const START := State(EMPTY_DESK, map[], 0, [], [], {})

  /** What the world answers to one step: success, whether the listener's leg is up, a translation, a time, a choice. */
  datatype Answer = Answer(ok: bool, legUp: bool, text: string, now: int, which: TtsId)

  datatype Event =
    | EagerEndOfTurn(h: nat, turn: int, src: string)
    | EndOfTurn(h: nat, turn: int, final: string)
    | TurnResumed(h: nat, turn: int)
    | VoiceOrLanguageChanged(h: nat)
    | SweepTick(h: nat, cutoff: int)
    | SynthesisReady(id: TtsId)
    | Step(h: nat, answer: Answer)

  /** What one step of a handler does: the desk after it, where the handler goes, what it sends and gives up. */
  datatype Effect = Effect(desk: Desk, next: Handler, sent: seq<Attempt>, spent: set<TtsId>, staged: bool)

  function Moves(d: Desk, next: Handler): Effect {
    Effect(d, next, [], {}, false)
  }

  function Sends(d: Desk, command: Command, id: TtsId, next: Handler): Effect {
    Effect(d, next, [Attempt(command, id, id in d.ready)], {id}, false)
  }

  /** discardID: no command goes out when the listener has no leg. */
  function SendsDiscard(d: Desk, id: TtsId, legUp: bool, next: Handler): Effect {
    if legUp then Sends(d, Discard, id, next) else Effect(d, next, [], {id}, false)
  }

  predicate InPreflight(hd: Handler) {
    || hd.Translating? || hd.CheckingDone? || hd.Requesting? || hd.CheckingStale?
    || hd.Putting? || hd.DroppingStale? || hd.ClosingBarrier?
  }

  predicate InEviction(hd: Handler) {
    hd.LookingForOldest? || hd.TakingOldest? || hd.DiscardingOldest? || hd.ReleasingOldest?
  }

  predicate InFinish(hd: Handler) {
    hd.AwaitingBarrier? || hd.TakingFinal? || hd.Comparing? || hd.AwaitingReady? || hd.Committing? ||
      hd.DiscardingFinal?
  }

  /** One step of evictOldestStaged, which preflight runs before it asks for a slot. */
  ghost function AdvanceEviction(d: Desk, hd: Handler, a: Answer): Effect
    requires InEviction(hd)
  {
    match hd
    case LookingForOldest(turn, src, text) =>
      Moves(d, if |d.staged| < STAGED_MAX then Requesting(turn, src, text)
        else TakingOldest(turn, src, text, Least(d.staged.Keys)))
    case TakingOldest(turn, src, text, oldest) =>
      var (d', taken) := Take(d, oldest);
      Moves(d', if taken.Some? then DiscardingOldest(turn, src, text, taken.value.ttsID)
        else Requesting(turn, src, text))
    case DiscardingOldest(turn, src, text, victim) => SendsDiscard(d, victim, a.legUp,
      ReleasingOldest(turn, src, text, victim))
    case ReleasingOldest(turn, src, text, victim) => Moves(Release(d, victim), Requesting(turn, src, text))
  }

  /** One step of preflight. */
  ghost function AdvancePreflight(d: Desk, nextId: TtsId, hd: Handler, a: Answer): Effect
    requires InPreflight(hd)
  {
    match hd
    case Translating(turn, src) => Moves(d, if a.ok then CheckingDone(turn, src, a.text) else ClosingBarrier(turn))
    case CheckingDone(turn, src, text) => Moves(d, if turn <= d.maxDone then ClosingBarrier(turn)
      else LookingForOldest(turn, src, text))
    case Requesting(turn, src, text) =>
      if a.ok then Effect(d, CheckingStale(turn, Staged(nextId, src, text, a.now)), [], {}, true)
        else Moves(d, ClosingBarrier(turn))
    case CheckingStale(turn, st) => Moves(d, if turn <= d.maxDone then DroppingStale(turn, st) else Putting(turn, st))
    case Putting(turn, st) => Moves(Put(d, turn, st), ClosingBarrier(turn))
    case DroppingStale(turn, st) => Sends(d, Discard, st.ttsID, ClosingBarrier(turn))
    case ClosingBarrier(turn) => Moves(d.(pending := d.pending - {turn}), Done)
  }

  /** One step of finishTurn, with waitReady and commitStaged inside it. */
  ghost function AdvanceFinish(d: Desk, hd: Handler, a: Answer): Effect
    requires InFinish(hd)
  {
    match hd
    case AwaitingBarrier(turn, final) => Moves(d, TakingFinal(turn, final))
    case TakingFinal(turn, final) =>
      var (d', taken) := Take(d, turn);
      Moves(d', if taken.Some? then Comparing(final, taken.value) else Done)
    case Comparing(final, st) =>
      if !a.legUp then Effect(d, Releasing(st.ttsID), [], {st.ttsID}, false)
      else Moves(d, if st.src == final then AwaitingReady(st) else DiscardingFinal(st))
    case AwaitingReady(st) =>
      Moves(d, if !a.ok then DiscardingFinal(st) else if st.ttsID in d.ready then Committing(st) else hd)
    case Committing(st) => Sends(d, Commit, st.ttsID, Releasing(st.ttsID))
    case DiscardingFinal(st) => Sends(d, Discard, st.ttsID, Releasing(st.ttsID))
  }

  /** One step of discardStaged, discardAllStaged or the sweeper, or of a deferred release. */
  ghost function AdvanceDiscard(d: Desk, hd: Handler, a: Answer): Effect
    requires !InPreflight(hd) && !InEviction(hd) && !InFinish(hd)
  {
    match hd
    case TakingResumed(turn) =>
      var (d', taken) := Take(d, turn);
      Moves(d', if taken.Some? then DiscardingResumed(taken.value) else Done)
    case DiscardingResumed(st) => SendsDiscard(d, st.ttsID, a.legUp, Releasing(st.ttsID))
    case Releasing(id) => Moves(Release(d, id), Done)
    case DiscardingMany(ids) =>
      if ids == {} then Moves(d, Done)
      else if a.which !in ids then Moves(d, hd)
      else SendsDiscard(d, a.which, a.legUp, DiscardingMany(ids - {a.which}))
    case Done => Moves(d, Done)
  }

  /** One step of a handler. */
  ghost function Advance(d: Desk, nextId: TtsId, hd: Handler, a: Answer): Effect {
    if InPreflight(hd) then AdvancePreflight(d, nextId, hd, a)
    else if InEviction(hd) then AdvanceEviction(d, hd, a)
    else if InFinish(hd) then AdvanceFinish(d, hd, a)
    else AdvanceDiscard(d, hd, a)
  }

  /** Takes the utterances of these turns off the desk and leaves a handler to discard them. */
  function DropAndDiscard(s: State, h: nat, turns: set<int>): State {
    s.(desk := DropTurns(s.desk, turns), handlers := s.handlers[h := DiscardingMany(IdsOf(s.desk, turns))])
  }

  function Apply(s: State, h: nat, eff: Effect): State {
    State(eff.desk, s.handlers[h := eff.next], if eff.staged then s.nextId + 1 else s.nextId,
          s.attempts + eff.sent, s.closed, s.retired + eff.spent)
  }

  ghost function Next(s: State, e: Event): State {
    match e
    case EagerEndOfTurn(h, turn, src) =>
      if h in s.handlers || turn in s.desk.pending then s
      else s.(desk := s.desk.(pending := s.desk.pending + {turn}), handlers := s.handlers[h := Translating(turn, src)])
    case EndOfTurn(h, turn, final) =>
      if h in s.handlers then s
      else s.(desk := FinishMark(s.desk, turn), handlers := s.handlers[h := AwaitingBarrier(turn, final)])
    case TurnResumed(h, turn) =>
      if h in s.handlers then s else s.(handlers := s.handlers[h := TakingResumed(turn)])
    case VoiceOrLanguageChanged(h) =>
      if h in s.handlers then s
      else DropAndDiscard(s, h, s.desk.staged.Keys)
    case SweepTick(h, cutoff) =>
      if h in s.handlers then s else DropAndDiscard(s, h, ExpiredTurns(s.desk, cutoff))
    case SynthesisReady(id) =>
      if id !in s.desk.stagedByID || id in s.desk.ready then s
      else s.(desk := MarkReady(s.desk, id), closed := s.closed + [id])
    case Step(h, a) =>
      if h !in s.handlers then s
      else
        Apply(s, h, Advance(s.desk, s.nextId, s.handlers[h], a))
  }

  ghost function Run(s: State, events: seq<Event>): State
    decreases |events|
  {
    if events == [] then s else Run(Next(s, events[0]), events[1..])
  }

  // ---------------------------------------------------------------------------
  // Ownership
  // ---------------------------------------------------------------------------

  /** The ids a handler may still commit or discard. */
  function Holds(hd: Handler): set<TtsId> {
    match hd
    case DiscardingOldest(_, _, _, victim) => {victim}
    case CheckingStale(_, st) => {st.ttsID}
    case Putting(_, st) => {st.ttsID}
    case DroppingStale(_, st) => {st.ttsID}
    case Comparing(_, st) => {st.ttsID}
    case AwaitingReady(st) => {st.ttsID}
    case Committing(st) => {st.ttsID}
    case DiscardingFinal(st) => {st.ttsID}
    case DiscardingResumed(st) => {st.ttsID}
    case DiscardingMany(ids) => ids
    case _ => {}
  }

  /** The id a handler is only going to remove from the index. */
  function Releases(hd: Handler): set<TtsId> {
    match hd
    case ReleasingOldest(_, _, _, victim) => {victim}
    case Releasing(id) => {id}
    case _ => {}
  }

  ghost predicate HandlersOk(s: State) {
    && (forall h | h in s.handlers ::
          && Holds(s.handlers[h]) !! StagedIds(s.desk)
          && Holds(s.handlers[h]) !! s.retired
          && Releases(s.handlers[h]) <= s.retired
          && (s.handlers[h].Committing? ==> s.handlers[h].st.ttsID in s.desk.ready))
    && (forall h, k | h in s.handlers && k in s.handlers && h != k :: Holds(s.handlers[h]) !! Holds(s.handlers[k]))
  }

  ghost predicate Issued(s: State) {
    && (forall id | id in StagedIds(s.desk) :: id < s.nextId)
    && (forall id | id in s.retired :: id < s.nextId)
    && (forall h, id | h in s.handlers && id in Holds(s.handlers[h]) :: id < s.nextId)
  }

  /** No id is attempted twice, by whatever commands, and a commit is attempted only on a closed channel. */
  ghost predicate AttemptsOk(attempts: seq<Attempt>) {
    && (forall i, j | 0 <= i < j < |attempts| :: attempts[i].id != attempts[j].id)
    && (forall i | 0 <= i < |attempts| :: attempts[i].command == Commit ==> attempts[i].wasReady)
  }

  /** No channel is closed twice, and the ready ids are those whose channel was closed. */
  ghost predicate ClosedOk(closed: seq<TtsId>, ready: set<TtsId>) {
    && (forall i, j | 0 <= i < j < |closed| :: closed[i] != closed[j])
    && (forall id :: id in closed <==> id in ready)
  }

  ghost predicate Inv(s: State) {
    && DeskOk(s.desk)
    && StagedIds(s.desk) !! s.retired
    && HandlersOk(s)
    && Issued(s)
    && AttemptsOk(s.attempts)
    && (forall i | 0 <= i < |s.attempts| :: s.attempts[i].id in s.retired)
    && ClosedOk(s.closed, s.desk.ready)
  }

  /** What one step of a handler may do with ids, given that it holds `mine`. */
  ghost predicate MovesOwnership(d: Desk, news: set<TtsId>, hd: Handler, eff: Effect) {
    && DeskOk(eff.desk)
    && StagedIds(eff.desk) + Holds(eff.next) + eff.spent <= StagedIds(d) + Holds(hd) + news
    && Holds(eff.next) !! StagedIds(eff.desk)
    && eff.spent !! StagedIds(eff.desk) && eff.spent !! Holds(eff.next)
    && StagedIds(eff.desk) <= StagedIds(d) + Holds(hd)
  }

  /** Each step hands every id on to exactly one place: the desk, the handler, or what it gives up. */
  lemma AdvanceMovesOwnership(d: Desk, nextId: TtsId, hd: Handler, a: Answer)
    requires DeskOk(d) && Holds(hd) !! StagedIds(d) && Releases(hd) !! StagedIds(d)
    requires nextId !in StagedIds(d)
    ensures MovesOwnership(d, if Advance(d, nextId, hd, a).staged then {nextId} else {}, hd, Advance(d, nextId, hd, a))
  {
    if InPreflight(hd) {
      PreflightMovesOwnership(d, nextId, hd, a);
    } else if InEviction(hd) {
      EvictionMovesOwnership(d, hd, a);
    } else if InFinish(hd) {
      FinishMovesOwnership(d, hd, a);
    } else {
      DiscardMovesOwnership(d, hd, a);
    }
  }

  lemma PreflightMovesOwnership(d: Desk, nextId: TtsId, hd: Handler, a: Answer)
    requires DeskOk(d) && Holds(hd) !! StagedIds(d) && Releases(hd) !! StagedIds(d)
    requires nextId !in StagedIds(d) && InPreflight(hd)
    ensures var eff := AdvancePreflight(d, nextId, hd, a);
      MovesOwnership(d, if eff.staged then {nextId} else {}, hd, eff)
  {
    var eff := AdvancePreflight(d, nextId, hd, a);
    if hd.Putting? {
      PutKeeps(d, hd.turn, hd.st);
    } else {
      LeavingDeskMovesOwnership(d, if eff.staged then {nextId} else {}, hd, eff);
    }
  }

  lemma EvictionMovesOwnership(d: Desk, hd: Handler, a: Answer)
    requires DeskOk(d) && Holds(hd) !! StagedIds(d) && Releases(hd) !! StagedIds(d) && InEviction(hd)
    ensures !AdvanceEviction(d, hd, a).staged && MovesOwnership(d, {}, hd, AdvanceEviction(d, hd, a))
  {
    if hd.TakingOldest? {
      OldestTakenMovesOwnership(d, hd, a);
    } else if hd.ReleasingOldest? {
      OldestReleasedMovesOwnership(d, hd, a);
    } else {
      LeavingDeskMovesOwnership(d, {}, hd, AdvanceEviction(d, hd, a));
    }
  }

  lemma OldestTakenMovesOwnership(d: Desk, hd: Handler, a: Answer)
    requires DeskOk(d) && hd.TakingOldest?
    ensures MovesOwnership(d, {}, hd, AdvanceEviction(d, hd, a))
  {
    TakeKeeps(d, hd.oldest);
  }

  lemma OldestReleasedMovesOwnership(d: Desk, hd: Handler, a: Answer)
    requires DeskOk(d) && Releases(hd) !! StagedIds(d) && hd.ReleasingOldest?
    ensures MovesOwnership(d, {}, hd, AdvanceEviction(d, hd, a))
  {
    ReleaseKeeps(d, hd.victim);
  }

  /** A step that leaves both maps alone only has to account for what the handler held. */
  lemma LeavingDeskMovesOwnership(d: Desk, news: set<TtsId>, hd: Handler, eff: Effect)
    requires DeskOk(d) && Holds(hd) !! StagedIds(d) && news !! StagedIds(d)
    requires eff.desk.staged == d.staged && eff.desk.stagedByID == d.stagedByID
    requires Holds(eff.next) + eff.spent <= Holds(hd) + news && eff.spent !! Holds(eff.next)
    ensures MovesOwnership(d, news, hd, eff)
  {
    assert StagedIds(eff.desk) == StagedIds(d);
  }

  lemma FinishMovesOwnership(d: Desk, hd: Handler, a: Answer)
    requires DeskOk(d) && Holds(hd) !! StagedIds(d) && InFinish(hd)
    ensures !AdvanceFinish(d, hd, a).staged && MovesOwnership(d, {}, hd, AdvanceFinish(d, hd, a))
  {
    if hd.TakingFinal? { TakeKeeps(d, hd.turn); }
  }

  lemma DiscardMovesOwnership(d: Desk, hd: Handler, a: Answer)
    requires DeskOk(d) && Holds(hd) !! StagedIds(d) && Releases(hd) !! StagedIds(d)
    requires !InPreflight(hd) && !InEviction(hd) && !InFinish(hd)
    ensures !AdvanceDiscard(d, hd, a).staged && MovesOwnership(d, {}, hd, AdvanceDiscard(d, hd, a))
  {
    if hd.TakingResumed? { TakeKeeps(d, hd.turn); }
    if hd.Releasing? { ReleaseKeeps(d, hd.id); }
  }

  /** A step sends at most one command, for an id it gives up; and what it goes on to release it gives up too. */
  ghost predicate SendsOnce(d: Desk, hd: Handler, eff: Effect) {
    && |eff.sent| <= 1
    && (forall i | 0 <= i < |eff.sent| ::
      eff.sent[i].id in eff.spent && (eff.sent[i].command == Commit ==> eff.sent[i].wasReady))
    && Releases(eff.next) <= eff.spent <= Holds(hd)
    && eff.desk.ready == d.ready
    && (eff.next.Committing? ==> eff.next.st.ttsID in d.ready)
  }

  lemma AdvanceSendsOnce(d: Desk, nextId: TtsId, hd: Handler, a: Answer)
    requires hd.Committing? ==> hd.st.ttsID in d.ready
    ensures SendsOnce(d, hd, Advance(d, nextId, hd, a))
  {
    if InPreflight(hd) {
      PreflightSendsOnce(d, nextId, hd, a);
    } else if InEviction(hd) {
      EvictionSendsOnce(d, hd, a);
    } else if InFinish(hd) {
      FinishSendsOnce(d, hd, a);
    } else {
      DiscardSendsOnce(d, hd, a);
    }
  }

  lemma PreflightSendsOnce(d: Desk, nextId: TtsId, hd: Handler, a: Answer)
    requires InPreflight(hd)
    ensures SendsOnce(d, hd, AdvancePreflight(d, nextId, hd, a))
  {
  }

  lemma EvictionSendsOnce(d: Desk, hd: Handler, a: Answer)
    requires InEviction(hd)
    ensures SendsOnce(d, hd, AdvanceEviction(d, hd, a))
  {
  }

  lemma FinishSendsOnce(d: Desk, hd: Handler, a: Answer)
    requires InFinish(hd) && (hd.Committing? ==> hd.st.ttsID in d.ready)
    ensures SendsOnce(d, hd, AdvanceFinish(d, hd, a))
  {
  }

  lemma DiscardSendsOnce(d: Desk, hd: Handler, a: Answer)
    requires !InPreflight(hd) && !InEviction(hd) && !InFinish(hd)
    ensures SendsOnce(d, hd, AdvanceDiscard(d, hd, a))
  {
  }

  /** Any step that moves ownership and sends once keeps the invariant, whatever else it does. */
  lemma ApplyKeeps(s: State, h: nat, eff: Effect)
    requires Inv(s) && h in s.handlers
    requires MovesOwnership(s.desk, if eff.staged then {s.nextId} else {}, s.handlers[h], eff)
    requires SendsOnce(s.desk, s.handlers[h], eff)
    ensures Inv(Apply(s, h, eff))
  {
    ApplyKeepsHandlers(s, h, eff);
    ApplyKeepsIssued(s, h, eff);
  }

  lemma ApplyKeepsHandlers(s: State, h: nat, eff: Effect)
    requires Inv(s) && h in s.handlers
    requires MovesOwnership(s.desk, if eff.staged then {s.nextId} else {}, s.handlers[h], eff)
    requires SendsOnce(s.desk, s.handlers[h], eff)
    ensures HandlersOk(Apply(s, h, eff))
  {
  }

  lemma ApplyKeepsIssued(s: State, h: nat, eff: Effect)
    requires Inv(s) && h in s.handlers
    requires MovesOwnership(s.desk, if eff.staged then {s.nextId} else {}, s.handlers[h], eff)
    requires SendsOnce(s.desk, s.handlers[h], eff)
    ensures Issued(Apply(s, h, eff))
  {
  }

  lemma StepKeeps(s: State, h: nat, a: Answer)
    requires Inv(s) && h in s.handlers
    ensures Inv(Next(s, Step(h, a)))
  {
    AdvanceMovesOwnership(s.desk, s.nextId, s.handlers[h], a);
    AdvanceSendsOnce(s.desk, s.nextId, s.handlers[h], a);
    ApplyKeeps(s, h, Advance(s.desk, s.nextId, s.handlers[h], a));
  }

  /** Utterances that leave the desk together belong to the handler that will discard them. */
  lemma DropKeeps(s: State, h: nat, turns: set<int>)
    requires Inv(s) && h !in s.handlers
    ensures Inv(DropAndDiscard(s, h, turns))
  {
    DropTurnsKeeps(s.desk, turns);
  }

  /** A handler that starts with nothing in hand, or a signal that only touches the flags. */
  lemma QuietKeeps(s: State, s': State)
    requires Inv(s)
    requires s'.desk.staged == s.desk.staged && s'.desk.stagedByID == s.desk.stagedByID && s.desk.ready <= s'.desk.ready
    requires ClosedOk(s'.closed, s'.desk.ready)
    requires s'.nextId == s.nextId && s'.attempts == s.attempts && s'.retired == s.retired
    requires forall h | h in s'.handlers ::
      (h in s.handlers && s'.handlers[h] == s.handlers[h])
      || (Holds(s'.handlers[h]) == {} && Releases(s'.handlers[h]) == {} && !s'.handlers[h].Committing?)
    ensures Inv(s')
  {
    assert StagedIds(s'.desk) == StagedIds(s.desk);
  }

  lemma NextKeeps(s: State, e: Event)
    requires Inv(s)
    ensures Inv(Next(s, e))
  {
    match e
    case Step(h, a) => if h in s.handlers { StepKeeps(s, h, a); }
    case VoiceOrLanguageChanged(h) => if h !in s.handlers { DropKeeps(s, h, s.desk.staged.Keys); }
    case SweepTick(h, cutoff) => if h !in s.handlers { DropKeeps(s, h, ExpiredTurns(s.desk, cutoff)); }
    case _ => QuietKeeps(s, Next(s, e));
  }

  lemma {:induction false} RunKeeps(s: State, events: seq<Event>)
    requires Inv(s)
    ensures Inv(Run(s, events))
    decreases |events|
  {
    if events != [] {
      NextKeeps(s, events[0]);
      RunKeeps(Next(s, events[0]), events[1..]);
    }
  }

  /**
   Over every interleaving of handlers: each staged id is sent at most one commit
   or discard in all, a commit only after its channel closed; no channel is closed
   twice; and whatever is staged is indexed under its own id.
   */
  lemma SingleOwnership(events: seq<Event>)
    ensures var s := Run(START, events);
      && (forall i, j | 0 <= i < j < |s.attempts| :: s.attempts[i].id != s.attempts[j].id)
      && (forall i | 0 <= i < |s.attempts| && s.attempts[i].command == Commit :: s.attempts[i].wasReady)
      && (forall i, j | 0 <= i < j < |s.closed| :: s.closed[i] != s.closed[j])
      && (forall t | t in s.desk.staged ::
            s.desk.staged[t].ttsID in s.desk.stagedByID &&
              s.desk.stagedByID[s.desk.staged[t].ttsID] == s.desk.staged[t])
  {
    RunKeeps(START, events);
  }
}
