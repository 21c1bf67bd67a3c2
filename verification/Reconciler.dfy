/**
 Keeping a leg's transcriber in the selected language (cmd/interpreter/media.go),
 at the granularity of the locks: startSTT, stopSTT and setLanguage run as many
 handlers, sttMu serializes the first two, and every critical section under mu and
 every command to the server is one step.
 */
module Reconciler {
  import opened Options

  type Lang = string
  type LegId = nat

  datatype Handler =
    | Changed                                    // setLanguage: the selection is stored, startSTT comes next
    | Waiting                                    // startSTT: waiting for sttMu
    | Reading(attempt: nat)                      // holds sttMu from here on
    | Clearing(attempt: nat, want: Lang, leg: LegId)
    | Stopping(attempt: nat, want: Lang, leg: LegId)
    | Dialing(attempt: nat, want: Lang, leg: LegId)
    | ClearingConflict(attempt: nat, want: Lang, leg: LegId)
    | StoppingConflict(attempt: nat, want: Lang, leg: LegId)
    | Redialing(attempt: nat, want: Lang, leg: LegId)
    | ClearingFailure
    | Marking(attempt: nat, want: Lang, leg: LegId)
    | Settling(attempt: nat, want: Lang, leg: LegId)
    | StopWaiting                                // stopSTT: waiting for sttMu
    | StopReading
    | StopClearing(on: Option<LegId>)
    | StopSending(on: Option<LegId>)
    | Finished

  /**
   The participant's fields, the transcriber attached to each leg on the server, who
   holds sttMu, and history: `wanted` says that a start was asked for on the live leg
   and since then nothing was refused, stopped or unbound.
   */
  datatype State = State(
    lang: Lang, legID: Option<LegId>, live: bool, sttOn: bool, sttLang: Lang,
    attached: map<LegId, Lang>,
    holder: Option<nat>,
    handlers: map<nat, Handler>,
    wanted: bool)

  const ATTEMPTS := 2

  /** What the server answers: whether a command works, and whether some provider handles the language. */
  datatype Answer = Answer(ok: bool, known: bool)

  datatype Event =
    | LegBound(leg: LegId)
    | LegConnected
    | LegUnbound
    | SetLanguage(h: nat, code: Lang)
    | StartSTT(h: nat)
    | StopSTT(h: nat)
    | Step(h: nat, answer: Answer)

  /** The steps that run under sttMu. */
  predicate Holding(hd: Handler) {
    !hd.Changed? && !hd.Waiting? && !hd.StopWaiting? && !hd.Finished?
  }

  function Goes(s: State, h: nat, hd: Handler): State {
    s.(handlers := s.handlers[h := hd])
  }

  function Acquires(s: State, h: nat, hd: Handler): State {
    if s.holder.Some? then s else Goes(s, h, hd).(holder := Some(h))
  }

  function Releases(s: State, h: nat): State {
    Goes(s, h, Finished).(holder := None)
  }

  function Cleared(s: State): State {
    s.(sttOn := false, sttLang := "")
  }

  /** leg_stt_stop, on the leg the handler read. */
  function Stopped(s: State, leg: LegId, a: Answer): State {
    if a.ok then s.(attached := s.attached - {leg}) else s
  }

  /** leg_stt_start: refused with a conflict when a transcriber is attached, or for any other reason. */
  predicate StartAccepted(s: State, leg: LegId, a: Answer) {
    a.ok && leg !in s.attached
  }

  function Started(s: State, leg: LegId, want: Lang): State {
    s.(attached := s.attached[leg := want])
  }

  /** One step of startSTT and dialSTT, by the handler that holds sttMu. */
  function AdvanceStart(s: State, h: nat, hd: Handler, a: Answer): State
    requires Holding(hd) && !hd.StopReading? && !hd.StopClearing? && !hd.StopSending?
  {
    match hd
    case Reading(attempt) =>
      if s.legID.None? || !s.live then Releases(s, h)
      else if s.sttOn && s.sttLang == s.lang then Releases(s, h)
      else Goes(s, h, if s.sttOn then Clearing(attempt, s.lang, s.legID.value)
        else Dialing(attempt, s.lang, s.legID.value))
    case Clearing(attempt, want, leg) => Goes(Cleared(s), h, Stopping(attempt, want, leg))
    case Stopping(attempt, want, leg) => Goes(Stopped(s, leg, a), h, Dialing(attempt, want, leg))
    case Dialing(attempt, want, leg) =>
      if !a.known then Releases(s, h).(wanted := false)
      else if StartAccepted(s, leg, a) then Goes(Started(s, leg, want), h, Marking(attempt, want, leg))
      else Goes(s, h, if a.ok then ClearingConflict(attempt, want, leg) else ClearingFailure)
    case ClearingConflict(attempt, want, leg) => Goes(Cleared(s), h, StoppingConflict(attempt, want, leg))
    case StoppingConflict(attempt, want, leg) => Goes(Stopped(s, leg, a), h, Redialing(attempt, want, leg))
    case Redialing(attempt, want, leg) =>
      if StartAccepted(s, leg, a) then Goes(Started(s, leg, want), h, Marking(attempt, want, leg))
        else Goes(s, h, ClearingFailure)
    case ClearingFailure => Releases(Cleared(s), h).(wanted := false)
    case Marking(attempt, want, leg) => Goes(s.(sttOn := true, sttLang := want), h, Settling(attempt, want, leg))
    case Settling(attempt, want, leg) =>
      if s.lang == want || attempt + 1 >= ATTEMPTS then Releases(s, h) else Goes(s, h, Reading(attempt + 1))
  }

  /** One step of stopSTT. */
  function AdvanceStop(s: State, h: nat, hd: Handler, a: Answer): State
    requires hd.StopReading? || hd.StopClearing? || hd.StopSending?
  {
    match hd
    case StopReading => if s.sttOn then Goes(s, h, StopClearing(s.legID)) else Releases(s, h)
    case StopClearing(on) => Goes(Cleared(s), h, StopSending(on)).(wanted := false)
    case StopSending(on) => Releases(if on.Some? then Stopped(s, on.value, a) else s, h)
  }

  function Advance(s: State, h: nat, a: Answer): State
    requires h in s.handlers
  {
    var hd := s.handlers[h];
    if hd.Changed? || hd.Waiting? then Acquires(s, h, Reading(0))
    else if hd.StopWaiting? then Acquires(s, h, StopReading)
    else if hd.Finished? then s
    else if hd.StopReading? || hd.StopClearing? || hd.StopSending? then AdvanceStop(s, h, hd, a)
    else AdvanceStart(s, h, hd, a)
  }

  function Next(s: State, e: Event): State {
    match e
    case LegBound(leg) => s.(legID := Some(leg), live := false, wanted := false)
    case LegConnected => if s.legID.Some? then s.(live := true) else s
    case LegUnbound => s.(legID := None, live := false, sttOn := false, wanted := false)
    case SetLanguage(h, code) => if h in s.handlers || s.lang == code then s else Goes(s.(lang := code), h, Changed)
    case StartSTT(h) => if h in s.handlers then s else Goes(s, h, Waiting).(wanted := s.wanted || s.live)
    case StopSTT(h) => if h in s.handlers then s else Goes(s, h, StopWaiting)
    case Step(h, a) => if h in s.handlers then Advance(s, h, a) else s
  }

  function Run(s: State, events: seq<Event>): State
    decreases |events|
  {
    if events == [] then s else Run(Next(s, events[0]), events[1..])
  }

  function Start(lang: Lang): State {
    State(lang, None, false, false, "", map[], None, map[], false)
  }

  // ---------------------------------------------------------------------------
  // The invariant
  // ---------------------------------------------------------------------------

  /** A selection has been stored whose startSTT has not begun. */
  ghost predicate ChangePending(s: State) {
    exists h :: h in s.handlers && s.handlers[h].Changed?
  }

  /** Only the holder of sttMu is past acquiring it. */
  ghost predicate Exclusive(s: State) {
    && (forall h | h in s.handlers && Holding(s.handlers[h]) :: s.holder == Some(h))
    && (s.holder.Some? ==> s.holder.value in s.handlers && Holding(s.handlers[s.holder.value]))
  }

  /** What is marked as running is what the server runs, on the live leg. */
  ghost predicate Marked(s: State) {
    s.sttOn ==> s.legID.Some? && s.live && s.legID.value in s.attached && s.attached[s.legID.value] == s.sttLang
  }

  predicate Wants(hd: Handler) {
    || hd.Clearing? || hd.Stopping? || hd.Dialing? || hd.ClearingConflict? || hd.StoppingConflict?
    || hd.Redialing? || hd.Marking? || hd.Settling?
  }

  /** The point the holder has reached. */
  ghost predicate HolderOk(s: State, hd: Handler, changePending: bool) {
    && (Wants(hd) && hd.want != s.lang ==> changePending)
    && (hd.Stopping? || hd.Dialing? || hd.StoppingConflict? || hd.Redialing? || hd.Marking? || hd.StopSending? ==>
      !s.sttOn)
    && (hd.ClearingConflict? || hd.ClearingFailure? ==> !s.sttOn)
    && (hd.Marking? ==> hd.leg in s.attached && s.attached[hd.leg] == hd.want)
  }

  /** On the way to marking a transcriber on the leg it read: it only gives up when refused a second time. */
  predicate WillMark(s: State, hd: Handler) {
    Wants(hd) && !hd.Settling? && (hd.Redialing? ==> hd.leg !in s.attached)
  }

  /** Somebody is. */
  predicate SomebodyMarks(s: State) {
    s.holder.Some? && s.holder.value in s.handlers && WillMark(s, s.handlers[s.holder.value])
  }

  predicate WillStop(hd: Handler) {
    hd.StopWaiting? || hd.StopReading? || hd.StopClearing?
  }

  /** A stopSTT has yet to clear whatever is marked. */
  predicate StopPending(s: State) {
    exists h :: h in s.handlers && WillStop(s.handlers[h])
  }

  /**
   A wrong language is only marked while somebody is about to read the selection, or about to
   clear it for the right one.
   */
  ghost predicate Repairing(s: State) {
    || ChangePending(s)
    || (s.holder.Some? && s.holder.value in s.handlers && s.handlers[s.holder.value].Reading?)
    || (s.holder.Some? && s.holder.value in s.handlers && s.handlers[s.holder.value].Clearing? &&
      s.handlers[s.holder.value].want == s.lang)
  }

  /** A startSTT that has not marked anything yet in this pass. */
  predicate InStart(hd: Handler) {
    hd.Changed? || hd.Waiting? || hd.Reading? || (Wants(hd) && !hd.Settling?) || hd.ClearingFailure?
  }

  /** A startSTT has still to come to its end. */
  ghost predicate StartUnderWay(s: State) {
    exists h :: h in s.handlers && InStart(s.handlers[h])
  }

  /** What is marked, or is about to be, is for the live leg, and a wrong language is seen to. */
  ghost predicate InOrder(s: State) {
    && Marked(s)
    && (SomebodyMarks(s) ==> s.legID == Some(s.handlers[s.holder.value].leg) && s.live)
    && (s.sttOn && s.sttLang != s.lang ==> Repairing(s))
  }

  ghost predicate Inv(s: State) {
    && Exclusive(s)
    && (s.holder.Some? ==> HolderOk(s, s.handlers[s.holder.value], ChangePending(s)))
    && (s.wanted ==> s.legID.Some? && s.live && (s.sttOn || StartUnderWay(s)))
    && (s.live ==> s.legID.Some?)
    && (StopPending(s) || InOrder(s))
  }

  /**
   A leg comes or goes while a stop is still to clear the mark, or while nobody is about to mark a
   transcriber on the old leg; and it comes with none marked.
   */
  predicate LegChangeSafe(s: State, e: Event) {
    && (e.LegBound? ==> StopPending(s) || (!s.sttOn && !SomebodyMarks(s)))
    && (e.LegUnbound? ==> StopPending(s) || !SomebodyMarks(s))
  }

  predicate LegsSafeAlong(s: State, events: seq<Event>)
    decreases |events|
  {
    events != [] ==> LegChangeSafe(s, events[0]) && LegsSafeAlong(Next(s, events[0]), events[1..])
  }

  /** Settled: if a transcriber is marked at all, it is the selected language's, on the leg and on the server. */
  predicate Settled(s: State) {
    s.sttOn ==>
      && s.sttLang == s.lang
      && s.legID.Some? && s.legID.value in s.attached && s.attached[s.legID.value] == s.lang
  }

  predicate Quiescent(s: State) {
    forall h | h in s.handlers :: s.handlers[h].Finished?
  }

  // ---------------------------------------------------------------------------
  // Every step keeps it
  // ---------------------------------------------------------------------------

  /** The holder moves on: everything about the others stays, so only its own point is in question. */
  lemma HolderMoves(s: State, s': State, h: nat, hd: Handler)
    requires Inv(s) && s.holder == Some(h) && s'.handlers == s.handlers[h := hd]
    requires s'.lang == s.lang
    requires if Holding(hd) then s'.holder == Some(h) && HolderOk(s', hd, ChangePending(s))
      else hd.Finished? && s'.holder == None
    ensures Exclusive(s') && ChangePending(s') == ChangePending(s)
    ensures s'.holder.Some? ==> HolderOk(s', s'.handlers[s'.holder.value], ChangePending(s'))
    ensures StopPending(s) && !WillStop(s.handlers[h]) ==> StopPending(s')
  {
    if k :| k in s.handlers && s.handlers[k].Changed? {
      assert k in s'.handlers && s'.handlers[k].Changed?;
    }
    if k :| k in s'.handlers && s'.handlers[k].Changed? {
      assert k in s.handlers && s.handlers[k].Changed?;
    }
    if StopPending(s) && !WillStop(s.handlers[h]) {
      StopStays(s, s', h, hd);
    }
  }

  /** A stop that is pending stays pending when another handler moves, or until it clears the mark. */
  lemma StopStays(s: State, s': State, h: nat, hd: Handler)
    requires StopPending(s) && h in s.handlers && s'.handlers == s.handlers[h := hd]
    requires WillStop(hd) || !WillStop(s.handlers[h])
    ensures StopPending(s')
  {
    var k :| k in s.handlers && WillStop(s.handlers[k]);
    assert WillStop(s'.handlers[if WillStop(hd) then h else k]);
  }

  /** A start under way stays under way when another handler moves, or when it moves on itself. */
  lemma UnderWayStays(s: State, s': State, h: nat, hd: Handler)
    requires StartUnderWay(s) && h in s.handlers && s'.handlers == s.handlers[h := hd]
    requires InStart(hd) || !InStart(s.handlers[h])
    ensures StartUnderWay(s')
  {
    var k :| k in s.handlers && InStart(s.handlers[k]);
    assert InStart(s'.handlers[if InStart(hd) then h else k]);
  }

  ghost predicate AtHolder(s: State, h: nat) {
    Inv(s) && h in s.handlers && s.holder == Some(h)
  }

  lemma ReadingKeeps(s: State, h: nat, a: Answer)
    requires AtHolder(s, h) && s.handlers[h].Reading?
    ensures Inv(Advance(s, h, a))
  {
    var s' := Advance(s, h, a);
    HolderMoves(s, s', h, s'.handlers[h]);
    assert InStart(s'.handlers[h]) ==> StartUnderWay(s');
  }

  lemma ClearingKeeps(s: State, h: nat, a: Answer)
    requires AtHolder(s, h) && (s.handlers[h].Clearing? || s.handlers[h].ClearingConflict?)
    ensures Inv(Advance(s, h, a))
  {
    var s' := Advance(s, h, a);
    HolderMoves(s, s', h, s'.handlers[h]);
    assert InStart(s'.handlers[h]);
  }

  lemma StoppingKeeps(s: State, h: nat, a: Answer)
    requires AtHolder(s, h) && (s.handlers[h].Stopping? || s.handlers[h].StoppingConflict?)
    ensures Inv(Advance(s, h, a))
  {
    var s' := Advance(s, h, a);
    HolderMoves(s, s', h, s'.handlers[h]);
    assert InStart(s'.handlers[h]);
  }

  lemma DialingKeeps(s: State, h: nat, a: Answer)
    requires AtHolder(s, h) && (s.handlers[h].Dialing? || s.handlers[h].Redialing?)
    ensures Inv(Advance(s, h, a))
  {
    var s' := Advance(s, h, a);
    HolderMoves(s, s', h, s'.handlers[h]);
    assert s'.wanted ==> InStart(s'.handlers[h]);
  }

  lemma MarkingKeeps(s: State, h: nat, a: Answer)
    requires AtHolder(s, h) && (s.handlers[h].Marking? || s.handlers[h].ClearingFailure?)
    ensures Inv(Advance(s, h, a))
  {
    var s' := Advance(s, h, a);
    HolderMoves(s, s', h, s'.handlers[h]);
  }

  /** After two passes the language may be wrong again, but then a further change is already waiting its turn. */
  lemma SettlingKeeps(s: State, h: nat, a: Answer)
    requires AtHolder(s, h) && s.handlers[h].Settling?
    ensures Inv(Advance(s, h, a))
  {
    var s' := Advance(s, h, a);
    HolderMoves(s, s', h, s'.handlers[h]);
    if StartUnderWay(s) { UnderWayStays(s, s', h, s'.handlers[h]); }
  }

  /** Whatever was marked or about to be, a stop leaves nothing marked and nobody about to mark. */
  lemma StopStepKeeps(s: State, h: nat, a: Answer)
    requires AtHolder(s, h) && (s.handlers[h].StopReading? || s.handlers[h].StopClearing? || s.handlers[h].StopSending?)
    ensures Inv(Advance(s, h, a))
  {
    var s' := Advance(s, h, a);
    HolderMoves(s, s', h, s'.handlers[h]);
    if StartUnderWay(s) { UnderWayStays(s, s', h, s'.handlers[h]); }
    assert s.handlers[h].StopReading? && s.sttOn ==> WillStop(s'.handlers[h]);
  }

  /** Everything about the handlers that have not got the lock is the same once one has got it. */
  lemma Acquired(s: State, s': State, h: nat)
    requires Inv(s) && h in s.handlers && s.holder.None?
    requires h in s'.handlers && s'.handlers == s.handlers[h := s'.handlers[h]]
    requires if s.handlers[h].StopWaiting? then s'.handlers[h].StopReading?
      else (s.handlers[h].Changed? || s.handlers[h].Waiting?) && s'.handlers[h].Reading?
    ensures StartUnderWay(s) ==> StartUnderWay(s')
    ensures StopPending(s) ==> StopPending(s')
    ensures s.handlers[h].StopWaiting? && ChangePending(s) ==> ChangePending(s')
  {
    if StartUnderWay(s) { UnderWayStays(s, s', h, s'.handlers[h]); }
    if StopPending(s) { StopStays(s, s', h, s'.handlers[h]); }
    if s.handlers[h].StopWaiting? && ChangePending(s) {
      var k :| k in s.handlers && s.handlers[k].Changed?;
      assert s'.handlers[k].Changed?;
    }
  }

  lemma AcquireKeeps(s: State, h: nat, a: Answer)
    requires Inv(s) && h in s.handlers && !Holding(s.handlers[h])
    ensures Inv(Advance(s, h, a))
  {
    var s' := Advance(s, h, a);
    if s.holder.None? && !s.handlers[h].Finished? {
      Acquired(s, s', h);
    }
  }

  lemma StepKeeps(s: State, h: nat, a: Answer)
    requires Inv(s) && h in s.handlers
    ensures Inv(Advance(s, h, a))
  {
    match s.handlers[h]
    case Reading(_) => ReadingKeeps(s, h, a);
    case Clearing(_, _, _) => ClearingKeeps(s, h, a);
    case ClearingConflict(_, _, _) => ClearingKeeps(s, h, a);
    case Stopping(_, _, _) => StoppingKeeps(s, h, a);
    case StoppingConflict(_, _, _) => StoppingKeeps(s, h, a);
    case Dialing(_, _, _) => DialingKeeps(s, h, a);
    case Redialing(_, _, _) => DialingKeeps(s, h, a);
    case Marking(_, _, _) => MarkingKeeps(s, h, a);
    case ClearingFailure => MarkingKeeps(s, h, a);
    case Settling(_, _, _) => SettlingKeeps(s, h, a);
    case StopReading => StopStepKeeps(s, h, a);
    case StopClearing(_) => StopStepKeeps(s, h, a);
    case StopSending(_) => StopStepKeeps(s, h, a);
    case _ => AcquireKeeps(s, h, a);
  }

  /** A new selection makes every older one out of date, and is pending itself. */
  lemma SetLanguageKeeps(s: State, h: nat, code: Lang)
    requires Inv(s)
    ensures Inv(Next(s, SetLanguage(h, code)))
  {
    var s' := Next(s, SetLanguage(h, code));
    if s' != s {
      assert s'.handlers[h].Changed?;
      assert StartUnderWay(s');
      Arrived(s, s', h);
    }
  }

  /** One handler more, which has not got the lock. */
  lemma Arrived(s: State, s': State, h: nat)
    requires h !in s.handlers && h in s'.handlers && s'.handlers == s.handlers[h := s'.handlers[h]]
    ensures ChangePending(s) ==> ChangePending(s')
    ensures StartUnderWay(s) ==> StartUnderWay(s')
    ensures StopPending(s) ==> StopPending(s')
  {
    if k :| k in s.handlers && s.handlers[k].Changed? {
      assert s'.handlers[k].Changed?;
    }
    if k :| k in s.handlers && InStart(s.handlers[k]) {
      assert InStart(s'.handlers[k]);
    }
    if k :| k in s.handlers && WillStop(s.handlers[k]) {
      assert WillStop(s'.handlers[k]);
    }
  }

  lemma ArrivalKeeps(s: State, e: Event)
    requires Inv(s) && (e.StartSTT? || e.StopSTT?)
    ensures Inv(Next(s, e))
  {
    var s' := Next(s, e);
    if s' != s {
      Arrived(s, s', e.h);
      assert e.StartSTT? ==> InStart(s'.handlers[e.h]);
    }
  }

  lemma LegChangeKeeps(s: State, e: Event)
    requires Inv(s) && (e.LegBound? || e.LegUnbound? || e.LegConnected?) && LegChangeSafe(s, e)
    ensures Inv(Next(s, e))
  {
    var s' := Next(s, e);
    assert s'.handlers == s.handlers && s'.holder == s.holder;
    assert ChangePending(s') == ChangePending(s) && StopPending(s') == StopPending(s);
  }

  lemma NextKeeps(s: State, e: Event)
    requires Inv(s) && LegChangeSafe(s, e)
    ensures Inv(Next(s, e))
  {
    match e
    case Step(h, a) => if h in s.handlers { StepKeeps(s, h, a); }
    case SetLanguage(h, code) => SetLanguageKeeps(s, h, code);
    case StartSTT(_) => ArrivalKeeps(s, e);
    case StopSTT(_) => ArrivalKeeps(s, e);
    case _ => LegChangeKeeps(s, e);
  }

  lemma {:induction false} RunKeeps(s: State, events: seq<Event>)
    requires Inv(s) && LegsSafeAlong(s, events)
    ensures Inv(Run(s, events))
    decreases |events|
  {
    if events != [] {
      NextKeeps(s, events[0]);
      RunKeeps(Next(s, events[0]), events[1..]);
    }
  }

  // ---------------------------------------------------------------------------
  // Main results
  // ---------------------------------------------------------------------------

  lemma QuiescentIsSettled(s: State)
    requires Inv(s) && Quiescent(s)
    ensures Settled(s)
    ensures s.wanted ==> s.sttOn
  {
  }

  /**
   Although each startSTT makes at most two passes: over every interleaving in which
   legs come and go only at safe moments, whenever no handler is under way a marked
   transcriber runs the selected language, on the server too; and it is marked if a
   start was asked for and nothing since then was refused or stopped.
   */
  lemma SelectedLanguageRuns(lang: Lang, events: seq<Event>)
    requires LegsSafeAlong(Start(lang), events)
    ensures var s := Run(Start(lang), events);
      Quiescent(s) ==> Settled(s) && (s.wanted ==> s.sttOn)
  {
    RunKeeps(Start(lang), events);
    if Quiescent(Run(Start(lang), events)) {
      QuiescentIsSettled(Run(Start(lang), events));
    }
  }

  // ---------------------------------------------------------------------------
  // Legs that change
  // ---------------------------------------------------------------------------

  /** However it goes on, with legs changing at safe moments: once no handler is under way all is settled. */
  ghost predicate StaysSettled(s: State) {
    forall events | LegsSafeAlong(s, events) ::
      Quiescent(Run(s, events)) ==> Settled(Run(s, events)) && (Run(s, events).wanted ==> Run(s, events).sttOn)
  }

  lemma OrderStaysSettled(s: State)
    requires Inv(s)
    ensures StaysSettled(s)
  {
    forall events | LegsSafeAlong(s, events) && Quiescent(Run(s, events))
      ensures Settled(Run(s, events)) && (Run(s, events).wanted ==> Run(s, events).sttOn)
    {
      RunKeeps(s, events);
      QuiescentIsSettled(Run(s, events));
    }
  }

  /** The holder leaves a mark alone, or is about to make one for a leg that is not the participant's. */
  predicate Carries(s: State, hd: Handler) {
    || (s.sttOn && (hd.Reading? || hd.Settling?))
    || (WillMark(s, hd) && s.legID != Some(hd.leg))
  }

  /**
   A transcriber is marked, or will be, that is not on the participant's leg; nothing can be dialled
   for that one, and no stop is under way.
   */
  predicate Doomed(s: State) {
    && !s.live && (s.legID.Some? ==> s.legID.value !in s.attached)
    && (forall h | h in s.handlers :: !WillStop(s.handlers[h]) && (Holding(s.handlers[h]) ==> s.holder == Some(h)))
    && if s.holder.None? then s.sttOn
       else
         && s.holder.value in s.handlers && Carries(s, s.handlers[s.holder.value])
  }

  /** How far a handler is from its end. */
  function StepsLeft(hd: Handler): nat {
    match hd
    case Clearing(_, _, _) => 9
    case Stopping(_, _, _) => 8
    case Dialing(_, _, _) => 7
    case ClearingConflict(_, _, _) => 6
    case StoppingConflict(_, _, _) => 5
    case Redialing(_, _, _) => 4
    case Marking(_, _, _) => 3
    case Settling(_, _, _) => 2
    case Reading(_) => 1
    case _ => 0
  }

  /** Without the lock, and not finished. */
  function Outside(s: State): set<nat> {
    set h | h in s.handlers && !s.handlers[h].Finished? && !Holding(s.handlers[h])
  }

  /** The step of the holder leads on towards the mark, or leaves the mark behind. */
  predicate LeadsOn(s: State, t: State, h: nat)
    requires h in s.handlers
  {
    && h in t.handlers && t.handlers == s.handlers[h := t.handlers[h]]
    && t.legID == s.legID && t.live == s.live
    && (t.legID.Some? && t.legID.value in t.attached ==> t.legID.value in s.attached)
    && var hd := t.handlers[h];
      || (hd.Finished? && t.holder.None? && t.sttOn)
      || (t.holder == Some(h) && StepsLeft(hd) < StepsLeft(s.handlers[h]) && Carries(t, hd))
  }

  lemma MarkedHolderLeadsOn(s: State, h: nat)
    requires Doomed(s) && s.holder == Some(h) && (s.handlers[h].Reading? || s.handlers[h].Settling?)
    ensures LeadsOn(s, Next(s, Step(h, FINE)), h)
  {
  }

  lemma DialingHolderLeadsOn(s: State, h: nat)
    requires Doomed(s) && s.holder == Some(h)
    requires s.handlers[h].Dialing? || s.handlers[h].Redialing? || s.handlers[h].Marking?
    ensures LeadsOn(s, Next(s, Step(h, FINE)), h)
  {
  }

  lemma ClearingHolderLeadsOn(s: State, h: nat)
    requires Doomed(s) && s.holder == Some(h)
    requires s.handlers[h].Clearing? || s.handlers[h].ClearingConflict?
    ensures LeadsOn(s, Next(s, Step(h, FINE)), h)
  {
  }

  lemma StoppingHolderLeadsOn(s: State, h: nat)
    requires Doomed(s) && s.holder == Some(h)
    requires s.handlers[h].Stopping? || s.handlers[h].StoppingConflict?
    ensures LeadsOn(s, Next(s, Step(h, FINE)), h)
  {
  }

  lemma LeadingOnStaysDoomed(s: State, t: State, h: nat)
    requires Doomed(s) && s.holder == Some(h) && LeadsOn(s, t, h)
    ensures Doomed(t) && Outside(t) == Outside(s)
  {
    assert Holding(t.handlers[h]) || t.handlers[h].Finished?;
    assert forall k | k in t.handlers && k != h :: t.handlers[k] == s.handlers[k];
  }

  lemma HolderStaysDoomed(s: State, h: nat)
    requires Doomed(s) && s.holder == Some(h)
    ensures Doomed(Next(s, Step(h, FINE))) && Outside(Next(s, Step(h, FINE))) == Outside(s)
    ensures LeadsOn(s, Next(s, Step(h, FINE)), h)
  {
    var hd := s.handlers[h];
    if hd.Reading? || hd.Settling? {
      MarkedHolderLeadsOn(s, h);
    } else if hd.Clearing? || hd.ClearingConflict? {
      ClearingHolderLeadsOn(s, h);
    } else if hd.Stopping? || hd.StoppingConflict? {
      StoppingHolderLeadsOn(s, h);
    } else {
      DialingHolderLeadsOn(s, h);
    }
    LeadingOnStaysDoomed(s, Next(s, Step(h, FINE)), h);
  }

  /** If every handler is run to its end without another word from outside, that transcriber is marked. */
  lemma {:induction false} DoomedEndsUnsettled(s: State) returns (events: seq<Event>)
    requires Doomed(s)
    ensures LegsSafeAlong(s, events) && Quiescent(Run(s, events)) && !Settled(Run(s, events))
    decreases Outside(s), s.holder.Some?, if s.holder.Some? then StepsLeft(s.handlers[s.holder.value]) else 0
  {
    if s.holder.None? && Outside(s) == {} {
      events := [];
      forall h | h in s.handlers ensures s.handlers[h].Finished? {
        assert h !in Outside(s);
      }
    } else {
      var h: nat;
      if s.holder.Some? {
        h := s.holder.value;
        HolderStaysDoomed(s, h);
      } else {
        ghost var some := Pick(Outside(s));
        h :| h in Outside(s);
        assert Outside(Next(s, Step(h, FINE))) == Outside(s) - {h};
      }
      var rest := DoomedEndsUnsettled(Next(s, Step(h, FINE)));
      events := [Step(h, FINE)] + rest;
      assert events[1..] == rest;
    }
  }

  /**
   A new leg can be bound exactly while a stop is pending, or while no transcriber is marked nor about
   to be: then, and only then, all ends settled however it goes on.
   */
  lemma BindingIsSafeIff(s: State, leg: LegId)
    requires Inv(s) && s.legID != Some(leg) && leg !in s.attached
    ensures StaysSettled(Next(s, LegBound(leg))) <==> LegChangeSafe(s, LegBound(leg))
  {
    var t := Next(s, LegBound(leg));
    if LegChangeSafe(s, LegBound(leg)) {
      LegChangeKeeps(s, LegBound(leg));
      OrderStaysSettled(t);
    } else {
      var events := DoomedEndsUnsettled(t);
    }
  }

  /** And a leg can be lost exactly while a stop is pending, or while no transcriber is about to be marked on it. */
  lemma UnbindingIsSafeIff(s: State)
    requires Inv(s)
    ensures StaysSettled(Next(s, LegUnbound)) <==> LegChangeSafe(s, LegUnbound)
  {
    var t := Next(s, LegUnbound);
    if LegChangeSafe(s, LegUnbound) {
      LegChangeKeeps(s, LegUnbound);
      OrderStaysSettled(t);
    } else {
      var events := DoomedEndsUnsettled(t);
    }
  }

  const FINE := Answer(true, true)

  lemma {:induction false} RunAppend(s: State, before: seq<Event>, after: seq<Event>)
    ensures Run(s, before + after) == Run(Run(s, before), after)
    decreases |before|
  {
    if before == [] {
      assert before + after == after;
    } else {
      assert (before + after)[0] == before[0] && (before + after)[1..] == before[1..] + after;
      RunAppend(Next(s, before[0]), before[1..], after);
    }
  }

  lemma RunOfOne(s: State, e: Event)
    ensures Run(s, [e]) == Next(s, e)
  {
    assert [e][1..] == [];
  }

  lemma RunOfThree(s: State, e1: Event, e2: Event, e3: Event)
    ensures Run(s, [e1, e2, e3]) == Next(Next(Next(s, e1), e2), e3)
  {
    assert [e1, e2, e3] == [e1] + ([e2] + [e3]);
    RunAppend(s, [e1], [e2] + [e3]);
    RunAppend(Next(s, e1), [e2], [e3]);
    RunOfOne(s, e1);
    RunOfOne(Next(s, e1), e2);
    RunOfOne(Next(Next(s, e1), e2), e3);
  }

  /** A leg is bound, and startSTT gets as far as having dialled for it, but not as far as marking it. */
  function Dialled(leg: LegId): seq<Event> {
    [LegBound(leg), LegConnected, StartSTT(0)] + [Step(0, FINE), Step(0, FINE), Step(0, FINE)]
  }

  /**
   Now that leg goes and another comes, with nothing marked at either moment; then the dial is
   marked, and the new leg asks for its own.
   */
  function LegLostInDial(leg: LegId, other: LegId): seq<Event> {
    Dialled(leg) + ([LegUnbound, LegBound(other), LegConnected]
                    + ([Step(0, FINE), Step(0, FINE), StartSTT(1)] + ([Step(1, FINE)] + [Step(1, FINE)])))
  }

  lemma DialledIsAboutToMark(lang: Lang, leg: LegId)
    ensures Run(Start(lang), Dialled(leg)) ==
      State(lang, Some(leg), true, false, "", map[leg := lang], Some(0), map[0 := Marking(0, lang, leg)], true)
  {
    var s := Start(lang);
    RunAppend(s, [LegBound(leg), LegConnected, StartSTT(0)], [Step(0, FINE), Step(0, FINE), Step(0, FINE)]);
    RunOfThree(s, LegBound(leg), LegConnected, StartSTT(0));
    var t := Run(s, [LegBound(leg), LegConnected, StartSTT(0)]);
    assert t == s.(legID := Some(leg), live := true, wanted := true, handlers := map[0 := Waiting]);
    WaitingStartDials(t, leg);
  }

  lemma WaitingStartDials(s: State, leg: LegId)
    requires s.handlers == map[0 := Waiting] && s.holder.None? && s.legID == Some(leg) && s.live && !s.sttOn &&
      leg !in s.attached
    ensures Run(s, [Step(0, FINE), Step(0, FINE), Step(0, FINE)])
         == s.(attached := s.attached[leg := s.lang], holder := Some(0), handlers := map[0 := Marking(0, s.lang, leg)])
  {
    RunOfThree(s, Step(0, FINE), Step(0, FINE), Step(0, FINE));
    var s1 := s.(holder := Some(0), handlers := map[0 := Reading(0)]);
    assert Next(s, Step(0, FINE)) == s1;
    assert Next(s1, Step(0, FINE)) == s1.(handlers := map[0 := Dialing(0, s.lang, leg)]);
  }

  /** The old dial is marked although its leg is gone, and a start is asked for. */
  lemma LostDialIsMarked(s: State, leg: LegId)
    requires s.handlers == map[0 := Marking(0, s.lang, leg)] && s.legID.Some? && s.live
    ensures Run(s, [Step(0, FINE), Step(0, FINE), StartSTT(1)])
         == s.(sttOn := true, sttLang := s.lang, holder := None, wanted := true,
           handlers := map[0 := Finished, 1 := Waiting])
  {
    RunOfThree(s, Step(0, FINE), Step(0, FINE), StartSTT(1));
    assert Next(s, Step(0, FINE)) ==
      s.(sttOn := true, sttLang := s.lang, handlers := map[0 := Settling(0, s.lang, leg)]);
  }

  /** The start finds the mark and returns. */
  lemma StartFindsMark(s: State)
    requires s.handlers == map[0 := Finished, 1 := Waiting] && s.holder.None? && s.sttOn && s.sttLang == s.lang
    ensures Run(s, [Step(1, FINE)] + [Step(1, FINE)]) == s.(handlers := map[0 := Finished, 1 := Finished])
  {
    RunAppend(s, [Step(1, FINE)], [Step(1, FINE)]);
    RunOfOne(s, Step(1, FINE));
    assert Next(s, Step(1, FINE)) == s.(holder := Some(1), handlers := map[0 := Finished, 1 := Reading(0)]);
    RunOfOne(Next(s, Step(1, FINE)), Step(1, FINE));
  }

  /**
   So nothing marked is not enough: a leg that comes during a dial for the old one ends up marked,
   and not transcribed.
   */
  lemma LegLostInDialIsUnsettled(lang: Lang, leg: LegId, other: LegId)
    requires leg != other
    ensures var s := Run(Start(lang), LegLostInDial(leg, other));
      Quiescent(s) && s.sttOn && s.legID == Some(other) && other !in s.attached && !Settled(s)
  {
    var rest := [Step(0, FINE), Step(0, FINE), StartSTT(1)] + ([Step(1, FINE)] + [Step(1, FINE)]);
    RunAppend(Start(lang), Dialled(leg), [LegUnbound, LegBound(other), LegConnected] + rest);
    DialledIsAboutToMark(lang, leg);
    var s := Run(Start(lang), Dialled(leg));
    RunAppend(s, [LegUnbound, LegBound(other), LegConnected], rest);
    RunOfThree(s, LegUnbound, LegBound(other), LegConnected);
    var t := s.(legID := Some(other), live := true, wanted := false);
    RunAppend(t, [Step(0, FINE), Step(0, FINE), StartSTT(1)], [Step(1, FINE)] + [Step(1, FINE)]);
    LostDialIsMarked(t, leg);
    StartFindsMark(Run(t, [Step(0, FINE), Step(0, FINE), StartSTT(1)]));
  }

  // ---------------------------------------------------------------------------
  // A stale mark
  // ---------------------------------------------------------------------------

  /** The mark is for the selected language, and whoever is under way only looks at it. */
  ghost predicate Blocked(s: State) {
    s.sttOn && s.sttLang == s.lang && forall h | h in s.handlers ::
      s.handlers[h].Finished? || s.handlers[h].Waiting? || s.handlers[h].Reading?
  }

  predicate TouchesMark(e: Event) {
    e.SetLanguage? || e.StopSTT? || e.LegUnbound?
  }

  lemma NextStaysBlocked(s: State, e: Event)
    requires Blocked(s) && !TouchesMark(e)
    ensures Blocked(Next(s, e)) && Next(s, e).attached == s.attached
  {
  }

  lemma {:induction false} StaysBlocked(s: State, events: seq<Event>)
    requires Blocked(s) && forall i | 0 <= i < |events| :: !TouchesMark(events[i])
    ensures Blocked(Run(s, events)) && Run(s, events).attached == s.attached
    decreases |events|
  {
    if events != [] {
      NextStaysBlocked(s, events[0]);
      assert forall i | 0 <= i < |events[1..]| :: events[1..][i] == events[i + 1];
      StaysBlocked(Next(s, events[0]), events[1..]);
    }
  }

  /**
   A leg bound with a transcriber still marked is not transcribed, however often it
   connects or is asked for, until the language is changed, the transcriber is stopped
   or the leg is lost.
   */
  lemma StaleMarkBlocksNewLeg(s: State, leg: LegId, events: seq<Event>)
    requires Inv(s) && Quiescent(s) && s.sttOn && leg !in s.attached
    requires forall i | 0 <= i < |events| :: !TouchesMark(events[i])
    ensures var t := Run(Next(s, LegBound(leg)), events);
      leg !in t.attached && t.sttOn
  {
    QuiescentIsSettled(s);
    StaysBlocked(Next(s, LegBound(leg)), events);
  }

  lemma ChangeFindsWrongMark(s: State, leg: LegId, h: nat, code: Lang)
    requires s.sttOn && s.sttLang == s.lang && s.holder.None? && s.legID == Some(leg) && s.live
    requires code != s.lang && h !in s.handlers
    ensures Run(s, [SetLanguage(h, code), Step(h, FINE), Step(h, FINE)])
         == s.(lang := code, holder := Some(h), handlers := s.handlers[h := Clearing(0, code, leg)])
  {
    RunOfThree(s, SetLanguage(h, code), Step(h, FINE), Step(h, FINE));
    var s1 := s.(lang := code, handlers := s.handlers[h := Changed]);
    assert Next(s, SetLanguage(h, code)) == s1;
    assert Next(s1, Step(h, FINE)) == s1.(holder := Some(h), handlers := s.handlers[h := Reading(0)]);
  }

  /** Once it has cleared the mark, a handler stops, dials and gets as far as marking. */
  lemma StopsAndDials(s: State, leg: LegId, h: nat, attempt: nat, want: Lang)
    requires h in s.handlers && s.handlers[h] == Stopping(attempt, want, leg)
    ensures Next(Next(s, Step(h, FINE)), Step(h, FINE))
         == s.(attached := s.attached[leg := want], handlers := s.handlers[h := Marking(attempt, want, leg)])
  {
    var s1 := s.(attached := s.attached - {leg}, handlers := s.handlers[h := Dialing(attempt, want, leg)]);
    assert Next(s, Step(h, FINE)) == s1;
    assert s1.attached[leg := want] == s.attached[leg := want];
    assert s1.handlers[h := Marking(attempt, want, leg)] == s.handlers[h := Marking(attempt, want, leg)];
  }

  lemma ClearsAndDials(s: State, leg: LegId, h: nat)
    requires h in s.handlers && s.handlers[h] == Clearing(0, s.lang, leg)
    ensures Run(s, [Step(h, FINE), Step(h, FINE), Step(h, FINE)])
         == Cleared(s).(attached := s.attached[leg := s.lang], handlers := s.handlers[h := Marking(0, s.lang, leg)])
  {
    RunOfThree(s, Step(h, FINE), Step(h, FINE), Step(h, FINE));
    var s1 := Cleared(s).(handlers := s.handlers[h := Stopping(0, s.lang, leg)]);
    assert Next(s, Step(h, FINE)) == s1;
    StopsAndDials(s1, leg, h, 0, s.lang);
    assert s1.handlers[h := Marking(0, s.lang, leg)] == s.handlers[h := Marking(0, s.lang, leg)];
  }

  lemma MarksAndSettles(s: State, leg: LegId, h: nat)
    requires h in s.handlers && s.handlers[h] == Marking(0, s.lang, leg)
    ensures Run(s, [Step(h, FINE)] + [Step(h, FINE)])
         == s.(sttOn := true, sttLang := s.lang, holder := None, handlers := s.handlers[h := Finished])
  {
    RunAppend(s, [Step(h, FINE)], [Step(h, FINE)]);
    RunOfOne(s, Step(h, FINE));
    var s1 := s.(sttOn := true, sttLang := s.lang, handlers := s.handlers[h := Settling(0, s.lang, leg)]);
    assert Next(s, Step(h, FINE)) == s1;
    RunOfOne(s1, Step(h, FINE));
  }

  /** What a change of language does, alone: clear the wrong mark, stop, dial, mark. */
  function ChangeOfLanguage(h: nat, code: Lang): seq<Event> {
    var step := Step(h, FINE);
    [SetLanguage(h, code), step, step] + ([step, step, step] + ([step] + [step]))
  }

  /** Another language recovers it: the leg is transcribed, in the language selected. */
  lemma LanguageChangeRecovers(s: State, leg: LegId, h: nat, code: Lang)
    requires Blocked(s) && Quiescent(s) && s.holder.None? && s.legID == Some(leg) && s.live && leg !in s.attached
    requires code != s.lang && h !in s.handlers
    ensures var t := Run(s, ChangeOfLanguage(h, code));
      Quiescent(t) && Settled(t) && t.sttOn && leg in t.attached && t.attached[leg] == code == t.lang
  {
    var step := Step(h, FINE);
    RunAppend(s, [SetLanguage(h, code), step, step], [step, step, step] + ([step] + [step]));
    ChangeFindsWrongMark(s, leg, h, code);
    var s1 := Run(s, [SetLanguage(h, code), step, step]);
    RunAppend(s1, [step, step, step], [step] + [step]);
    ClearsAndDials(s1, leg, h);
    MarksAndSettles(Run(s1, [step, step, step]), leg, h);
  }

  // ---------------------------------------------------------------------------
  // One handler's passes
  // ---------------------------------------------------------------------------

  /** A language that no provider handles is not asked for at the server, and the handler is done. */
  lemma UnknownLanguageIsNotDialled(s: State, h: nat, a: Answer)
    requires h in s.handlers && s.handlers[h].Dialing? && !a.known
    ensures var t := Next(s, Step(h, a));
      t.attached == s.attached && t.handlers[h].Finished? && t.holder.None? && t.sttOn == s.sttOn
  {
  }

  /** Seven steps: it reads again, clears and stops the wrong one, dials, marks and settles. */
  function SecondPass(h: nat): seq<Event> {
    var step := Step(h, FINE);
    [step, step, step] + ([step, step, step] + [step])
  }

  lemma ReadsAgain(s: State, leg: LegId, h: nat, want: Lang)
    requires h in s.handlers && s.handlers[h] == Settling(0, want, leg) && s.legID == Some(leg) && s.live
    requires s.sttOn && s.sttLang == want && want != s.lang
    ensures Run(s, [Step(h, FINE), Step(h, FINE), Step(h, FINE)])
         == Cleared(s).(handlers := s.handlers[h := Stopping(1, s.lang, leg)])
  {
    RunOfThree(s, Step(h, FINE), Step(h, FINE), Step(h, FINE));
    var s1 := s.(handlers := s.handlers[h := Reading(1)]);
    assert Next(s, Step(h, FINE)) == s1;
    assert Next(s1, Step(h, FINE)) == s.(handlers := s.handlers[h := Clearing(1, s.lang, leg)]);
  }

  lemma DialsAgain(s: State, leg: LegId, h: nat)
    requires h in s.handlers && s.handlers[h] == Stopping(1, s.lang, leg)
    ensures Run(s, [Step(h, FINE), Step(h, FINE), Step(h, FINE)])
         == s.(attached := s.attached[leg := s.lang], sttOn := true, sttLang := s.lang,
               handlers := s.handlers[h := Settling(1, s.lang, leg)])
  {
    RunOfThree(s, Step(h, FINE), Step(h, FINE), Step(h, FINE));
    StopsAndDials(s, leg, h, 1, s.lang);
    assert s.handlers[h := Marking(1, s.lang, leg)][h := Settling(1, s.lang, leg)] ==
      s.handlers[h := Settling(1, s.lang, leg)];
  }

  /** A change of language during the first dial is caught up with by the same handler, in its second pass. */
  lemma SecondPassCatchesUp(s: State, leg: LegId, h: nat, want: Lang)
    requires h in s.handlers && s.handlers[h] == Settling(0, want, leg) && s.legID == Some(leg) && s.live
    requires s.sttOn && s.sttLang == want && want != s.lang
    ensures var t := Run(s, SecondPass(h));
      && h in t.handlers && t.handlers[h].Finished? && t.sttOn && t.sttLang == t.lang == s.lang
      && leg in t.attached && t.attached[leg] == t.lang
  {
    var step := Step(h, FINE);
    RunAppend(s, [step, step, step], [step, step, step] + [step]);
    ReadsAgain(s, leg, h, want);
    var s1 := Run(s, [step, step, step]);
    RunAppend(s1, [step, step, step], [step]);
    DialsAgain(s1, leg, h);
    RunOfOne(Run(s1, [step, step, step]), step);
  }

  /** One during the second dial is left to the handler of that change. */
  lemma NoThirdPass(s: State, leg: LegId, h: nat, want: Lang, a: Answer)
    requires h in s.handlers && s.handlers[h] == Settling(1, want, leg)
    ensures Next(s, Step(h, a)).handlers[h].Finished? && Next(s, Step(h, a)).sttLang == s.sttLang
  {
  }
}
