/**
 What the server holds for a listener (cmd/interpreter/interpret.go, session.go): which
 guesses are made, which of them go when a speaker carries on, revises what was said or
 changes voice, and that none is left behind.

 Everything here is said in terms of what is on the desks and at the server before and
 after an event.
 */
module HeldAudio {
  import opened AsciiText
  import opened Options
  import opened Staging
  import opened Speculation
  import opened Transparency
  import V = Voices

  // ---------------------------------------------------------------------------
  // What goes, and what stays
  // ---------------------------------------------------------------------------

  /** The id under which one of these turns is staged. */
  ghost predicate IsIdOf(d: Desk, turns: set<int>, id: TtsId) {
    exists t :: t in turns && t in d.staged && d.staged[t].ttsID == id
  }

  /** The audio of one of these turns, on the listener's leg. */
  ghost predicate IsOf(x: Trio, turns: set<int>, k: (LegId, TtsId)) {
    x.listener.leg == Some(k.0) && IsIdOf(x.speaker.desk, turns, k.1)
  }

  /** The server holds what it held, but for the audio of these turns. */
  ghost predicate HoldsBut(x: Trio, sv: Server, turns: set<int>) {
    && (forall k :: k in sv.staged <==> k in x.server.staged && !IsOf(x, turns, k))
    && (forall k | k in sv.staged :: sv.staged[k] == x.server.staged[k])
  }

  /** The desk has what it had, but for these turns; no longer indexed are their ids. */
  ghost predicate DeskBut(d: Desk, e: Desk, turns: set<int>) {
    && (forall t :: t in e.staged <==> t in d.staged && t !in turns)
    && (forall t | t in e.staged :: e.staged[t] == d.staged[t])
    && (forall id :: id in e.stagedByID <==> id in d.stagedByID && !IsIdOf(d, turns, id))
    && (forall id | id in e.stagedByID :: e.stagedByID[id] == d.stagedByID[id])
    && e.ready == d.ready && e.pending == d.pending && e.maxDone == d.maxDone
  }

  /** These turns are dropped, here and at the server, and nothing else happens. */
  ghost predicate Drops(x: Trio, y: Trio, turns: set<int>) {
    && HoldsBut(x, y.server, turns) && DeskBut(x.speaker.desk, y.speaker.desk, turns)
    && y.server == x.server.(staged := y.server.staged)
    && y.speaker == x.speaker.(desk := y.speaker.desk) && y.listener == x.listener
  }

  lemma TurnsGo(x: Trio, turns: set<int>)
    ensures Drops(x, DiscardTurns(x, turns), turns)
  {
  }

  lemma ResumedTurnGoes(x: Trio, turn: int)
    ensures Drops(x, DiscardStaged(x, turn), {turn})
  {
    if turn in x.speaker.desk.staged {
      assert IsIdOf(x.speaker.desk, {turn}, x.speaker.desk.staged[turn].ttsID);
    }
  }

  /** What is evicted: nothing while there is room, else the lowest turn staged. */
  ghost predicate MakesRoom(d: Desk, evicted: set<int>) {
    if |d.staged| < STAGED_MAX then evicted == {}
    else exists t :: evicted == {t} && t in d.staged && forall u | u in d.staged :: t <= u
  }

  lemma OneMakesRoom(d: Desk, a: set<int>, b: set<int>)
    requires MakesRoom(d, a) && MakesRoom(d, b)
    ensures a == b
  {
    if |d.staged| >= STAGED_MAX {
      var t :| a == {t} && t in d.staged && forall u | u in d.staged :: t <= u;
      var v :| b == {v} && v in d.staged && forall u | u in d.staged :: v <= u;
      assert t == v;
    }
  }

  lemma OldestGoes(x: Trio) returns (evicted: set<int>)
    ensures MakesRoom(x.speaker.desk, evicted) && Drops(x, EvictOldest(x), evicted)
  {
    if |x.speaker.desk.staged| < STAGED_MAX {
      evicted := {};
    } else {
      var oldest := Least(x.speaker.desk.staged.Keys);
      ResumedTurnGoes(x, oldest);
      evicted := {oldest};
    }
  }

  /** The server refuses to play audio that it holds, is ready and is what was said: it stays. */
  predicate CommitRefused(x: Trio, turn: int, text: string, luck: Luck) {
    && x.listener.leg.Some? && turn in x.speaker.desk.staged && x.speaker.desk.staged[turn].src == Trim(text)
    && (x.speaker.desk.staged[turn].ttsID in x.speaker.desk.ready || luck.readyInTime) && !luck.commits
  }

  lemma SlowPathHolds(cfg: Config, x: Trio, final: string, luck: Luck)
    ensures var y := SlowPath(cfg, x, final, luck); y.server.staged == x.server.staged && y.speaker == x.speaker
  {
  }

  /** What was taken off the desk is gone from the server, unless the server refuses to play it. */
  lemma TakenGoes(cfg: Config, x: Trio, st: Staged, final: string, luck: Luck)
    ensures var y := FinishTaken(cfg, x, st, final, luck);
      var refused := st.src == final && (st.ttsID in x.speaker.desk.ready || luck.readyInTime) && !luck.commits;
      && y.speaker == x.speaker
      && (forall k :: k in y.server.staged <==>
        k in x.server.staged && (refused || x.listener.leg != Some(k.0) || k.1 != st.ttsID))
      && (forall k | k in y.server.staged :: y.server.staged[k] == x.server.staged[k])
  {
    if x.listener.leg.Some? {
      if st.src == final {
        SlowPathHolds(cfg, CommitStaged(x, st, luck).0, final, luck);
      } else {
        SlowPathHolds(cfg, x.(server := DiscardID(x.server, x.listener.leg, st.ttsID)), final, luck);
      }
    }
  }

  /** The desk when a turn has ended: without the turn, and the turn is done. */
  ghost predicate DeskDone(d: Desk, e: Desk, turn: int) {
    && DeskBut(d, e.(maxDone := d.maxDone), {turn})
    && e.maxDone == if turn > d.maxDone then turn else d.maxDone
  }

  lemma TakenTurnIsDone(d: Desk, turn: int)
    ensures var e := Take(FinishMark(d, turn), turn).0;
      DeskDone(d, if turn in d.staged then Release(e, d.staged[turn].ttsID) else e, turn)
  {
    if turn in d.staged {
      assert IsIdOf(d, {turn}, d.staged[turn].ttsID);
    }
  }

  /**
   A turn that ends takes its audio along, whether it is played, revised, too late, or there is
   nobody to play it to; only a refused commit leaves it at the server. No other audio goes.
   */
  lemma EndedTurnGoes(cfg: Config, x: Trio, turn: int, text: string, luck: Luck)
    ensures var y := FinishTurn(cfg, x, turn, text, luck);
      && (!CommitRefused(x, turn, text, luck) ==> HoldsBut(x, y.server, {turn}))
      && (CommitRefused(x, turn, text, luck) ==> y.server.staged == x.server.staged)
      && DeskDone(x.speaker.desk, y.speaker.desk, turn)
  {
    TakenTurnIsDone(x.speaker.desk, turn);
    var (y, taken) := TakeFrom(x.(speaker := x.speaker.(desk := FinishMark(x.speaker.desk, turn))), turn);
    if taken.Some? {
      assert IsIdOf(x.speaker.desk, {turn}, taken.value.ttsID);
      TakenGoes(cfg, y, taken.value, Trim(text), luck);
    } else {
      SlowPathHolds(cfg, y, Trim(text), luck);
    }
  }

  // ---------------------------------------------------------------------------
  // A guess is made, becomes ready, and pays off
  // ---------------------------------------------------------------------------

  /** There is something to say and somebody to say it to, in a turn that has not ended. */
  predicate Guessable(x: Trio, turn: int, text: string, luck: Luck) {
    Trim(text) != "" && x.listener.leg.Some? && luck.translates && turn > x.speaker.desk.maxDone
  }

  /**
   A guess: the translation of what was said, in the speaker's voice, is held for the listener's leg
   under a new id, which is staged and indexed; what is evicted is gone and all else is as it was.
   */
  lemma GuessIsStaged(cfg: Config, x: Trio, turn: int, text: string, luck: Luck) returns (evicted: set<int>)
    requires Guessable(x, turn, text, luck) && luck.accepts
    ensures MakesRoom(x.speaker.desk, evicted)
    ensures var y := Preflight(cfg, x, turn, text, luck);
      var what := Utterance(cfg.translate(Trim(text), x.speaker.lang, x.listener.lang), cfg.voice(x.speaker.gender));
      var k := (x.listener.leg.value, x.server.nextTts);
      var st := Staged(k.1, Trim(text), what.text, luck.now);
      && k in y.server.staged && y.server.staged[k] == what
      && turn in y.speaker.desk.staged && y.speaker.desk.staged[turn] == st
      && k.1 in y.speaker.desk.stagedByID && y.speaker.desk.stagedByID[k.1] == st
      && (k !in x.server.staged ==> HoldsBut(x, y.server.(staged := y.server.staged - {k}), evicted))
      && (forall t | t != turn :: t in y.speaker.desk.staged <==> t in x.speaker.desk.staged && t !in evicted)
      && (forall t | t in y.speaker.desk.staged && t != turn :: y.speaker.desk.staged[t] == x.speaker.desk.staged[t])
      && y.server.nextTts == x.server.nextTts + 1 && y.server.playing == x.server.playing
      && y.listener == x.listener
  {
    evicted := OldestGoes(x);
  }

  lemma NoGuess(cfg: Config, x: Trio, turn: int, text: string, luck: Luck) returns (evicted: set<int>)
    requires !Guessable(x, turn, text, luck) || !luck.accepts
    ensures if Guessable(x, turn, text, luck) then MakesRoom(x.speaker.desk, evicted) else evicted == {}
    ensures Drops(x, Preflight(cfg, x, turn, text, luck), evicted)
  {
    evicted := {};
    if Guessable(x, turn, text, luck) {
      evicted := OldestGoes(x);
    }
  }

  /** A guess that is ready and right is played when its turn ends, whether or not the translator is up. */
  lemma ReadyGuessIsPlayed(cfg: Config, x: Trio, turn: int, text: string, luck: Luck)
    requires x.listener.leg.Some? && turn in x.speaker.desk.staged && x.speaker.desk.staged[turn].src == Trim(text)
    requires x.speaker.desk.staged[turn].ttsID in x.speaker.desk.ready && luck.commits
    requires (x.listener.leg.value, x.speaker.desk.staged[turn].ttsID) in x.server.staged
    ensures var y := FinishTurn(cfg, x, turn, text, luck);
      var k := (x.listener.leg.value, x.speaker.desk.staged[turn].ttsID);
      && y.server.started == x.server.started + [Start(k.0, x.server.staged[k])]
      && k in y.server.playing && y.listener.inflight == Some(k.1)
  {
  }

  /** A guess that is not ready, and does not become so in time, is not played. */
  lemma UnreadyGuessIsNotPlayed(cfg: Config, x: Trio, turn: int, text: string, luck: Luck)
    requires x.listener.leg.Some? && turn in x.speaker.desk.staged && ServerIssued(x.server)
    requires var id := x.speaker.desk.staged[turn].ttsID;
      && id !in x.speaker.desk.ready && !luck.readyInTime
      && (x.listener.leg.value, id) in x.server.staged
    ensures (x.listener.leg.value, x.speaker.desk.staged[turn].ttsID) !in
      FinishTurn(cfg, x, turn, text, luck).server.playing
  {
  }

  /** The report that synthesis is done makes an indexed utterance ready, and does nothing else. */
  lemma ReportMakesReady(cfg: Config, w: World, listener: Seat, id: TtsId)
    requires w.a.Some? && w.b.Some? && w.At(listener).value.leg.Some?
    ensures var v := Next(cfg, w, SynthesisReady(listener, id));
      var was := w.At(Other(listener)).value.desk;
      && v.At(listener) == w.At(listener) && v.server == w.server && v.At(Other(listener)).Some?
      && v.At(Other(listener)).value == w.At(Other(listener)).value.(desk := v.At(Other(listener)).value.desk)
      && v.At(Other(listener)).value.desk == was.(ready := v.At(Other(listener)).value.desk.ready)
      && forall i :: i in v.At(Other(listener)).value.desk.ready <==>
        i in was.ready || (i == id && id in was.stagedByID)
  {
  }

  /** The server may let go of what it holds. */
  lemma ForgottenIsNotHeld(cfg: Config, w: World, leg: LegId, id: TtsId)
    ensures var v := Next(cfg, w, ServerForgets(leg, id));
      && (forall k :: k in v.server.staged <==> k in w.server.staged && k != (leg, id))
      && v == w.(server := w.server.(staged := v.server.staged))
  {
  }

  /** The end of a playback: it plays no more, and is in flight for nobody on that leg. */
  lemma PlaybackEndsForGood(cfg: Config, w: World, leg: LegId, id: TtsId)
    ensures var v := Next(cfg, w, PlaybackOver(leg, id));
      && (forall k :: k in v.server.playing <==> k in w.server.playing && k != (leg, id))
      && v.server == w.server.(playing := v.server.playing)
      && forall seat :: v.At(seat).Some? == w.At(seat).Some? && (v.At(seat).Some? ==>
        var p, q := w.At(seat).value, v.At(seat).value;
        && q == p.(inflight := q.inflight)
        && q.inflight == if p.leg == Some(leg) && p.inflight == Some(id) then None else p.inflight)
  {
  }

  // ---------------------------------------------------------------------------
  // The events of a session
  // ---------------------------------------------------------------------------

  lemma ResumingDrops(cfg: Config, w: World, seat: Seat, turn: int)
    requires Heard(w, seat)
    ensures var v := Next(cfg, w, TurnResumed(seat, turn));
      v.a.Some? && v.b.Some? && Drops(w.Facing(seat), v.Facing(seat), {turn})
  {
    ResumedTurnGoes(w.Facing(seat), turn);
  }

  /** Whoever changes language or voice has nothing staged any more, and nothing of theirs is held for the peer. */
  lemma ChangingDrops(cfg: Config, w: World, seat: Seat, e: Event)
    requires w.a.Some? && w.b.Some? && (e.SetLanguage? || e.SetGender?) && e.seat == seat
    ensures var p := w.At(seat).value;
      var q := if e.SetLanguage? then p.(lang := e.code) else p.(gender := e.code);
      var known := if e.SetLanguage? then e.code in cfg.languages else e.code in cfg.genders;
      var v := Next(cfg, w, e);
      && v.a.Some? && v.b.Some?
      && if !known || q == p then v == w
         else Drops(w.Facing(seat).(speaker := q), v.Facing(seat), p.desk.staged.Keys)
  {
    var x := w.Facing(seat);
    var q := if e.SetLanguage? then x.speaker.(lang := e.code) else x.speaker.(gender := e.code);
    TurnsGo(x.(speaker := q), q.desk.staged.Keys);
  }

  /** The turns staged before the cutoff. */
  ghost function Older(d: Desk, cutoff: int): set<int> {
    set t | t in d.staged && d.staged[t].at < cutoff
  }

  /** The sweeper drops what is too old on either desk. */
  lemma SweepingDrops(cfg: Config, w: World, cutoff: int)
    requires w.a.Some? && w.b.Some?
    ensures var v := Next(cfg, w, SweepTick(cutoff));
      && v.a.Some? && v.b.Some?
      && (forall seat :: DeskBut(w.At(seat).value.desk, v.At(seat).value.desk, Older(w.At(seat).value.desk, cutoff)))
      && (forall seat :: v.At(seat).value == w.At(seat).value.(desk := v.At(seat).value.desk))
      && (forall k :: k in v.server.staged <==> k in w.server.staged && forall seat ::
        !IsOf(w.Facing(seat), Older(w.At(seat).value.desk, cutoff), k))
      && (forall k | k in v.server.staged :: v.server.staged[k] == w.server.staged[k])
  {
    var u := Swept(w, A, cutoff);
    TurnsGo(w.Facing(A), ExpiredTurns(w.Facing(A).speaker.desk, cutoff));
    TurnsGo(u.Facing(B), ExpiredTurns(u.Facing(B).speaker.desk, cutoff));
    assert forall k :: IsOf(u.Facing(B), Older(w.b.value.desk, cutoff), k) <==>
      IsOf(w.Facing(B), Older(w.b.value.desk, cutoff), k);
    forall k ensures (forall seat :: !IsOf(w.Facing(seat), Older(w.At(seat).value.desk, cutoff), k)) <==>
      !IsOf(w.Facing(A), Older(w.a.value.desk, cutoff), k) && !IsOf(w.Facing(B), Older(w.b.value.desk, cutoff), k) {
      assert w.At(A) == w.a && w.At(B) == w.b;
    }
    forall seat: Seat ensures
      && DeskBut(w.At(seat).value.desk, Next(cfg, w, SweepTick(cutoff)).At(seat).value.desk,
        Older(w.At(seat).value.desk, cutoff))
    {
      if seat == A {
        assert Next(cfg, w, SweepTick(cutoff)).a == u.a;
      }
    }
  }

  /** A lost leg takes what its owner staged along; nothing is in flight to the owner any more. */
  lemma LosingLegDrops(cfg: Config, w: World, seat: Seat)
    requires w.a.Some? && w.b.Some?
    ensures var v := Next(cfg, w, LegGone(seat));
      && v.a.Some? && v.b.Some? && v.At(Other(seat)) == w.At(Other(seat))
      && HoldsBut(w.Facing(seat), v.server, w.At(seat).value.desk.staged.Keys)
      && v.server == w.server.(staged := v.server.staged)
      && v.At(seat).value == w.At(seat).value.(leg := None, inflight := None, desk := v.At(seat).value.desk)
      && v.At(seat).value.desk.staged == map[]
  {
    var x := w.Facing(seat).(speaker := w.At(seat).value.(leg := None));
    TurnsGo(x, x.speaker.desk.staged.Keys);
    assert forall k :: IsOf(x, x.speaker.desk.staged.Keys, k) <==> IsOf(w.Facing(seat), x.speaker.desk.staged.Keys, k);
  }

  /** So does whoever leaves, and what is spoken to them is stopped. */
  lemma LeavingDrops(cfg: Config, w: World, seat: Seat, stops: bool)
    requires w.a.Some? && w.b.Some?
    ensures var v := Next(cfg, w, Leave(seat, stops));
      var p := w.At(seat).value;
      && v.At(seat).None? && v.At(Other(seat)) == w.At(Other(seat))
      && HoldsBut(w.Facing(seat), v.server, p.desk.staged.Keys)
      && (forall k :: k in v.server.playing <==>
        k in w.server.playing && !(stops && p.leg == Some(k.0) && p.inflight == Some(k.1)))
  {
    TurnsGo(w.Facing(seat), w.At(seat).value.desk.staged.Keys);
  }

  // ---------------------------------------------------------------------------
  // Nothing is left behind
  // ---------------------------------------------------------------------------

  /** What is held on the listener's leg is staged on the speaker's desk. */
  ghost predicate Covered(x: Trio) {
    forall k | k in x.server.staged && x.listener.leg == Some(k.0) ::
      IsIdOf(x.speaker.desk, x.speaker.desk.staged.Keys, k.1)
  }

  /** Nothing is held on this participant's leg. */
  ghost predicate NothingHeld(p: Part, sv: Server) {
    forall k | k in sv.staged :: p.leg != Some(k.0)
  }

  /**
   What the server holds on a participant's leg is staged on the peer's desk, if there is a peer; and
   no desk has more than there is room for.
   */
  ghost predicate NoneLeftBehind(w: World) {
    && (w.a.Some? && w.b.Some? ==> Covered(w.Facing(A)) && Covered(w.Facing(B)))
    && (w.a.Some? && w.b.None? ==> NothingHeld(w.a.value, w.server))
    && (w.b.Some? && w.a.None? ==> NothingHeld(w.b.value, w.server))
    && (w.a.Some? ==> |w.a.value.desk.staged| <= STAGED_MAX) && (w.b.Some? ==> |w.b.value.desk.staged| <= STAGED_MAX)
  }

  /** A turn is guessed once more although its audio is held, and is not what makes room for the new guess. */
  ghost predicate GuessedAgain(x: Trio, turn: int, text: string, luck: Luck) {
    && Guessable(x, turn, text, luck) && luck.accepts
    && turn in x.speaker.desk.staged && (x.listener.leg.value, x.speaker.desk.staged[turn].ttsID) in x.server.staged
    && !MakesRoom(x.speaker.desk, {turn})
  }

  /** Held audio is left at the server: a commit of it is refused, or its turn is guessed once more. */
  ghost predicate LeavesBehind(w: World, e: Event) {
    || (e.EndOfTurn? && Heard(w, e.seat) && CommitRefused(w.Facing(e.seat), e.turn, e.text, e.luck)
        && IsHeld(w.At(Other(e.seat)).value, w.At(e.seat).value, w.server, e.turn))
    || (e.EagerEndOfTurn? && Heard(w, e.seat) && GuessedAgain(w.Facing(e.seat), e.turn, e.text, e.luck))
  }

  function Flip(x: Trio): Trio {
    Trio(x.listener, x.speaker, x.server)
  }

  /** Either way round, nothing is left behind. */
  ghost predicate BothCovered(x: Trio) {
    && Covered(x) && Covered(Flip(x))
    && |x.speaker.desk.staged| <= STAGED_MAX && |x.listener.desk.staged| <= STAGED_MAX
    && (x.speaker.leg.Some? ==> x.speaker.leg != x.listener.leg)
  }

  lemma FewerTurns(a: map<int, Staged>, b: map<int, Staged>)
    requires forall t :: t in b ==> t in a
    ensures |b| <= |a|
  {
    forall t | t in b.Keys ensures t in a.Keys {
      assert t in b;
    }
    assert a.Keys == b.Keys + (a.Keys - b.Keys);
  }

  /** Fewer turns are staged, and of what is held only their audio is gone. */
  ghost predicate Fewer(x: Trio, y: Trio, turns: set<int>) {
    && HoldsBut(x, y.server, turns)
    && (forall t :: t in y.speaker.desk.staged <==> t in x.speaker.desk.staged && t !in turns)
    && (forall t | t in y.speaker.desk.staged :: y.speaker.desk.staged[t] == x.speaker.desk.staged[t])
    && y.speaker.leg == x.speaker.leg && y.listener.leg == x.listener.leg && y.listener.desk == x.listener.desk
  }

  lemma FewerStaysCovered(x: Trio, y: Trio, turns: set<int>)
    requires BothCovered(x) && Fewer(x, y, turns)
    ensures BothCovered(y)
  {
    FewerTurns(x.speaker.desk.staged, y.speaker.desk.staged);
    forall k | k in y.server.staged && y.listener.leg == Some(k.0)
      ensures IsIdOf(y.speaker.desk, y.speaker.desk.staged.Keys, k.1) {
      var t :| t in x.speaker.desk.staged && x.speaker.desk.staged[t].ttsID == k.1;
      assert t in turns ==> IsOf(x, turns, k);
      assert t in y.speaker.desk.staged;
    }
    forall k | k in y.server.staged && y.speaker.leg == Some(k.0)
      ensures IsIdOf(y.listener.desk, y.listener.desk.staged.Keys, k.1) {
      assert IsIdOf(x.listener.desk, x.listener.desk.staged.Keys, k.1);
    }
  }

  /** A refused commit is all that a turn can leave behind when it ends. */
  lemma EndedTurnStaysCovered(cfg: Config, x: Trio, turn: int, text: string, luck: Luck)
    requires TrioInv(cfg, x, false) && BothCovered(x) && DeskOk(x.speaker.desk)
    ensures BothCovered(FinishTurn(cfg, x, turn, text, luck)) <==>
      !(CommitRefused(x, turn, text, luck) && IsHeld(x.listener, x.speaker, x.server, turn))
  {
    var y := FinishTurn(cfg, x, turn, text, luck);
    FinishTurnKeeps(cfg, false, x, turn, text, luck);
    EndedTurnGoes(cfg, x, turn, text, luck);
    if !CommitRefused(x, turn, text, luck) {
      FewerStaysCovered(x, y, {turn});
    } else if !IsHeld(x.listener, x.speaker, x.server, turn) {
      forall k | IsOf(x, {turn}, k) ensures k !in x.server.staged {
      }
      FewerStaysCovered(x, y, {turn});
    } else {
      var k := (x.listener.leg.value, x.speaker.desk.staged[turn].ttsID);
      assert k in y.server.staged && !IsIdOf(y.speaker.desk, y.speaker.desk.staged.Keys, k.1);
    }
  }

  /** A new guess is staged, and all that is newly held is its audio. */
  ghost predicate OneMoreGuess(x: Trio, y: Trio, turn: int, id: TtsId) {
    && x.listener.leg.Some?
    && (forall k :: k in y.server.staged <==> k in x.server.staged || k == (x.listener.leg.value, id))
    && (forall t :: t in y.speaker.desk.staged <==> t in x.speaker.desk.staged || t == turn)
    && turn in y.speaker.desk.staged && y.speaker.desk.staged[turn].ttsID == id
    && (forall t | t in y.speaker.desk.staged && t != turn :: y.speaker.desk.staged[t] == x.speaker.desk.staged[t])
    && y.speaker.leg == x.speaker.leg && y.listener == x.listener
  }

  lemma OneMoreTurn(a: map<int, Staged>, b: map<int, Staged>, turn: int)
    requires forall t :: t in b <==> t in a || t == turn
    ensures |b| <= |a| + 1
  {
    forall t ensures t in b.Keys <==> t in a.Keys + {turn} {
      assert t in b <==> t in a || t == turn;
    }
    assert b.Keys == a.Keys + {turn};
  }

  lemma GuessStaysCovered(x: Trio, y: Trio, turn: int, id: TtsId)
    requires BothCovered(x) && DeskOk(x.speaker.desk) && OneMoreGuess(x, y, turn, id)
    requires |x.speaker.desk.staged| < STAGED_MAX && forall t | t in x.speaker.desk.staged ::
      x.speaker.desk.staged[t].ttsID != id
    ensures BothCovered(y) <==> !IsHeld(x.listener, x.speaker, x.server, turn)
  {
    OneMoreTurn(x.speaker.desk.staged, y.speaker.desk.staged, turn);
    if IsHeld(x.listener, x.speaker, x.server, turn) {
      var k := (x.listener.leg.value, x.speaker.desk.staged[turn].ttsID);
      assert k in y.server.staged && !IsIdOf(y.speaker.desk, y.speaker.desk.staged.Keys, k.1);
    } else {
      forall k | k in y.server.staged && y.listener.leg == Some(k.0)
        ensures IsIdOf(y.speaker.desk, y.speaker.desk.staged.Keys, k.1) {
        if k.1 == id {
          assert turn in y.speaker.desk.staged;
        } else {
          var t :| t in x.speaker.desk.staged && x.speaker.desk.staged[t].ttsID == k.1;
          assert t in y.speaker.desk.staged;
        }
      }
      forall k | k in y.server.staged && y.speaker.leg == Some(k.0)
        ensures IsIdOf(y.listener.desk, y.listener.desk.staged.Keys, k.1) {
        assert IsIdOf(x.listener.desk, x.listener.desk.staged.Keys, k.1);
      }
    }
  }

  lemma OneFewer(a: map<int, Staged>, b: map<int, Staged>, turn: int)
    requires turn in a && forall t :: t in b <==> t in a && t != turn
    ensures |b| < |a|
  {
    forall t ensures t in b.Keys <==> t in a.Keys - {turn} {
      assert t in b <==> t in a && t != turn;
    }
    assert b.Keys == a.Keys - {turn};
  }

  lemma EvictionMakesRoom(x: Trio) returns (evicted: set<int>)
    requires BothCovered(x)
    ensures MakesRoom(x.speaker.desk, evicted)
    ensures Drops(x, EvictOldest(x), evicted) && BothCovered(EvictOldest(x))
    ensures |EvictOldest(x).speaker.desk.staged| < STAGED_MAX
  {
    evicted := OldestGoes(x);
    FewerStaysCovered(x, EvictOldest(x), evicted);
    if evicted != {} {
      OneFewer(x.speaker.desk.staged, EvictOldest(x).speaker.desk.staged, Least(x.speaker.desk.staged.Keys));
    }
  }

  /** A second guess about the same turn is all that a guess can leave behind. */
  lemma GuessingStaysCovered(cfg: Config, x: Trio, turn: int, text: string, luck: Luck)
    requires TrioInv(cfg, x, false) && BothCovered(x) && DeskOk(x.speaker.desk)
    ensures BothCovered(Preflight(cfg, x, turn, text, luck)) <==> !GuessedAgain(x, turn, text, luck)
  {
    if Guessable(x, turn, text, luck) {
      var evicted := EvictionMakesRoom(x);
      var z := EvictOldest(x);
      DropsKeepsDesk(x, z, evicted);
      if luck.accepts {
        var y := Preflight(cfg, x, turn, text, luck);
        GuessStaysCovered(z, y, turn, x.server.nextTts);
        HeldUnlessEvicted(x, z, evicted, turn);
      }
    }
  }

  lemma DropsKeepsDesk(x: Trio, y: Trio, turns: set<int>)
    requires DeskOk(x.speaker.desk) && Drops(x, y, turns)
    ensures DeskOk(y.speaker.desk)
  {
    var d, e := x.speaker.desk, y.speaker.desk;
    forall t | t in e.staged ensures !IsIdOf(d, turns, e.staged[t].ttsID) {
      assert e.staged[t] == d.staged[t];
    }
  }

  lemma HeldUnlessEvicted(x: Trio, z: Trio, evicted: set<int>, turn: int)
    requires DeskOk(x.speaker.desk) && MakesRoom(x.speaker.desk, evicted) && Drops(x, z, evicted)
    ensures IsHeld(z.listener, z.speaker, z.server, turn) <==>
      IsHeld(x.listener, x.speaker, x.server, turn) && !MakesRoom(x.speaker.desk, {turn})
  {
    if MakesRoom(x.speaker.desk, {turn}) {
      OneMakesRoom(x.speaker.desk, evicted, {turn});
    }
    if turn in x.speaker.desk.staged {
      var id := x.speaker.desk.staged[turn].ttsID;
      assert turn in evicted ==> evicted == {turn};
      assert IsIdOf(x.speaker.desk, evicted, id) <==> turn in evicted;
    }
  }

  // ---------------------------------------------------------------------------
  // Over runs
  // ---------------------------------------------------------------------------

  ghost predicate DesksOk(w: World) {
    (w.a.Some? ==> DeskOk(w.a.value.desk)) && (w.b.Some? ==> DeskOk(w.b.value.desk))
  }

  lemma GuessKeepsDesk(cfg: Config, x: Trio, turn: int, text: string, luck: Luck)
    requires TrioInv(cfg, x, false) && DeskOk(x.speaker.desk)
    ensures DeskOk(Preflight(cfg, x, turn, text, luck).speaker.desk)
  {
    if Guessable(x, turn, text, luck) {
      var evicted := OldestGoes(x);
      var z := EvictOldest(x);
      DropsKeepsDesk(x, z, evicted);
      Staging.PutKeeps(z.speaker.desk, turn, Staged(x.server.nextTts, Trim(text),
        cfg.translate(Trim(text), x.speaker.lang, x.listener.lang), luck.now));
    }
  }

  lemma EndedTurnKeepsDesk(cfg: Config, x: Trio, turn: int, text: string, luck: Luck)
    requires DeskOk(x.speaker.desk)
    ensures DeskOk(FinishTurn(cfg, x, turn, text, luck).speaker.desk)
  {
    EndedTurnGoes(cfg, x, turn, text, luck);
    var d, e := x.speaker.desk, FinishTurn(cfg, x, turn, text, luck).speaker.desk;
    forall t | t in e.staged ensures !IsIdOf(d, {turn}, e.staged[t].ttsID) {
      assert e.staged[t] == d.staged[t];
    }
  }

  lemma DroppedKeepsDesk(d: Desk, turns: set<int>)
    requires DeskOk(d)
    ensures DeskOk(DropTurns(d, turns))
  {
    DropTurnsKeeps(d, turns);
  }

  lemma TurnsKeepDesks(cfg: Config, w: World, e: Event)
    requires Inv(cfg, w, false) && DesksOk(w)
    requires e.EndOfTurn? || e.EagerEndOfTurn? || e.TurnResumed?
    ensures DesksOk(Next(cfg, w, e))
  {
    if Heard(w, e.seat) {
      var x := w.Facing(e.seat);
      FacingKeeps(cfg, false, w, e.seat);
      match e
      case EndOfTurn(_, turn, text, luck) =>
        FinishTurnKeeps(cfg, false, x, turn, text, luck);
        EndedTurnKeepsDesk(cfg, x, turn, text, luck);
      case EagerEndOfTurn(_, turn, text, luck) =>
        PreflightKeeps(cfg, false, x, turn, text, luck);
        GuessKeepsDesk(cfg, x, turn, text, luck);
      case TurnResumed(_, turn) =>
        ResumedTurnGoes(x, turn);
        DropsKeepsDesk(x, DiscardStaged(x, turn), {turn});
    }
  }

  lemma OthersKeepDesks(cfg: Config, w: World, e: Event)
    requires DesksOk(w) && !e.EndOfTurn? && !e.EagerEndOfTurn? && !e.TurnResumed?
    ensures DesksOk(Next(cfg, w, e))
  {
    forall d: Desk, turns | DeskOk(d) ensures DeskOk(DropTurns(d, turns)) {
      DroppedKeepsDesk(d, turns);
    }
  }

  lemma FacingIsBothCovered(cfg: Config, w: World, seat: Seat)
    requires Inv(cfg, w, false) && w.a.Some? && w.b.Some?
    ensures NoneLeftBehind(w) <==> BothCovered(w.Facing(seat))
  {
    assert Flip(w.Facing(A)) == w.Facing(B) && Flip(w.Facing(B)) == w.Facing(A);
  }

  lemma TurnLeavesBehindIff(cfg: Config, w: World, e: Event)
    requires Inv(cfg, w, false) && DesksOk(w) && NoneLeftBehind(w)
    requires e.EndOfTurn? || e.EagerEndOfTurn? || e.TurnResumed?
    ensures NoneLeftBehind(Next(cfg, w, e)) <==> !LeavesBehind(w, e)
  {
    if Heard(w, e.seat) {
      var x := w.Facing(e.seat);
      NextFollows(cfg, false, w, e);
      FacingKeeps(cfg, false, w, e.seat);
      FacingIsBothCovered(cfg, w, e.seat);
      FacingIsBothCovered(cfg, Next(cfg, w, e), e.seat);
      match e
      case EndOfTurn(_, turn, text, luck) =>
        EndedTurnStaysCovered(cfg, x, turn, text, luck);
        assert Next(cfg, w, e).Facing(e.seat) == FinishTurn(cfg, x, turn, text, luck);
      case EagerEndOfTurn(_, turn, text, luck) =>
        GuessingStaysCovered(cfg, x, turn, text, luck);
        assert Next(cfg, w, e).Facing(e.seat) == Preflight(cfg, x, turn, text, luck);
      case TurnResumed(_, turn) =>
        ResumedTurnGoes(x, turn);
        FewerStaysCovered(x, DiscardStaged(x, turn), {turn});
        assert Next(cfg, w, e).Facing(e.seat) == DiscardStaged(x, turn);
    }
  }

  lemma ChangeLeavesNoneBehind(cfg: Config, w: World, e: Event)
    requires Inv(cfg, w, false) && NoneLeftBehind(w) && (e.SetLanguage? || e.SetGender?)
    ensures NoneLeftBehind(Next(cfg, w, e))
  {
    if w.a.Some? && w.b.Some? {
      ChangingDrops(cfg, w, e.seat, e);
      NextFollows(cfg, false, w, e);
      FacingIsBothCovered(cfg, w, e.seat);
      FacingIsBothCovered(cfg, Next(cfg, w, e), e.seat);
      FewerStaysCovered(w.Facing(e.seat), Next(cfg, w, e).Facing(e.seat), if Next(cfg, w, e) == w then {}
        else w.At(e.seat).value.desk.staged.Keys);
    }
  }

  lemma SweptLeavesNoneBehind(cfg: Config, w: World, seat: Seat, cutoff: int)
    requires Inv(cfg, w, false) && NoneLeftBehind(w)
    ensures NoneLeftBehind(Swept(w, seat, cutoff))
  {
    if w.a.Some? && w.b.Some? {
      var x := w.Facing(seat);
      var turns := ExpiredTurns(x.speaker.desk, cutoff);
      SweptKeeps(cfg, false, w, seat, cutoff);
      TurnsGo(x, turns);
      FacingIsBothCovered(cfg, w, seat);
      FacingIsBothCovered(cfg, Swept(w, seat, cutoff), seat);
      FewerStaysCovered(x, DiscardTurns(x, turns), turns);
      assert Swept(w, seat, cutoff).Facing(seat) == DiscardTurns(x, turns);
    }
  }

  /** With nothing of one participant's held for the other, and the rest as it was. */
  lemma OneSideGone(w: World, v: World, seat: Seat)
    requires w.a.Some? && w.b.Some? && NoneLeftBehind(w)
    requires HoldsBut(w.Facing(seat), v.server, w.At(seat).value.desk.staged.Keys)
    requires v.At(Other(seat)) == w.At(Other(seat))
    requires v.At(seat).Some? ==> v.At(seat).value.leg.None? && v.At(seat).value.desk.staged == map[]
    ensures NoneLeftBehind(v)
  {
    var x := w.Facing(seat);
    forall k | k in v.server.staged ensures x.listener.leg != Some(k.0) {
      assert !IsOf(x, x.speaker.desk.staged.Keys, k);
    }
  }

  /** What somebody who loses the leg or leaves had staged is not held for the peer any more. */
  lemma LossLeavesNoneBehind(cfg: Config, w: World, e: Event)
    requires NoneLeftBehind(w) && (e.LegGone? || e.Leave?)
    ensures NoneLeftBehind(Next(cfg, w, e))
  {
    if w.a.Some? && w.b.Some? {
      if e.LegGone? {
        LosingLegDrops(cfg, w, e.seat);
      } else {
        LeavingDrops(cfg, w, e.seat, e.stops);
      }
      OneSideGone(w, Next(cfg, w, e), e.seat);
    } else if w.At(e.seat).Some? {
      LossAloneLeavesNoneBehind(cfg, w, e);
    }
  }

  lemma LossAloneLeavesNoneBehind(cfg: Config, w: World, e: Event)
    requires NoneLeftBehind(w) && (e.LegGone? || e.Leave?) && w.At(e.seat).Some? && w.At(Other(e.seat)).None?
    ensures NoneLeftBehind(Next(cfg, w, e))
  {
  }

  lemma TranscriptLeavesNoneBehind(cfg: Config, w: World, e: Event)
    requires Inv(cfg, w, false) && NoneLeftBehind(w) && e.FinalText?
    ensures NoneLeftBehind(Next(cfg, w, e))
  {
    if Heard(w, e.seat) && !w.At(e.seat).value.turnEvents {
      var x := w.Facing(e.seat);
      var y := SlowPath(cfg, x, Trim(e.text), e.luck);
      SlowPathHolds(cfg, x, Trim(e.text), e.luck);
      FacingKeeps(cfg, false, w, e.seat);
      SlowPathKeeps(cfg, false, x, Trim(e.text), e.luck);
      NextFollows(cfg, false, w, e);
      FacingIsBothCovered(cfg, w, e.seat);
      FacingIsBothCovered(cfg, Next(cfg, w, e), e.seat);
      FewerStaysCovered(x, y, {});
      assert Next(cfg, w, e).Facing(e.seat) == y;
    }
  }

  lemma ReportLeavesNoneBehind(cfg: Config, w: World, e: Event)
    requires NoneLeftBehind(w) && (e.SynthesisReady? || e.PlaybackOver? || e.ServerForgets?)
    ensures NoneLeftBehind(Next(cfg, w, e))
  {
  }

  lemma JoiningLeavesNoneBehind(cfg: Config, w: World, e: Event)
    requires NoneLeftBehind(w) && (e.TranscriberRuns? || e.Join?)
    ensures NoneLeftBehind(Next(cfg, w, e))
  {
  }

  /** A new leg has nothing on it. */
  lemma NewLegLeavesNoneBehind(cfg: Config, w: World, e: Event)
    requires Inv(cfg, w, false) && NoneLeftBehind(w) && e.LegBound?
    ensures NoneLeftBehind(Next(cfg, w, e))
  {
    var v := Next(cfg, w, e);
    if w.At(e.seat).Some? {
      assert v.At(Other(e.seat)) == w.At(Other(e.seat)) && v.server.staged == w.server.staged;
      assert NothingHeld(v.At(e.seat).value, v.server);
    }
  }

  /** An event leaves held audio behind exactly when a commit is refused, or a turn guessed once more. */
  lemma LeavesBehindIff(cfg: Config, w: World, e: Event)
    requires Inv(cfg, w, false) && DesksOk(w) && NoneLeftBehind(w)
    ensures NoneLeftBehind(Next(cfg, w, e)) <==> !LeavesBehind(w, e)
  {
    match e
    case EndOfTurn(_, _, _, _) => TurnLeavesBehindIff(cfg, w, e);
    case EagerEndOfTurn(_, _, _, _) => TurnLeavesBehindIff(cfg, w, e);
    case TurnResumed(_, _) => TurnLeavesBehindIff(cfg, w, e);
    case SetLanguage(_, _) => ChangeLeavesNoneBehind(cfg, w, e);
    case SetGender(_, _) => ChangeLeavesNoneBehind(cfg, w, e);
    case SweepTick(cutoff) =>
      SweptKeeps(cfg, false, w, A, cutoff);
      SweptLeavesNoneBehind(cfg, w, A, cutoff);
      SweptLeavesNoneBehind(cfg, Swept(w, A, cutoff), B, cutoff);
    case LegGone(_) => LossLeavesNoneBehind(cfg, w, e);
    case Leave(_, _) => LossLeavesNoneBehind(cfg, w, e);
    case FinalText(_, _, _) => TranscriptLeavesNoneBehind(cfg, w, e);
    case TranscriberRuns(_, _) => JoiningLeavesNoneBehind(cfg, w, e);
    case LegBound(_) => NewLegLeavesNoneBehind(cfg, w, e);
    case Join(_, _, _) => JoiningLeavesNoneBehind(cfg, w, e);
    case _ => ReportLeavesNoneBehind(cfg, w, e);
  }

  ghost predicate NeverLeavesBehind(cfg: Config, w: World, events: seq<Event>)
    decreases |events|
  {
    events != [] ==> !LeavesBehind(w, events[0]) && NeverLeavesBehind(cfg, Next(cfg, w, events[0]), events[1..])
  }

  lemma {:induction false} RunLeavesNoneBehind(cfg: Config, w: World, events: seq<Event>)
    requires Inv(cfg, w, false) && DesksOk(w) && NoneLeftBehind(w) && NeverLeavesBehind(cfg, w, events)
    ensures NoneLeftBehind(Run(cfg, w, events))
    decreases |events|
  {
    if events != [] {
      var e := events[0];
      LeavesBehindIff(cfg, w, e);
      NextFollows(cfg, false, w, e);
      if e.EndOfTurn? || e.EagerEndOfTurn? || e.TurnResumed? {
        TurnsKeepDesks(cfg, w, e);
      } else {
        OthersKeepDesks(cfg, w, e);
      }
      RunLeavesNoneBehind(cfg, Next(cfg, w, e), events[1..]);
    }
  }

  /** What is held on a participant's leg. */
  ghost function HeldFor(w: World, seat: Seat): set<TtsId> {
    set k | k in w.server.staged && w.At(seat).Some? && w.At(seat).value.leg == Some(k.0) :: k.1
  }

  /** The ids that a desk has staged. */
  ghost function StagedBy(w: World, seat: Seat): set<TtsId> {
    if w.At(seat).Some? then StagedIds(w.At(seat).value.desk) else {}
  }

  lemma {:induction false} IdsAreFew(d: Desk, turns: set<int>)
    requires turns <= d.staged.Keys
    ensures |IdsOf(d, turns)| <= |turns|
    decreases |turns|
  {
    if turns != {} {
      var t := Pick(turns);
      IdsAreFew(d, turns - {t});
      assert IdsOf(d, turns) == IdsOf(d, turns - {t}) + {d.staged[t].ttsID};
    }
  }

  lemma SubsetIsFewer<T>(a: set<T>, b: set<T>)
    requires a <= b
    ensures |a| <= |b|
  {
    assert b == a + (b - a);
  }

  /**
   Over every run in which no such event occurs: all that the server holds on a participant's leg is
   staged by the peer, so there is never more of it than the server has room for.
   */
  lemma HeldIsStaged(cfg: Config, events: seq<Event>, seat: Seat)
    requires NeverLeavesBehind(cfg, EMPTY_WORLD, events)
    ensures var w := Run(cfg, EMPTY_WORLD, events);
      HeldFor(w, seat) <= StagedBy(w, Other(seat)) && |HeldFor(w, seat)| <= STAGED_MAX
  {
    RunLeavesNoneBehind(cfg, EMPTY_WORLD, events);
    var w := Run(cfg, EMPTY_WORLD, events);
    forall id | id in HeldFor(w, seat) ensures id in StagedBy(w, Other(seat)) {
      var k :| k in w.server.staged && w.At(seat).Some? && w.At(seat).value.leg == Some(k.0) && k.1 == id;
    }
    SubsetIsFewer(HeldFor(w, seat), StagedBy(w, Other(seat)));
    if w.At(Other(seat)).Some? {
      var d := w.At(Other(seat)).value.desk;
      IdsAreFew(d, d.staged.Keys);
      assert IdsOf(d, d.staged.Keys) == StagedIds(d);
    }
  }

  /** A guess into the blue: it is held, and nothing is left behind. */
  lemma GuessLeavesNoneBehind(cfg: Config, w: World, turn: int, src: string)
    requires Inv(cfg, w, false) && DesksOk(w) && NoneLeftBehind(w) && Heard(w, A) && w.b.value.leg.Some?
    requires IsTrimmed(src) && w.a.value.desk == EMPTY_DESK && turn >= 0
    ensures var v := Next(cfg, w, EagerEndOfTurn(A, turn, src, LUCKY));
      && Inv(cfg, v, false) && DesksOk(v) && NoneLeftBehind(v) && Heard(v, A)
      && IsHeld(v.b.value, v.a.value, v.server, turn) && v.a.value.desk.staged[turn].src == src
  {
    var guess := EagerEndOfTurn(A, turn, src, LUCKY);
    var evicted := GuessIsStaged(cfg, w.Facing(A), turn, src, LUCKY);
    FacingKeeps(cfg, false, w, A);
    PreflightKeeps(cfg, false, w.Facing(A), turn, src, LUCKY);
    NextFollows(cfg, false, w, guess);
    TurnsKeepDesks(cfg, w, guess);
    LeavesBehindIff(cfg, w, guess);
  }

  /** It happens: the server refuses to play a guess that is ready and right. */
  lemma RefusedCommitIsLeft(cfg: Config, la: Lang, ga: Gender, lb: Lang, gb: Gender, src: string)
    requires IsTrimmed(src)
    ensures !NoneLeftBehind(Run(cfg, EMPTY_WORLD, V.TwoMeet(la, ga, lb, gb)
      + [EagerEndOfTurn(A, 0, src, LUCKY), EndOfTurn(A, 0, src, LUCKY.(commits := false))]))
  {
    var guess, over := EagerEndOfTurn(A, 0, src, LUCKY), EndOfTurn(A, 0, src, LUCKY.(commits := false));
    V.RunAppend(cfg, EMPTY_WORLD, V.TwoMeet(la, ga, lb, gb), [guess, over]);
    V.TwoMeetAreMet(cfg, la, ga, lb, gb);
    var w := V.Met(la, ga, lb, gb);
    V.RunTwo(cfg, w, guess, over);
    GuessLeavesNoneBehind(cfg, w, 0, src);
    LeavesBehindIff(cfg, Next(cfg, w, guess), over);
  }

  // ---------------------------------------------------------------------------
  // A turn that has ended
  // ---------------------------------------------------------------------------

  /** The turn has ended, and nothing is staged for it. */
  predicate HasEnded(p: Part, turn: int) {
    turn <= p.desk.maxDone && turn !in p.desk.staged
  }

  lemma TurnsStayEnded(cfg: Config, w: World, e: Event, seat: Seat, turn: int)
    requires Inv(cfg, w, false) && w.At(seat).Some? && HasEnded(w.At(seat).value, turn)
    requires e.EndOfTurn? || e.EagerEndOfTurn? || e.TurnResumed? || e.FinalText?
    ensures Next(cfg, w, e).At(seat).Some? && HasEnded(Next(cfg, w, e).At(seat).value, turn)
  {
    if Heard(w, e.seat) {
      var x := w.Facing(e.seat);
      FacingKeeps(cfg, false, w, e.seat);
      match e
      case EndOfTurn(_, t, text, luck) =>
        FinishTurnKeeps(cfg, false, x, t, text, luck);
        EndedTurnGoes(cfg, x, t, text, luck);
      case EagerEndOfTurn(_, t, text, luck) =>
        PreflightKeeps(cfg, false, x, t, text, luck);
        GuessingStaysEnded(cfg, x, t, text, luck, turn);
      case TurnResumed(_, t) => ResumedTurnGoes(x, t);
      case FinalText(_, text, luck) =>
        SlowPathHolds(cfg, x, Trim(text), luck);
        SlowPathKeeps(cfg, false, x, Trim(text), luck);
    }
  }

  lemma GuessingStaysEnded(cfg: Config, x: Trio, t: int, text: string, luck: Luck, turn: int)
    ensures HasEnded(x.speaker, turn) ==> HasEnded(Preflight(cfg, x, t, text, luck).speaker, turn)
  {
    if Guessable(x, t, text, luck) {
      var evicted := OldestGoes(x);
    }
  }

  lemma OthersStayEnded(cfg: Config, w: World, e: Event, seat: Seat, turn: int)
    requires w.At(seat).Some? && HasEnded(w.At(seat).value, turn) && !(e.Leave? && e.seat == seat)
    requires !e.EndOfTurn? && !e.EagerEndOfTurn? && !e.TurnResumed? && !e.FinalText?
    ensures Next(cfg, w, e).At(seat).Some? && HasEnded(Next(cfg, w, e).At(seat).value, turn)
  {
  }

  /** As long as the speaker stays, no turn that has ended is ever guessed again. */
  lemma {:induction false} EndedTurnIsNotGuessed(cfg: Config, w: World, events: seq<Event>, seat: Seat, turn: int)
    requires Inv(cfg, w, false) && w.At(seat).Some? && HasEnded(w.At(seat).value, turn)
    requires forall i | 0 <= i < |events| :: !(events[i].Leave? && events[i].seat == seat)
    ensures Run(cfg, w, events).At(seat).Some? && HasEnded(Run(cfg, w, events).At(seat).value, turn)
    decreases |events|
  {
    if events != [] {
      var e := events[0];
      NextFollows(cfg, false, w, e);
      if e.EndOfTurn? || e.EagerEndOfTurn? || e.TurnResumed? || e.FinalText? {
        TurnsStayEnded(cfg, w, e, seat, turn);
      } else {
        OthersStayEnded(cfg, w, e, seat, turn);
      }
      assert forall i | 0 <= i < |events[1..]| :: events[1..][i] == events[i + 1];
      EndedTurnIsNotGuessed(cfg, Next(cfg, w, e), events[1..], seat, turn);
    }
  }
}
