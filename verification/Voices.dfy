/**
 What a listener hears in a session (cmd/interpreter/interpret.go): how often each turn
 is spoken, and when two utterances sound at once. The server mixes whatever plays on
 one leg, and a refused stop is only logged.
 */
module Voices {
  import opened AsciiText
  import opened Options
  import opened Staging
  import opened Speculation
  import opened Transparency

  // ---------------------------------------------------------------------------
  // How often
  // ---------------------------------------------------------------------------

  /**
   What this event may start: one utterance for an accepted turn; a transcript counts only for a
   speaker without turn events.
   */
  function MayStart(w: World, e: Event): nat {
    if Accepted(w, e) && (e.EndOfTurn? || (e.FinalText? && !(w.At(e.seat).Some? && w.At(e.seat).value.turnEvents)))
      then 1 else 0
  }

  ghost function MayStartAlong(cfg: Config, w: World, events: seq<Event>): nat
    decreases |events|
  {
    if events == [] then 0 else MayStart(w, events[0]) + MayStartAlong(cfg, Next(cfg, w, events[0]), events[1..])
  }

  /** `after` continues `before` by at most `n` utterances. */
  predicate GrowsBy(before: seq<Start>, after: seq<Start>, n: nat) {
    before <= after && |after| <= |before| + n
  }

  lemma SlowPathStarts(cfg: Config, x: Trio, final: string, luck: Luck)
    ensures GrowsBy(x.server.started, SlowPath(cfg, x, final, luck).server.started, if luck.translates && luck.accepts
      then 1 else 0)
  {
  }

  lemma FinishTurnStarts(cfg: Config, x: Trio, turn: int, text: string, luck: Luck)
    ensures GrowsBy(x.server.started, FinishTurn(cfg, x, turn, text, luck).server.started,
                    if (luck.translates && luck.accepts) || Commits(x, turn, text, luck) then 1 else 0)
  {
    var marked := x.(speaker := x.speaker.(desk := FinishMark(x.speaker.desk, turn)));
    var (y, taken) := TakeFrom(marked, turn);
    if taken.None? {
      SlowPathStarts(cfg, y, Trim(text), luck);
    } else {
      FinishTakenStarts(cfg, y, taken.value, Trim(text), luck);
    }
  }

  /** The taken entry is committed, and then the slow path does not run, or it is not. */
  lemma FinishTakenStarts(cfg: Config, y: Trio, st: Staged, final: string, luck: Luck)
    ensures GrowsBy(y.server.started, FinishTaken(cfg, y, st, final, luck).server.started,
                    if (luck.translates && luck.accepts)
                       || (y.listener.leg.Some? && st.src == final && Ready(y, st, luck)
                           && CommitAccepted(y.server, y.listener.leg.value, st.ttsID, luck.commits)) then 1 else 0)
  {
    if y.listener.leg.Some? {
      if st.src == final {
        var (z, committed) := CommitStaged(y, st, luck);
        if !committed {
          SlowPathStarts(cfg, z, final, luck);
        }
      } else {
        SlowPathStarts(cfg, y.(server := DiscardID(y.server, y.listener.leg, st.ttsID)), final, luck);
      }
    }
  }

  lemma TurnsStart(cfg: Config, w: World, e: Event)
    requires e.EndOfTurn? || e.FinalText?
    ensures GrowsBy(w.server.started, Next(cfg, w, e).server.started, MayStart(w, e))
  {
    if Heard(w, e.seat) {
      if e.EndOfTurn? {
        FinishTurnStarts(cfg, w.Facing(e.seat), e.turn, e.text, e.luck);
      } else {
        SlowPathStarts(cfg, w.Facing(e.seat), Trim(e.text), e.luck);
      }
    }
  }

  lemma PreflightStartsNothing(cfg: Config, x: Trio, turn: int, text: string, luck: Luck)
    ensures Preflight(cfg, x, turn, text, luck).server.started == x.server.started
  {
  }

  lemma OthersStartNothing(cfg: Config, w: World, e: Event)
    requires !e.EndOfTurn? && !e.FinalText?
    ensures Next(cfg, w, e).server.started == w.server.started
  {
    if e.EagerEndOfTurn? && Heard(w, e.seat) {
      PreflightStartsNothing(cfg, w.Facing(e.seat), e.turn, e.text, e.luck);
    }
  }

  /**
   No turn is spoken twice: over every run, the utterances started are at most the
   accepted reports of a turn, where the final transcript of a speaker whose transcriber
   has turn events is no such report.
   */
  lemma {:induction false} TurnIsSpokenOnce(cfg: Config, w: World, events: seq<Event>)
    ensures GrowsBy(w.server.started, Run(cfg, w, events).server.started, MayStartAlong(cfg, w, events))
    decreases |events|
  {
    if events != [] {
      var e := events[0];
      TurnIsSpokenOnce(cfg, Next(cfg, w, e), events[1..]);
      if e.EndOfTurn? || e.FinalText? {
        TurnsStart(cfg, w, e);
      } else {
        OthersStartNothing(cfg, w, e);
      }
    }
  }

  // ---------------------------------------------------------------------------
  // One at a time
  // ---------------------------------------------------------------------------

  predicate Plays(w: World, seat: Seat, id: TtsId) {
    w.At(seat).Some? && w.At(seat).value.leg.Some? && (w.At(seat).value.leg.value, id) in w.server.playing
  }

  /** Two utterances sound at once for the participant in this seat. */
  ghost predicate Overlap(w: World, seat: Seat) {
    exists i: TtsId, j: TtsId :: i != j && Plays(w, seat, i) && Plays(w, seat, j)
  }

  /** The server refused to stop this utterance on the participant's leg. */
  predicate Unstopped(w: World, seat: Seat, id: TtsId) {
    w.At(seat).Some? && w.At(seat).value.leg.Some? && (w.At(seat).value.leg.value, id) in w.server.unstopped
  }

  /**
   In every run, whatever the languages do: what plays on a participant's leg is in flight, or the
   server refused to stop it.
   */
  lemma VoicesAreAccountedFor(cfg: Config, events: seq<Event>, seat: Seat, id: TtsId)
    requires Plays(Run(cfg, EMPTY_WORLD, events), seat, id)
    ensures var w := Run(cfg, EMPTY_WORLD, events); w.At(seat).value.inflight == Some(id) || Unstopped(w, seat, id)
  {
    Transparency.RunKeeps(cfg, EMPTY_WORLD, events);
  }

  /**
   So two sound at once exactly when one that the server refused to stop has not ended by itself
   while another plays.
   */
  lemma OverlapIffUnstopped(cfg: Config, events: seq<Event>, seat: Seat)
    ensures var w := Run(cfg, EMPTY_WORLD, events);
      Overlap(w, seat) <==> exists i: TtsId, j: TtsId ::
        i != j && Plays(w, seat, i) && Unstopped(w, seat, i) && Plays(w, seat, j)
  {
    var w := Run(cfg, EMPTY_WORLD, events);
    if Overlap(w, seat) {
      var i: TtsId, j: TtsId :| i != j && Plays(w, seat, i) && Plays(w, seat, j);
      VoicesAreAccountedFor(cfg, events, seat, i);
      VoicesAreAccountedFor(cfg, events, seat, j);
      assert Unstopped(w, seat, i) || Unstopped(w, seat, j);
    }
  }

  /** The server does what it is told: no stop is refused in this event. */
  predicate StopsWork(e: Event) {
    match e
    case EndOfTurn(_, _, _, luck) => luck.stops
    case FinalText(_, _, luck) => luck.stops
    case Leave(_, stops) => stops
    case _ => true
  }

  lemma FinishTurnStops(cfg: Config, x: Trio, turn: int, text: string, luck: Luck)
    requires luck.stops
    ensures FinishTurn(cfg, x, turn, text, luck).server.unstopped == x.server.unstopped
  {
  }

  lemma TurnsStop(cfg: Config, w: World, e: Event)
    requires StopsWork(e) && (e.EndOfTurn? || e.FinalText?)
    ensures Next(cfg, w, e).server.unstopped == w.server.unstopped
  {
    if e.EndOfTurn? && Heard(w, e.seat) {
      FinishTurnStops(cfg, w.Facing(e.seat), e.turn, e.text, e.luck);
    }
  }

  lemma OthersStop(cfg: Config, w: World, e: Event)
    requires StopsWork(e) && !e.EndOfTurn? && !e.FinalText?
    ensures Next(cfg, w, e).server.unstopped == w.server.unstopped
  {
  }

  lemma {:induction false} RunStops(cfg: Config, w: World, events: seq<Event>)
    requires forall i | 0 <= i < |events| :: StopsWork(events[i])
    ensures Run(cfg, w, events).server.unstopped == w.server.unstopped
    decreases |events|
  {
    if events != [] {
      var e := events[0];
      if e.EndOfTurn? || e.FinalText? {
        TurnsStop(cfg, w, e);
      } else {
        OthersStop(cfg, w, e);
      }
      assert forall i | 0 <= i < |events[1..]| :: events[1..][i] == events[i + 1];
      RunStops(cfg, Next(cfg, w, e), events[1..]);
    }
  }

  /** As long as no stop is refused, at most one utterance plays on a participant's leg: the in-flight one. */
  lemma NeverTwoVoices(cfg: Config, events: seq<Event>, seat: Seat)
    requires forall i | 0 <= i < |events| :: StopsWork(events[i])
    ensures var w := Run(cfg, EMPTY_WORLD, events);
      !Overlap(w, seat) && forall id: TtsId | Plays(w, seat, id) :: w.At(seat).value.inflight == Some(id)
  {
    RunStops(cfg, EMPTY_WORLD, events);
    OverlapIffUnstopped(cfg, events, seat);
    forall id: TtsId | Plays(Run(cfg, EMPTY_WORLD, events), seat, id)
      ensures Run(cfg, EMPTY_WORLD, events).At(seat).value.inflight == Some(id)
    {
      VoicesAreAccountedFor(cfg, events, seat, id);
    }
  }

  // ---------------------------------------------------------------------------
  // When an utterance starts over another
  // ---------------------------------------------------------------------------

  /** What still plays once the in-flight utterance has been told to stop. */
  function Remaining(x: Trio, stops: bool): set<(LegId, TtsId)> {
    if x.listener.leg.Some? && x.listener.inflight.Some? && stops
    then x.server.playing - {(x.listener.leg.value, x.listener.inflight.value)}
    else x.server.playing
  }

  /** Exactly one new utterance plays on the listener's leg, beside what remains. */
  ghost predicate OneMorePlays(x: Trio, y: Trio, stops: bool) {
    x.listener.leg.Some? && exists id: TtsId :: AlsoPlays(x, y, stops, id)
  }

  predicate AlsoPlays(x: Trio, y: Trio, stops: bool, id: TtsId)
    requires x.listener.leg.Some?
  {
    var k := (x.listener.leg.value, id);
    k !in x.server.playing && y.server.playing == Remaining(x, stops) + {k}
  }

  lemma SlowPathPlays(cfg: Config, x: Trio, final: string, luck: Luck)
    requires SlowPath(cfg, x, final, luck).server.started != x.server.started
    ensures x.listener.leg.Some?
    ensures SlowPath(cfg, x, final, luck).server.playing ==
      Remaining(x, luck.stops) + {(x.listener.leg.value, x.server.nextTts)}
  {
  }

  lemma CommitPlays(x: Trio, st: Staged, luck: Luck)
    requires ServerIssued(x.server) && x.listener.leg.Some?
    ensures var (y, committed) := CommitStaged(x, st, luck);
      if committed then AlsoPlays(x, y, luck.stops, st.ttsID)
      else
        && y.server.started == x.server.started && y.server.nextTts == x.server.nextTts
        && y.listener.leg == x.listener.leg
        && Remaining(y, luck.stops) == Remaining(x, luck.stops)
  {
  }

  lemma FinishTakenPlays(cfg: Config, y: Trio, st: Staged, final: string, luck: Luck)
    requires ServerIssued(y.server) && FinishTaken(cfg, y, st, final, luck).server.started != y.server.started
    ensures OneMorePlays(y, FinishTaken(cfg, y, st, final, luck), luck.stops)
  {
    var z := FinishTaken(cfg, y, st, final, luck);
    if st.src == final {
      CommitPlays(y, st, luck);
      var (c, committed) := CommitStaged(y, st, luck);
      if committed {
        assert AlsoPlays(y, z, luck.stops, st.ttsID);
      } else {
        SlowPathPlays(cfg, c, final, luck);
        assert AlsoPlays(y, z, luck.stops, y.server.nextTts);
      }
    } else {
      var c := y.(server := DiscardID(y.server, y.listener.leg, st.ttsID));
      SlowPathPlays(cfg, c, final, luck);
      assert AlsoPlays(y, z, luck.stops, y.server.nextTts);
    }
  }

  /** Whichever way a turn is spoken, one utterance is added to what remains. */
  lemma FinishTurnPlays(cfg: Config, x: Trio, turn: int, text: string, luck: Luck)
    requires ServerIssued(x.server) && FinishTurn(cfg, x, turn, text, luck).server.started != x.server.started
    ensures OneMorePlays(x, FinishTurn(cfg, x, turn, text, luck), luck.stops)
  {
    var marked := x.(speaker := x.speaker.(desk := FinishMark(x.speaker.desk, turn)));
    var (y, taken) := TakeFrom(marked, turn);
    if taken.None? {
      SlowPathPlays(cfg, y, Trim(text), luck);
      assert AlsoPlays(x, FinishTurn(cfg, x, turn, text, luck), luck.stops, x.server.nextTts);
    } else {
      FinishTakenPlays(cfg, y, taken.value, Trim(text), luck);
      var z := FinishTaken(cfg, y, taken.value, Trim(text), luck);
      var id: TtsId :| AlsoPlays(y, z, luck.stops, id);
      assert AlsoPlays(x, FinishTurn(cfg, x, turn, text, luck), luck.stops, id);
    }
  }

  /** Nothing plays on the participant's leg but the in-flight utterance, if that. */
  ghost predicate OnlyInflight(w: World, seat: Seat) {
    forall id: TtsId | Plays(w, seat, id) :: w.At(seat).value.inflight == Some(id)
  }

  lemma TurnPlays(cfg: Config, w: World, e: Event)
    requires Inv(cfg, w, false) && (e.EndOfTurn? || e.FinalText?) && Next(cfg, w, e).server.started != w.server.started
    ensures Heard(w, e.seat)
    ensures OneMorePlays(w.Facing(e.seat), Next(cfg, w, e).Facing(e.seat), e.luck.stops)
    ensures Next(cfg, w, e).Facing(e.seat).listener.leg == w.Facing(e.seat).listener.leg
  {
    var x := w.Facing(e.seat);
    if e.EndOfTurn? {
      FinishTurnPlays(cfg, x, e.turn, e.text, e.luck);
      FacingKeeps(cfg, false, w, e.seat);
      FinishTurnKeeps(cfg, false, x, e.turn, e.text, e.luck);
    } else {
      SlowPathPlays(cfg, x, Trim(e.text), e.luck);
      assert AlsoPlays(x, SlowPath(cfg, x, Trim(e.text), e.luck), e.luck.stops, x.server.nextTts);
    }
  }

  /**
   An utterance that starts for a listener sounds over another exactly when the one in
   flight still played and the server refused to stop it.
   */
  lemma OverlapsIffStopRefused(cfg: Config, w: World, e: Event)
    requires Inv(cfg, w, false) && (e.EndOfTurn? || e.FinalText?) && OnlyInflight(w, Other(e.seat))
    requires Next(cfg, w, e).server.started != w.server.started
    ensures Heard(w, e.seat)
    ensures var ls := w.At(Other(e.seat)).value;
      var refused := ls.inflight.Some? && Plays(w, Other(e.seat), ls.inflight.value) && !e.luck.stops;
      Overlap(Next(cfg, w, e), Other(e.seat)) <==> refused
  {
    TurnPlays(cfg, w, e);
    var v, seat := Next(cfg, w, e), Other(e.seat);
    var x, y := w.Facing(e.seat), v.Facing(e.seat);
    var id: TtsId :| AlsoPlays(x, y, e.luck.stops, id);
    assert Plays(v, seat, id);
    if x.listener.inflight.Some? && Plays(w, seat, x.listener.inflight.value) && !e.luck.stops {
      assert Plays(v, seat, x.listener.inflight.value) && id != x.listener.inflight.value;
    } else {
      forall i: TtsId | Plays(v, seat, i) ensures i == id {
        if i != id {
          assert Plays(w, seat, i);
        }
      }
    }
  }

  // ---------------------------------------------------------------------------
  // Runs in which it happens
  // ---------------------------------------------------------------------------

  /** Two join, and the media of both comes up. */
  function TwoMeet(la: Lang, ga: Gender, lb: Lang, gb: Gender): seq<Event> {
    [Join(A, la, ga), Join(B, lb, gb), LegBound(A), LegBound(B)]
  }

  function Met(la: Lang, ga: Gender, lb: Lang, gb: Gender): World {
    World(Some(Part(la, ga, Some(0), false, None, EMPTY_DESK)), Some(Part(lb, gb, Some(1), false, None, EMPTY_DESK)),
          EMPTY_SERVER.(nextLeg := 2))
  }

  lemma {:induction false} RunAppend(cfg: Config, w: World, before: seq<Event>, after: seq<Event>)
    ensures Run(cfg, w, before + after) == Run(cfg, Run(cfg, w, before), after)
    decreases |before|
  {
    if before == [] {
      assert before + after == after;
    } else {
      assert (before + after)[0] == before[0] && (before + after)[1..] == before[1..] + after;
      RunAppend(cfg, Next(cfg, w, before[0]), before[1..], after);
    }
  }

  lemma RunOne(cfg: Config, w: World, e: Event)
    ensures Run(cfg, w, [e]) == Next(cfg, w, e)
  {
    assert [e][1..] == [];
  }

  lemma RunTwo(cfg: Config, w: World, e: Event, f: Event)
    ensures Run(cfg, w, [e, f]) == Next(cfg, Next(cfg, w, e), f)
  {
    assert [e, f] == [e] + [f];
    RunAppend(cfg, w, [e], [f]);
    RunOne(cfg, w, e);
    RunOne(cfg, Next(cfg, w, e), f);
  }

  lemma TwoMeetAreMet(cfg: Config, la: Lang, ga: Gender, lb: Lang, gb: Gender)
    ensures Run(cfg, EMPTY_WORLD, TwoMeet(la, ga, lb, gb)) == Met(la, ga, lb, gb)
  {
    var joined := World(Some(Part(la, ga, None, false, None, EMPTY_DESK)),
      Some(Part(lb, gb, None, false, None, EMPTY_DESK)), EMPTY_SERVER);
    assert TwoMeet(la, ga, lb, gb) == [Join(A, la, ga), Join(B, lb, gb)] + [LegBound(A), LegBound(B)];
    RunAppend(cfg, EMPTY_WORLD, [Join(A, la, ga), Join(B, lb, gb)], [LegBound(A), LegBound(B)]);
    RunTwo(cfg, EMPTY_WORLD, Join(A, la, ga), Join(B, lb, gb));
    assert Next(cfg, Next(cfg, EMPTY_WORLD, Join(A, la, ga)), Join(B, lb, gb)) == joined;
    RunTwo(cfg, joined, LegBound(A), LegBound(B));
  }

  /**
   A guess is made about what the first one says: its audio is then held for the second, whose
   language may not change.
   */
  lemma GuessIsHeld(cfg: Config, la: Lang, ga: Gender, lb: Lang, gb: Gender, src: string, code: Lang)
    requires IsTrimmed(src) && code in cfg.languages && code != lb &&
      cfg.translate(src, la, code) != cfg.translate(src, la, lb)
    ensures var w := Run(cfg, EMPTY_WORLD, TwoMeet(la, ga, lb, gb) + [EagerEndOfTurn(A, 0, src, LUCKY)]);
      && w.a.Some? && w.b.Some? && IsHeld(w.b.value, w.a.value, w.server, 0)
      && !StaysTransparent(cfg, Next(cfg, w, SetLanguage(B, code)))
  {
    var meet, guess := TwoMeet(la, ga, lb, gb), EagerEndOfTurn(A, 0, src, LUCKY);
    RunAppend(cfg, EMPTY_WORLD, meet, [guess]);
    TwoMeetAreMet(cfg, la, ga, lb, gb);
    var w := Met(la, ga, lb, gb);
    RunOne(cfg, w, guess);
    NextFollows(cfg, true, w, guess);
    ListenerLanguageChange(cfg, Next(cfg, w, guess), B, code);
    var v := Next(cfg, w, guess);
    assert IsHeld(v.b.value, v.a.value, v.server, 0);
  }

  /** One turn is spoken, and before it has been heard out another: the server refuses to stop the first. */
  lemma RefusedStopOverlaps(cfg: Config, la: Lang, ga: Gender, lb: Lang, gb: Gender, one: string, two: string)
    requires IsTrimmed(one) && IsTrimmed(two)
    ensures Overlap(Run(cfg, EMPTY_WORLD, TwoMeet(la, ga, lb, gb)
      + [EndOfTurn(A, 0, one, LUCKY), EndOfTurn(A, 1, two, LUCKY.(stops := false))]), B)
  {
    var first, second := EndOfTurn(A, 0, one, LUCKY), EndOfTurn(A, 1, two, LUCKY.(stops := false));
    RunAppend(cfg, EMPTY_WORLD, TwoMeet(la, ga, lb, gb), [first, second]);
    TwoMeetAreMet(cfg, la, ga, lb, gb);
    var w := Met(la, ga, lb, gb);
    RunTwo(cfg, w, first, second);
    var v := Next(cfg, w, first);
    assert v.server.playing == {(1, 0)} && v.b.value.inflight == Some(0);
    NextFollows(cfg, false, w, first);
    assert Next(cfg, v, second).server.started != v.server.started;
    OverlapsIffStopRefused(cfg, v, second);
  }
}
