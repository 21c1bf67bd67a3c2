/**
 The speculative turn engine in its own form (cmd/interpreter/interpret.go,
 session.go): participants and the media server are objects, and each handler is
 proved to do what Speculation says it does.
 */
module Interpreter {
  import opened AsciiText
  import opened Options
  import opened Staging
  import opened Speculation
  import opened Transparency

  /** One side of a session. */
  class Participant {
    var lang: Lang
    var gender: Gender
    var legID: Option<LegId>
    var turnEvents: bool
    var inflight: Option<TtsId>
    var staged: map<int, Staged>
    var stagedByID: map<TtsId, Staged>
    var ready: set<TtsId>
    var pending: set<int>
    var maxDone: int

    ghost function Desk(): Desk
      reads this
    {
      Staging.Desk(staged, stagedByID, ready, pending, maxDone)
    }

    ghost function View(): Part
      reads this
    {
      Part(lang, gender, legID, turnEvents, inflight, Desk())
    }

    /** Each utterance is staged for one turn, and indexed under its own id. */
    ghost predicate Valid()
      reads this
    {
      DeskOk(Desk())
    }

    constructor (lang: Lang, gender: Gender)
      ensures View() == Part(lang, gender, None, false, None, EMPTY_DESK)
      ensures Valid()
    {
      this.lang, this.gender, this.legID, this.turnEvents, this.inflight := lang, gender, None, false, None;
      staged, stagedByID, ready, pending, maxDone := map[], map[], {}, {}, -1;
    }

    method PutStaged(turn: int, st: Staged)
      requires Valid() && st.ttsID !in StagedIds(Desk())
      modifies this
      ensures View() == old(View()).(desk := Put(old(Desk()), turn, st))
      ensures Valid()
    {
      Staging.PutKeeps(Desk(), turn, st);
      staged := staged[turn := st];
      stagedByID := stagedByID[st.ttsID := st];
    }

    method TakeStaged(turn: int) returns (st: Option<Staged>)
      requires Valid()
      modifies this
      ensures st == Take(old(Desk()), turn).1
      ensures st.Some? ==> st.value.ttsID !in StagedIds(Desk())
      ensures View() == old(View()).(desk := Take(old(Desk()), turn).0)
      ensures Valid()
    {
      TakeKeeps(Desk(), turn);
      st := if turn in staged then Some(staged[turn]) else None;
      staged := staged - {turn};
    }

    method ReleaseStaged(st: Staged)
      requires Valid() && st.ttsID !in StagedIds(Desk())
      modifies this
      ensures View() == old(View()).(desk := Release(old(Desk()), st.ttsID))
      ensures Valid()
    {
      ReleaseKeeps(Desk(), st.ttsID);
      stagedByID := stagedByID - {st.ttsID};
    }

    /** Removes the utterances of these turns, one by one, and hands back their ids. */
    method DropStaged(turns: set<int>) returns (ids: set<TtsId>)
      requires Valid()
      modifies this
      ensures ids == IdsOf(old(Desk()), turns)
      ensures View() == old(View()).(desk := DropTurns(old(Desk()), turns))
      ensures Valid()
    {
      ids := {};
      var left := turns * staged.Keys;
      ghost var before := View();
      while left != {}
        invariant left <= turns * before.desk.staged.Keys
        invariant ids == IdsOf(before.desk, turns - left)
        invariant View() == before.(desk := DropTurns(before.desk, turns - left))
        decreases left
      {
        ghost var done := turns - left;
        ghost var some := Pick(left);
        var turn :| turn in left;
        var st := staged[turn];
        left := left - {turn};
        OneMoreTurn(before.desk, done, turn);
        assert turns - left == done + {turn};
        ids := ids + {st.ttsID};
        staged := staged - {turn};
        stagedByID := stagedByID - {st.ttsID};
      }
      assert IdsOf(before.desk, turns - left) == IdsOf(before.desk, turns);
      DropTurnsKeeps(before.desk, turns);
    }

    method MarkStagedReady(ttsID: TtsId) returns (woke: bool)
      requires Valid()
      modifies this
      ensures woke == (ttsID in old(stagedByID) && ttsID !in old(ready))
      ensures View() == old(View()).(desk := MarkReady(old(Desk()), ttsID))
      ensures Valid()
    {
      if ttsID !in stagedByID || ttsID in ready {
        return false;
      }
      ready := ready + {ttsID};
      return true;
    }

    method MarkDone(turn: int)
      requires Valid()
      modifies this
      ensures View() == old(View()).(desk := FinishMark(old(Desk()), turn))
      ensures Valid()
    {
      if turn > maxDone {
        maxDone := turn;
      }
    }
  }

  lemma OneMoreTurn(d: Desk, done: set<int>, turn: int)
    requires turn in d.staged
    ensures IdsOf(d, done + {turn}) == IdsOf(d, done) + {d.staged[turn].ttsID}
    ensures DropTurns(d, done + {turn}).staged == DropTurns(d, done).staged - {turn}
    ensures DropTurns(d, done + {turn}).stagedByID == DropTurns(d, done).stagedByID - {d.staged[turn].ttsID}
  {
  }

  /** The media server, as the commands of this program see it. */
  class MediaServer {
    var staged: map<(LegId, TtsId), Utterance>
    var playing: set<(LegId, TtsId)>
    var nextTts: TtsId
    var nextLeg: LegId
    var started: seq<Start>
    ghost var unstopped: set<(LegId, TtsId)>

    ghost function View(): Server
      reads this
    {
      Server(staged, playing, nextTts, nextLeg, started, unstopped)
    }

    constructor ()
      ensures View() == Server(map[], {}, 0, 0, [], {})
    {
      staged, playing, nextTts, nextLeg, started, unstopped := map[], {}, 0, 0, [], {};
    }

    method LegTTSDiscard(leg: LegId, id: TtsId)
      modifies this
      ensures View() == DiscardID(old(View()), Some(leg), id)
    {
      staged := staged - {(leg, id)};
    }

    method LegTTSCommit(leg: LegId, id: TtsId, willing: bool) returns (ok: bool)
      modifies this
      ensures ok == CommitAccepted(old(View()), leg, id, willing)
      ensures View() == if ok then CommitID(old(View()), leg, id) else old(View())
    {
      ok := willing && (leg, id) in staged;
      if ok {
        started := started + [Start(leg, staged[(leg, id)])];
        staged, playing := staged - {(leg, id)}, playing + {(leg, id)};
      }
    }

    method LegTTSPreflight(leg: LegId, what: Utterance) returns (id: TtsId)
      modifies this
      ensures id == old(View()).nextTts && View() == StageID(old(View()), leg, what)
    {
      id := nextTts;
      staged, nextTts := staged[(leg, id) := what], nextTts + 1;
    }

    method LegTTS(leg: LegId, what: Utterance) returns (id: TtsId)
      modifies this
      ensures id == old(View()).nextTts && View() == SpeakNow(old(View()), leg, what)
    {
      id := nextTts;
      playing, nextTts, started := playing + {(leg, id)}, nextTts + 1, started + [Start(leg, what)];
    }

    method LegPlayStop(leg: LegId, id: TtsId, stops: bool)
      modifies this
      ensures View() == StopPlay(old(View()), leg, id, stops)
    {
      if (leg, id) in playing {
        if stops {
          playing := playing - {(leg, id)};
        } else {
          unstopped := unstopped + {(leg, id)};
        }
      }
    }
  }

  ghost function ViewOf(speaker: Participant, listener: Participant, server: MediaServer): Trio
    reads speaker, listener, server
  {
    Trio(speaker.View(), listener.View(), server.View())
  }

  /** The handlers for one speaker and one listener. */
  class Engine {
    const cfg: Config
    const server: MediaServer

    constructor (cfg: Config, server: MediaServer)
      ensures this.cfg == cfg && this.server == server
    {
      this.cfg, this.server := cfg, server;
    }

    /** Both desks are in order, and what is staged or plays has its id from the server and is accounted for. */
    ghost predicate Valid(speaker: Participant, listener: Participant)
      reads speaker, listener, server
    {
      && speaker != listener && speaker.Valid() && listener.Valid()
      && TrioInv(cfg, ViewOf(speaker, listener, server), false)
    }

    /**
     What the server holds for either is the translation of its source in the languages and the voice
     of now: so long as no listener changes language with audio held for it.
     */
    ghost predicate HoldsTranslations(speaker: Participant, listener: Participant)
      reads speaker, listener, server
    {
      TrioInv(cfg, ViewOf(speaker, listener, server), true)
    }

    method DiscardID(speaker: Participant, listener: Participant, id: TtsId)
      requires Valid(speaker, listener)
      modifies server
      ensures server.View() == Speculation.DiscardID(old(server.View()), listener.legID, id)
      ensures Valid(speaker, listener)
      ensures old(HoldsTranslations(speaker, listener)) ==> HoldsTranslations(speaker, listener)
    {
      DiscardIDKeeps(cfg, HoldsTranslations(speaker, listener), ViewOf(speaker, listener, server), id);
      if listener.legID.Some? {
        server.LegTTSDiscard(listener.legID.value, id);
      }
    }

    method StopInflight(speaker: Participant, listener: Participant, stops: bool)
      requires Valid(speaker, listener)
      modifies listener, server
      ensures ViewOf(speaker, listener, server) ==
        Speculation.StopInflight(old(ViewOf(speaker, listener, server)), stops)
      ensures Valid(speaker, listener)
      ensures old(HoldsTranslations(speaker, listener)) ==> HoldsTranslations(speaker, listener)
    {
      StopInflightKeeps(cfg, HoldsTranslations(speaker, listener), ViewOf(speaker, listener, server), stops);
      var id := listener.inflight;
      listener.inflight := None;
      if id.None? || listener.legID.None? {
        return;
      }
      server.LegPlayStop(listener.legID.value, id.value, stops);
    }

    /** The plain path: translate now, synthesize now, play now. */
    method TranslateAndSpeak(speaker: Participant, listener: Participant, text: string, luck: Luck)
      requires Valid(speaker, listener) && text != ""
      modifies listener, server
      ensures ViewOf(speaker, listener, server)
        == Speculation.TranslateAndSpeak(cfg, old(ViewOf(speaker, listener, server)), text, luck)
      ensures Valid(speaker, listener)
      ensures old(HoldsTranslations(speaker, listener)) ==> HoldsTranslations(speaker, listener)
    {
      TranslateAndSpeakKeeps(cfg, HoldsTranslations(speaker, listener), ViewOf(speaker, listener, server), text, luck);
      if !luck.translates || listener.legID.None? {
        return;
      }
      var translated := cfg.translate(text, speaker.lang, listener.lang);
      StopInflight(speaker, listener, luck.stops);
      if !luck.accepts {
        return;
      }
      var id := server.LegTTS(listener.legID.value, Utterance(translated, cfg.voice(speaker.gender)));
      listener.inflight := Some(id);
    }

    method CommitStaged(speaker: Participant, listener: Participant, st: Staged, luck: Luck) returns (committed: bool)
      requires Valid(speaker, listener) && listener.legID.Some?
      modifies listener, server
      ensures ViewOf(speaker, listener, server) ==
        Speculation.CommitStaged(old(ViewOf(speaker, listener, server)), st, luck).0
      ensures committed == Speculation.CommitStaged(old(ViewOf(speaker, listener, server)), st, luck).1
      ensures Valid(speaker, listener)
      ensures old(HoldsTranslations(speaker, listener)) ==> HoldsTranslations(speaker, listener)
    {
      CommitStagedKeeps(cfg, HoldsTranslations(speaker, listener), ViewOf(speaker, listener, server), st, luck);
      if st.ttsID !in speaker.ready && !luck.readyInTime {
        DiscardID(speaker, listener, st.ttsID);
        return false;
      }
      committed := CommitReady(speaker, listener, st, luck);
    }

    /** One voice at a time: what plays is stopped before the commit. */
    method CommitReady(speaker: Participant, listener: Participant, st: Staged, luck: Luck) returns (committed: bool)
      requires Valid(speaker, listener) && listener.legID.Some? && (st.ttsID in speaker.ready || luck.readyInTime)
      modifies listener, server
      ensures ViewOf(speaker, listener, server) ==
        Speculation.CommitStaged(old(ViewOf(speaker, listener, server)), st, luck).0
      ensures committed == Speculation.CommitStaged(old(ViewOf(speaker, listener, server)), st, luck).1
      ensures Valid(speaker, listener)
      ensures old(HoldsTranslations(speaker, listener)) ==> HoldsTranslations(speaker, listener)
    {
      ghost var x := ViewOf(speaker, listener, server);
      CommitStagedKeeps(cfg, HoldsTranslations(speaker, listener), x, st, luck);
      StopInflight(speaker, listener, luck.stops);
      assert ViewOf(speaker, listener, server) == Speculation.StopInflight(x, luck.stops);
      committed := server.LegTTSCommit(listener.legID.value, st.ttsID, luck.commits);
      if committed {
        listener.inflight := Some(st.ttsID);
      }
    }

    /** The end of a turn: the staged audio if it is still what was said, otherwise translate for real. */
    method FinishTurn(speaker: Participant, listener: Participant, turn: int, text: string, luck: Luck)
      requires Valid(speaker, listener)
      modifies speaker, listener, server
      ensures ViewOf(speaker, listener, server)
        == Speculation.FinishTurn(cfg, old(ViewOf(speaker, listener, server)), turn, text, luck)
      ensures Valid(speaker, listener)
      ensures old(HoldsTranslations(speaker, listener)) ==> HoldsTranslations(speaker, listener)
    {
      ghost var x := ViewOf(speaker, listener, server);
      FinishTurnKeeps(cfg, HoldsTranslations(speaker, listener), x, turn, text, luck);
      TakenIsFaithful(cfg, HoldsTranslations(speaker, listener), x, turn);
      var final := Trim(text);
      speaker.MarkDone(turn);
      var st := speaker.TakeStaged(turn);
      if st.None? {
        SlowPath(speaker, listener, final, luck);
      } else {
        FinishTaken(speaker, listener, st.value, final, luck);
        speaker.ReleaseStaged(st.value);
      }
    }

    method SlowPath(speaker: Participant, listener: Participant, final: string, luck: Luck)
      requires Valid(speaker, listener)
      modifies listener, server
      ensures ViewOf(speaker, listener, server)
        == Speculation.SlowPath(cfg, old(ViewOf(speaker, listener, server)), final, luck)
      ensures Valid(speaker, listener)
      ensures old(HoldsTranslations(speaker, listener)) ==> HoldsTranslations(speaker, listener)
    {
      if listener.legID.None? || final == "" {
        return;
      }
      TranslateAndSpeak(speaker, listener, final, luck);
    }

    /** An entry that was taken, and is held, if at all, as the translation of its source. */
    method FinishTaken(speaker: Participant, listener: Participant, st: Staged, final: string, luck: Luck)
      requires Valid(speaker, listener) && IsTrimmed(st.src)
      modifies listener, server
      ensures ViewOf(speaker, listener, server)
        == Speculation.FinishTaken(cfg, old(ViewOf(speaker, listener, server)), st, final, luck)
      ensures Valid(speaker, listener)
      ensures old(HoldsTranslations(speaker, listener)) ==> HoldsTranslations(speaker, listener)
    {
      if listener.legID.None? {
        return;
      }
      if st.src == final {
        var committed := CommitStaged(speaker, listener, st, luck);
        if committed {
          return;
        }
      } else {
        DiscardID(speaker, listener, st.ttsID);
      }
      SlowPath(speaker, listener, final, luck);
    }

    /** The speaker carried on: throw the audio away. */
    method DiscardStaged(speaker: Participant, listener: Participant, turn: int)
      requires Valid(speaker, listener)
      modifies speaker, server
      ensures ViewOf(speaker, listener, server) ==
        Speculation.DiscardStaged(old(ViewOf(speaker, listener, server)), turn)
      ensures Valid(speaker, listener)
      ensures old(HoldsTranslations(speaker, listener)) ==> HoldsTranslations(speaker, listener)
    {
      ghost var x := ViewOf(speaker, listener, server);
      DiscardStagedKeeps(cfg, HoldsTranslations(speaker, listener), x, turn);
      TakeFromKeeps(cfg, HoldsTranslations(speaker, listener), x, turn);
      var st := speaker.TakeStaged(turn);
      if st.None? {
        return;
      }
      DiscardID(speaker, listener, st.value.ttsID);
      speaker.ReleaseStaged(st.value);
    }

    /** One command for each id. */
    method DiscardIDs(leg: Option<LegId>, ids: set<TtsId>)
      modifies server
      ensures server.View() == Speculation.DiscardIDs(old(server.View()), leg, ids)
    {
      ghost var before := server.View();
      ghost var done: set<TtsId> := {};
      var left := ids;
      while left != {}
        invariant done + left == ids && done !! left
        invariant server.View() == Speculation.DiscardIDs(before, leg, done)
        decreases left
      {
        var id := PickId(left);
        if leg.Some? {
          server.LegTTSDiscard(leg.value, id);
        }
        OneMoreId(before, leg, done, id);
        left, done := left - {id}, done + {id};
      }
      assert done == ids;
    }

    /** discardAllStaged with every turn, the sweeper's round with the expired ones. */
    method DiscardTurns(speaker: Participant, listener: Participant, turns: set<int>)
      requires Valid(speaker, listener)
      modifies speaker, server
      ensures ViewOf(speaker, listener, server) ==
        Speculation.DiscardTurns(old(ViewOf(speaker, listener, server)), turns)
      ensures Valid(speaker, listener)
      ensures old(HoldsTranslations(speaker, listener)) ==> HoldsTranslations(speaker, listener)
    {
      DiscardTurnsKeeps(cfg, HoldsTranslations(speaker, listener), ViewOf(speaker, listener, server), turns);
      var ids := speaker.DropStaged(turns);
      DiscardIDs(listener.legID, ids);
    }

    /** Makes room on the listener's leg, oldest turn first. */
    method EvictOldest(speaker: Participant, listener: Participant)
      requires Valid(speaker, listener)
      modifies speaker, server
      ensures ViewOf(speaker, listener, server) == Speculation.EvictOldest(old(ViewOf(speaker, listener, server)))
      ensures Valid(speaker, listener)
      ensures old(HoldsTranslations(speaker, listener)) ==> HoldsTranslations(speaker, listener)
    {
      if |speaker.staged| < STAGED_MAX {
        return;
      }
      var oldest := LeastOf(speaker.staged.Keys);
      DiscardStaged(speaker, listener, oldest);
    }

    /** Translates a probably-finished turn and stages the audio on the listener's leg. */
    method Preflight(speaker: Participant, listener: Participant, turn: int, text: string, luck: Luck)
      requires Valid(speaker, listener)
      modifies speaker, server
      ensures ViewOf(speaker, listener, server)
        == Speculation.Preflight(cfg, old(ViewOf(speaker, listener, server)), turn, text, luck)
      ensures Valid(speaker, listener)
      ensures old(HoldsTranslations(speaker, listener)) ==> HoldsTranslations(speaker, listener)
    {
      PreflightKeeps(cfg, HoldsTranslations(speaker, listener), ViewOf(speaker, listener, server), turn, text, luck);
      var src := Trim(text);
      if src == "" || listener.legID.None? || !luck.translates {
        return;
      }
      var translated := cfg.translate(src, speaker.lang, listener.lang);
      if turn <= speaker.maxDone {
        return;
      }
      EvictOldest(speaker, listener);
      if !luck.accepts {
        return;
      }
      NextIdIsNew(speaker.View(), server.View());
      var id := server.LegTTSPreflight(listener.legID.value, Utterance(translated, cfg.voice(speaker.gender)));
      speaker.PutStaged(turn, Staged(id, src, translated, luck.now));
    }
  }

  lemma NextIdIsNew(p: Part, sv: Server)
    requires PartIssued(p, sv)
    ensures sv.nextTts !in StagedIds(p.desk)
  {
  }

  method PickId(ids: set<TtsId>) returns (id: TtsId)
    requires ids != {}
    ensures id in ids
  {
    ghost var some := Pick(ids);
    id :| id in ids;
  }

  lemma OneMoreId(sv: Server, leg: Option<LegId>, done: set<TtsId>, id: TtsId)
    ensures Speculation.DiscardID(Speculation.DiscardIDs(sv, leg, done), leg, id) ==
      Speculation.DiscardIDs(sv, leg, done + {id})
  {
  }

  method LeastOf(s: set<int>) returns (least: int)
    requires s != {}
    ensures least == Least(s)
  {
    ghost var some := Pick(s);
    least :| least in s;
    var left := s - {least};
    while left != {}
      invariant left <= s && least in s
      invariant forall x | x in s && x !in left :: least <= x
      decreases left
    {
      ghost var one := Pick(left);
      var x :| x in left;
      if x < least { least := x; }
      left := left - {x};
    }
  }
}
