/**
 The speculative turn engine (cmd/interpreter/interpret.go) on values: what each
 handler does to the speaker whose turn it is, the listener it is spoken to, and
 the media server, when it runs undisturbed.

 Whether the translator and the server answer well, and whether synthesis is
 ready in time, is decided outside: `Luck` says how it went for one handler.
 */
module Speculation {
  import opened AsciiText
  import opened Options
  import opened Staging

  type Lang = string
  type Gender = string

  datatype Config = Config(
    translate: (string, Lang, Lang) -> string,
    voice: Gender -> string,
    languages: set<Lang>,
    genders: set<Gender>)

  /** A participant: language and voice, media leg, transcriber kind, what plays to it, its desk. */
  datatype Part = Part(
    lang: Lang,
    gender: Gender,
    leg: Option<LegId>,
    turnEvents: bool,
    inflight: Option<TtsId>,
    desk: Desk)

  datatype Utterance = Utterance(text: string, voice: string)

  datatype Start = Start(leg: LegId, what: Utterance)

  /**
   The media server: audio staged and playing on each leg, ids it has given out, what
   it ever started, and what went on playing because it refused to stop it.
   */
  datatype Server = Server(
    staged: map<(LegId, TtsId), Utterance>,
    playing: set<(LegId, TtsId)>,
    nextTts: TtsId,
    nextLeg: LegId,
    started: seq<Start>,
    unstopped: set<(LegId, TtsId)>)

  /**
   Whether translation succeeds, whether the server accepts new audio, a commit and a
   stop, whether synthesis is ready in time, and what time it is.
   */
  datatype Luck = Luck(translates: bool, accepts: bool, commits: bool, stops: bool, readyInTime: bool, now: int)

  datatype Trio = Trio(speaker: Part, listener: Part, server: Server)

  // ---------------------------------------------------------------------------
  // Commands
  // ---------------------------------------------------------------------------

  /** leg_tts_discard, which tolerates an unknown id; not sent without a leg. */
  function DiscardID(sv: Server, leg: Option<LegId>, id: TtsId): Server {
    if leg.None? then sv else sv.(staged := sv.staged - {(leg.value, id)})
  }

  function DiscardIDs(sv: Server, leg: Option<LegId>, ids: set<TtsId>): Server {
    if leg.None? then sv else sv.(staged := sv.staged - (set id | id in ids :: (leg.value, id)))
  }

  /** leg_tts_commit: accepted only for an id staged on that very leg. */
  predicate CommitAccepted(sv: Server, leg: LegId, id: TtsId, commits: bool) {
    commits && (leg, id) in sv.staged
  }

  function CommitID(sv: Server, leg: LegId, id: TtsId): Server
    requires (leg, id) in sv.staged
  {
    sv.(staged := sv.staged - {(leg, id)},
        playing := sv.playing + {(leg, id)},
        started := sv.started + [Start(leg, sv.staged[(leg, id)])])
  }

  /** leg_tts: synthesize and play now, under the next id. */
  function SpeakNow(sv: Server, leg: LegId, what: Utterance): Server {
    sv.(playing := sv.playing + {(leg, sv.nextTts)},
        nextTts := sv.nextTts + 1,
        started := sv.started + [Start(leg, what)])
  }

  /** leg_tts_preflight: synthesize and hold, under the next id. */
  function StageID(sv: Server, leg: LegId, what: Utterance): Server {
    sv.(staged := sv.staged[(leg, sv.nextTts) := what], nextTts := sv.nextTts + 1)
  }

  function Payload(cfg: Config, speaker: Part, listener: Part, text: string): Utterance {
    Utterance(cfg.translate(text, speaker.lang, listener.lang), cfg.voice(speaker.gender))
  }

  // ---------------------------------------------------------------------------
  // Handlers
  // ---------------------------------------------------------------------------

  /** leg_play_stop: what does not play cannot be stopped, and what is not stopped plays on. */
  function StopPlay(sv: Server, leg: LegId, id: TtsId, stops: bool): Server {
    if (leg, id) !in sv.playing then sv
    else if stops then sv.(playing := sv.playing - {(leg, id)})
    else sv.(unstopped := sv.unstopped + {(leg, id)})
  }

  /** stopInflight: what plays on the listener's leg is forgotten, and stopped if the server does so. */
  function StopInflight(x: Trio, stops: bool): Trio {
    x.(listener := x.listener.(inflight := None),
       server := if x.listener.inflight.None? || x.listener.leg.None? then x.server
                 else StopPlay(x.server, x.listener.leg.value, x.listener.inflight.value, stops))
  }

  function TranslateAndSpeak(cfg: Config, x: Trio, text: string, luck: Luck): Trio {
    if !luck.translates || x.listener.leg.None? then x
    else
      var y := StopInflight(x, luck.stops);
      if !luck.accepts then y
      else y.(listener := y.listener.(inflight := Some(y.server.nextTts)),
              server := SpeakNow(y.server, x.listener.leg.value, Payload(cfg, x.speaker, x.listener, text)))
  }

  function TakeFrom(x: Trio, turn: int): (Trio, Option<Staged>) {
    var (d, taken) := Take(x.speaker.desk, turn);
    (x.(speaker := x.speaker.(desk := d)), taken)
  }

  function ReleaseFrom(x: Trio, id: TtsId): Trio {
    x.(speaker := x.speaker.(desk := Release(x.speaker.desk, id)))
  }

  predicate Ready(x: Trio, st: Staged, luck: Luck) {
    st.ttsID in x.speaker.desk.ready || luck.readyInTime
  }

  /** Whether finishing this turn will play the staged audio. */
  predicate Commits(x: Trio, turn: int, text: string, luck: Luck) {
    && turn in x.speaker.desk.staged
    && x.listener.leg.Some?
    && x.speaker.desk.staged[turn].src == Trim(text)
    && Ready(x, x.speaker.desk.staged[turn], luck)
    && CommitAccepted(x.server, x.listener.leg.value, x.speaker.desk.staged[turn].ttsID, luck.commits)
  }

  /** commitStaged: plays the held audio, or reports that it could not. */
  function CommitStaged(x: Trio, st: Staged, luck: Luck): (Trio, bool)
    requires x.listener.leg.Some?
  {
    var leg := x.listener.leg.value;
    if !Ready(x, st, luck) then
      (x.(server := DiscardID(x.server, Some(leg), st.ttsID)), false)
    else
      var y := StopInflight(x, luck.stops);
      if !CommitAccepted(y.server, leg, st.ttsID, luck.commits) then (y, false)
      else (y.(listener := y.listener.(inflight := Some(st.ttsID)), server := CommitID(y.server, leg, st.ttsID)), true)
  }

  /** finishTurn: the staged audio if it is still what was said, otherwise the slow path. */
  function FinishTurn(cfg: Config, x: Trio, turn: int, text: string, luck: Luck): Trio {
    var final := Trim(text);
    var marked := x.(speaker := x.speaker.(desk := FinishMark(x.speaker.desk, turn)));
    var (y, taken) := TakeFrom(marked, turn);
    if taken.None? then SlowPath(cfg, y, final, luck)
    else ReleaseFrom(FinishTaken(cfg, y, taken.value, final, luck), taken.value.ttsID)
  }

  function SlowPath(cfg: Config, x: Trio, final: string, luck: Luck): Trio {
    if x.listener.leg.None? || final == "" then x else TranslateAndSpeak(cfg, x, final, luck)
  }

  function FinishTaken(cfg: Config, y: Trio, st: Staged, final: string, luck: Luck): Trio {
    if y.listener.leg.None? then y
    else if st.src == final then
      var (z, committed) := CommitStaged(y, st, luck);
      if committed then z else SlowPath(cfg, z, final, luck)
    else SlowPath(cfg, y.(server := DiscardID(y.server, y.listener.leg, st.ttsID)), final, luck)
  }

  /** evictOldestStaged: room for one more on the listener's leg. */
  ghost function EvictOldest(x: Trio): Trio {
    if |x.speaker.desk.staged| < STAGED_MAX then x
    else
      var oldest := Least(x.speaker.desk.staged.Keys);
      DiscardStaged(x, oldest)
  }

  /** discardStaged: the speaker carried on. */
  function DiscardStaged(x: Trio, turn: int): Trio {
    var (y, taken) := TakeFrom(x, turn);
    if taken.None? then y
    else ReleaseFrom(y.(server := DiscardID(y.server, y.listener.leg, taken.value.ttsID)), taken.value.ttsID)
  }

  /** discardAllStaged, and the sweeper's work on one participant: these turns' utterances go. */
  function DiscardTurns(x: Trio, turns: set<int>): Trio {
    x.(speaker := x.speaker.(desk := DropTurns(x.speaker.desk, turns)),
       server := DiscardIDs(x.server, x.listener.leg, IdsOf(x.speaker.desk, turns)))
  }

  /** preflight: translate a probably-finished turn and stage the audio on the listener's leg. */
  ghost function Preflight(cfg: Config, x: Trio, turn: int, text: string, luck: Luck): Trio {
    var src := Trim(text);
    if src == "" || x.listener.leg.None? || !luck.translates || turn <= x.speaker.desk.maxDone then x
    else
      var y := EvictOldest(x);
      if !luck.accepts then y
      else
        var what := Payload(cfg, x.speaker, x.listener, src);
        var st := Staged(y.server.nextTts, src, what.text, luck.now);
        y.(speaker := y.speaker.(desk := Put(y.speaker.desk, turn, st)),
           server := StageID(y.server, x.listener.leg.value, what))
  }
}
