/**
 Speculation is transparent: over every run of a session, what is started on the
 participants' legs is what the plain translate-then-speak cascade would start.
 */
module Transparency {
  import opened AsciiText
  import opened Options
  import opened Staging
  import opened Speculation

  datatype Seat = A | B

  function Other(seat: Seat): Seat {
    if seat == A then B else A
  }

  /** A session: up to two participants, and the media server. */
  datatype World = World(a: Option<Part>, b: Option<Part>, server: Server) {
    function At(seat: Seat): Option<Part> {
      if seat == A then a else b
    }

    function With(seat: Seat, p: Option<Part>): World {
      if seat == A then this.(a := p) else this.(b := p)
    }

    /** The participant in `seat` as the speaker, its peer as the listener. */
    function Facing(seat: Seat): Trio
      requires a.Some? && b.Some?
    {
      Trio(At(seat).value, At(Other(seat)).value, server)
    }

    function Put(seat: Seat, x: Trio): World {
      if seat == A then World(Some(x.speaker), Some(x.listener), x.server)
      else World(Some(x.listener), Some(x.speaker), x.server)
    }
  }

  const EMPTY_SERVER := Server(map[], {}, 0, 0, [], {})
  const EMPTY_WORLD := World(None, None, EMPTY_SERVER)

  datatype Event =
    | EagerEndOfTurn(seat: Seat, turn: int, text: string, luck: Luck)
    | TurnResumed(seat: Seat, turn: int)
    | EndOfTurn(seat: Seat, turn: int, text: string, luck: Luck)
    | FinalText(seat: Seat, text: string, luck: Luck)
    | SynthesisReady(listener: Seat, id: TtsId)
    | PlaybackOver(leg: LegId, id: TtsId)
    | ServerForgets(leg: LegId, id: TtsId)
    | SweepTick(cutoff: int)
    | SetLanguage(seat: Seat, code: Lang)
    | SetGender(seat: Seat, code: Gender)
    | TranscriberRuns(seat: Seat, turnEvents: bool)
    | LegBound(seat: Seat)
    | LegGone(seat: Seat)
    | Join(seat: Seat, lang: Lang, gender: Gender)
    | Leave(seat: Seat, stops: bool)

  /** Both participants are present and the speaker's leg is bound, so its events find their way. */
  predicate Heard(w: World, seat: Seat) {
    w.a.Some? && w.b.Some? && w.At(seat).value.leg.Some?
  }

  ghost function Discarded(w: World, seat: Seat): World {
    if w.a.None? || w.b.None? then
      if w.At(seat).None? then w
      else w.With(seat,
        Some(w.At(seat).value.(desk := DropTurns(w.At(seat).value.desk, w.At(seat).value.desk.staged.Keys))))
    else w.Put(seat, DiscardTurns(w.Facing(seat), w.Facing(seat).speaker.desk.staged.Keys))
  }

  ghost function Swept(w: World, seat: Seat, cutoff: int): World {
    if w.a.None? || w.b.None? then w
    else w.Put(seat, DiscardTurns(w.Facing(seat), ExpiredTurns(w.Facing(seat).speaker.desk, cutoff)))
  }

  /** The in-flight slot is cleared, and stopped when there is a leg to stop it on. */
  function Silenced(w: World, seat: Seat, stops: bool): World
    requires w.At(seat).Some?
  {
    var p := w.At(seat).value;
    var x := StopInflight(Trio(p, p, w.server), stops);
    w.With(seat, Some(p.(inflight := None))).(server := x.server)
  }

  ghost function Next(cfg: Config, w: World, e: Event): World {
    match e
    case EagerEndOfTurn(seat, turn, text, luck) =>
      if Heard(w, seat) then w.Put(seat, Preflight(cfg, w.Facing(seat), turn, text, luck)) else w
    case TurnResumed(seat, turn) =>
      if Heard(w, seat) then w.Put(seat, DiscardStaged(w.Facing(seat), turn)) else w
    case EndOfTurn(seat, turn, text, luck) =>
      if Heard(w, seat) then w.Put(seat, FinishTurn(cfg, w.Facing(seat), turn, text, luck)) else w
    case FinalText(seat, text, luck) =>
      if Heard(w, seat) && !w.At(seat).value.turnEvents
        then w.Put(seat, SlowPath(cfg, w.Facing(seat), Trim(text), luck)) else w
    case SynthesisReady(listener, id) =>
      if Heard(w, listener) then
        var speaker := w.At(Other(listener)).value;
        w.With(Other(listener), Some(speaker.(desk := MarkReady(speaker.desk, id))))
      else w
    case PlaybackOver(leg, id) => PlaybackEnds(w, leg, id)
    case ServerForgets(leg, id) => w.(server := w.server.(staged := w.server.staged - {(leg, id)}))
    case SweepTick(cutoff) => Swept(Swept(w, A, cutoff), B, cutoff)
    case SetLanguage(seat, code) =>
      if w.At(seat).None? || code !in cfg.languages || w.At(seat).value.lang == code then w
      else Discarded(w.With(seat, Some(w.At(seat).value.(lang := code))), seat)
    case SetGender(seat, code) =>
      if w.At(seat).None? || code !in cfg.genders || w.At(seat).value.gender == code then w
      else Discarded(w.With(seat, Some(w.At(seat).value.(gender := code))), seat)
    case TranscriberRuns(seat, turnEvents) =>
      if w.At(seat).None? then w else w.With(seat, Some(w.At(seat).value.(turnEvents := turnEvents)))
    case LegBound(seat) =>
      if w.At(seat).None? then w
      else w.With(seat,
        Some(w.At(seat).value.(leg := Some(w.server.nextLeg)))).(server := w.server.(nextLeg := w.server.nextLeg + 1))
    case LegGone(seat) =>
      if w.At(seat).None? then w
      else Silenced(Discarded(w.With(seat, Some(w.At(seat).value.(leg := None))), seat), seat, true)
    case Join(seat, lang, gender) =>
      if w.At(seat).Some? then w else w.With(seat, Some(Part(lang, gender, None, false, None, EMPTY_DESK)))
    case Leave(seat, stops) =>
      if w.At(seat).None? then w else Silenced(Discarded(w, seat), seat, stops).With(seat, None)
  }

  function PlaybackEnds(w: World, leg: LegId, id: TtsId): World {
    World(ClearedIf(w.a, leg, id), ClearedIf(w.b, leg, id), w.server.(playing := w.server.playing - {(leg, id)}))
  }

  function ClearedIf(p: Option<Part>, leg: LegId, id: TtsId): Option<Part> {
    if p.Some? && p.value.leg == Some(leg) && p.value.inflight == Some(id) then Some(p.value.(inflight := None)) else p
  }

  ghost function Run(cfg: Config, w: World, events: seq<Event>): World
    decreases |events|
  {
    if events == [] then w else Run(cfg, Next(cfg, w, events[0]), events[1..])
  }

  // ---------------------------------------------------------------------------
  // The plain cascade
  // ---------------------------------------------------------------------------

  datatype PlainPart = PlainPart(lang: Lang, gender: Gender, leg: Option<LegId>, turnEvents: bool)

  /** A session that never speculates: who is there, and what was started. */
  datatype PlainWorld = PlainWorld(a: Option<PlainPart>, b: Option<PlainPart>, nextLeg: LegId, started: seq<Start>) {
    function At(seat: Seat): Option<PlainPart> {
      if seat == A then a else b
    }

    function With(seat: Seat, p: Option<PlainPart>): PlainWorld {
      if seat == A then this.(a := p) else this.(b := p)
    }
  }

  /** Translate what was said and speak it to the peer, if there is anything to say and somebody to hear it. */
  function Cascade(cfg: Config, w: PlainWorld, seat: Seat, text: string, accepted: bool): PlainWorld
    requires w.a.Some? && w.b.Some?
  {
    var speaker, listener := w.At(seat).value, w.At(Other(seat)).value;
    if listener.leg.None? || Trim(text) == "" || !accepted then w
    else
      w.(started := w.started
           + [Start(listener.leg.value,
             Utterance(cfg.translate(Trim(text), speaker.lang, listener.lang), cfg.voice(speaker.gender)))])
  }

  predicate PlainHeard(w: PlainWorld, seat: Seat) {
    w.a.Some? && w.b.Some? && w.At(seat).value.leg.Some?
  }

  /** `accepted`: whether the translator and the server would do their part for this utterance. */
  function PlainNext(cfg: Config, w: PlainWorld, e: Event, accepted: bool): PlainWorld {
    match e
    case EndOfTurn(seat, _, text, _) => if PlainHeard(w, seat) then Cascade(cfg, w, seat, text, accepted) else w
    case FinalText(seat, text, _) =>
      if PlainHeard(w, seat) && !w.At(seat).value.turnEvents then Cascade(cfg, w, seat, text, accepted) else w
    case SetLanguage(seat, code) =>
      if w.At(seat).None? || code !in cfg.languages then w else w.With(seat, Some(w.At(seat).value.(lang := code)))
    case SetGender(seat, code) =>
      if w.At(seat).None? || code !in cfg.genders then w else w.With(seat, Some(w.At(seat).value.(gender := code)))
    case TranscriberRuns(seat, turnEvents) =>
      if w.At(seat).None? then w else w.With(seat, Some(w.At(seat).value.(turnEvents := turnEvents)))
    case LegBound(seat) =>
      if w.At(seat).None? then w
      else w.With(seat, Some(w.At(seat).value.(leg := Some(w.nextLeg)))).(nextLeg := w.nextLeg + 1)
    case LegGone(seat) => if w.At(seat).None? then w else w.With(seat, Some(w.At(seat).value.(leg := None)))
    case Join(seat, lang, gender) =>
      if w.At(seat).Some? then w else w.With(seat, Some(PlainPart(lang, gender, None, false)))
    case Leave(seat, _) => w.With(seat, None)
    case _ => w
  }

  /** The plain cascade over a run, `accepted` saying for each event whether the server does its part. */
  function PlainRun(cfg: Config, w: PlainWorld, events: seq<Event>, accepted: seq<bool>): PlainWorld
    requires |accepted| == |events|
    decreases |events|
  {
    if events == [] then w else PlainRun(cfg, PlainNext(cfg, w, events[0], accepted[0]), events[1..], accepted[1..])
  }

  function PlainPartOf(p: Option<Part>): Option<PlainPart> {
    if p.None? then None else Some(PlainPart(p.value.lang, p.value.gender, p.value.leg, p.value.turnEvents))
  }

  function PlainOf(w: World): PlainWorld {
    PlainWorld(PlainPartOf(w.a), PlainPartOf(w.b), w.server.nextLeg, w.server.started)
  }

  /** The slow path would get its way. */
  predicate SlowPathAccepted(e: Event) {
    (e.EndOfTurn? || e.FinalText?) && e.luck.translates && e.luck.accepts
  }

  /** The event starts an utterance if there is one to start: by a commit, or by the slow path. */
  predicate Accepted(w: World, e: Event) {
    || SlowPathAccepted(e)
    || (e.EndOfTurn? && Heard(w, e.seat) && Commits(w.Facing(e.seat), e.turn, e.text, e.luck))
  }

  ghost function AcceptedAlong(cfg: Config, w: World, events: seq<Event>): (r: seq<bool>)
    ensures |r| == |events|
    decreases |events|
  {
    if events == [] then [] else [Accepted(w, events[0])] + AcceptedAlong(cfg, Next(cfg, w, events[0]), events[1..])
  }

  // ---------------------------------------------------------------------------
  // The invariant
  // ---------------------------------------------------------------------------

  /** Whatever of the speaker's is still held for the listener's leg is the translation of its source, as of now. */
  ghost predicate Faithful(cfg: Config, sp: Part, ls: Part, sv: Server) {
    forall t | t in sp.desk.staged ::
      (ls.leg.Some? && (ls.leg.value, sp.desk.staged[t].ttsID) in sv.staged ==>
            sv.staged[(ls.leg.value, sp.desk.staged[t].ttsID)] == Payload(cfg, sp, ls, sp.desk.staged[t].src))
  }

  /** Ids are given out in order, so whatever the server gives out next is new. */
  ghost predicate PartIssued(p: Part, sv: Server) {
    && (forall t | t in p.desk.staged :: p.desk.staged[t].ttsID < sv.nextTts)
    && (p.leg.Some? ==> p.leg.value < sv.nextLeg)
  }

  ghost predicate ServerIssued(sv: Server) {
    && (forall k | k in sv.staged :: k.0 < sv.nextLeg && k.1 < sv.nextTts)
    && (forall k | k in sv.playing :: k.0 < sv.nextLeg && k.1 < sv.nextTts && k !in sv.staged)
  }

  /** Nothing plays on a participant's leg but the in-flight utterance, and what the server refused to stop. */
  ghost predicate OneVoice(p: Part, sv: Server) {
    forall k | k in sv.playing && p.leg == Some(k.0) :: p.inflight == Some(k.1) || k in sv.unstopped
  }

  /** What is staged was something to say, without surrounding space. */
  predicate IsTrimmed(src: string) {
    src != "" && Trim(src) == src
  }

  ghost predicate PartOk(p: Part, sv: Server) {
    PartIssued(p, sv) && OneVoice(p, sv) && forall t | t in p.desk.staged :: IsTrimmed(p.desk.staged[t].src)
  }

  ghost predicate Inv(cfg: Config, w: World, strict: bool) {
    && ServerIssued(w.server)
    && (w.a.Some? ==> PartOk(w.a.value, w.server))
    && (w.b.Some? ==> PartOk(w.b.value, w.server))
    && (w.a.Some? && w.b.Some? ==>
          && (w.a.value.leg.Some? ==> w.a.value.leg != w.b.value.leg)
          && (strict ==>
            Faithful(cfg, w.a.value, w.b.value, w.server) && Faithful(cfg, w.b.value, w.a.value, w.server)))
  }

  ghost predicate TrioInv(cfg: Config, x: Trio, strict: bool) {
    && ServerIssued(x.server)
    && PartOk(x.speaker, x.server) && PartOk(x.listener, x.server)
    && (x.speaker.leg.Some? ==> x.speaker.leg != x.listener.leg)
    && (strict ==> Faithful(cfg, x.speaker, x.listener, x.server) && Faithful(cfg, x.listener, x.speaker, x.server))
  }

  // ---------------------------------------------------------------------------
  // Handlers keep the invariant
  // ---------------------------------------------------------------------------

  /** `y` is `x` with fewer utterances staged, nothing else said about either participant changed. */
  ghost predicate Lessens(x: Trio, y: Trio) {
    && y.speaker == x.speaker.(desk := y.speaker.desk)
    && y.listener == x.listener.(inflight := y.listener.inflight)
    && (forall t | t in y.speaker.desk.staged ::
      t in x.speaker.desk.staged && y.speaker.desk.staged[t] == x.speaker.desk.staged[t])
    && (forall k | k in y.server.staged :: k in x.server.staged && y.server.staged[k] == x.server.staged[k])
    && y.server.nextTts >= x.server.nextTts && y.server.nextLeg == x.server.nextLeg
  }

  /** What plays after: only on the listener's leg anything new, and there it is in flight. */
  ghost predicate OneVoiceAfter(x: Trio, y: Trio) {
    && (forall k | k in y.server.playing && x.listener.leg != Some(k.0) :: k in x.server.playing)
    && (forall k | k in y.server.playing :: k.0 < y.server.nextLeg && k.1 < y.server.nextTts && k !in y.server.staged)
    && x.server.unstopped <= y.server.unstopped
    && OneVoice(y.listener, y.server)
  }

  lemma LesseningKeeps(cfg: Config, strict: bool, x: Trio, y: Trio)
    requires TrioInv(cfg, x, strict) && Lessens(x, y) && OneVoiceAfter(x, y)
    ensures TrioInv(cfg, y, strict)
  {
    assert forall t | t in y.speaker.desk.staged :: y.speaker.desk.staged[t] == x.speaker.desk.staged[t];
  }

  lemma StopInflightLessens(x: Trio, stops: bool)
    requires PartOk(x.listener, x.server) && ServerIssued(x.server)
    ensures var y := StopInflight(x, stops);
      && Lessens(x, y) && OneVoiceAfter(x, y)
      && (forall k | k in y.server.playing && x.listener.leg == Some(k.0) :: k in y.server.unstopped)
      && y.server.started == x.server.started && y.server.staged == x.server.staged
  {
  }

  lemma StopInflightKeeps(cfg: Config, strict: bool, x: Trio, stops: bool)
    requires TrioInv(cfg, x, strict)
    ensures TrioInv(cfg, StopInflight(x, stops), strict)
  {
    StopInflightLessens(x, stops);
    LesseningKeeps(cfg, strict, x, StopInflight(x, stops));
  }

  lemma TranslateAndSpeakKeeps(cfg: Config, strict: bool, x: Trio, text: string, luck: Luck)
    requires TrioInv(cfg, x, strict) && text != ""
    ensures TrioInv(cfg, TranslateAndSpeak(cfg, x, text, luck), strict)
  {
    SlowPathKeeps(cfg, strict, x, text, luck);
  }

  lemma SlowPathKeeps(cfg: Config, strict: bool, x: Trio, final: string, luck: Luck)
    requires TrioInv(cfg, x, strict)
    ensures TrioInv(cfg, SlowPath(cfg, x, final, luck), strict)
    ensures SlowPath(cfg, x, final, luck).server.started == x.server.started +
      if x.listener.leg.None? || final == "" || !luck.translates || !luck.accepts then []
      else [Start(x.listener.leg.value, Payload(cfg, x.speaker, x.listener, final))]
    ensures var y := SlowPath(cfg, x, final, luck); Lessens(x, y)
  {
    StopInflightLessens(x, luck.stops);
    LesseningKeeps(cfg, strict, x, SlowPath(cfg, x, final, luck));
  }

  lemma TakeFromKeeps(cfg: Config, strict: bool, x: Trio, turn: int)
    requires TrioInv(cfg, x, strict)
    ensures TrioInv(cfg, TakeFrom(x, turn).0, strict) && Lessens(x, TakeFrom(x, turn).0)
  {
    LesseningKeeps(cfg, strict, x, TakeFrom(x, turn).0);
  }

  lemma DiscardIDKeeps(cfg: Config, strict: bool, x: Trio, id: TtsId)
    requires TrioInv(cfg, x, strict)
    ensures TrioInv(cfg, x.(server := DiscardID(x.server, x.listener.leg, id)), strict)
  {
    LesseningKeeps(cfg, strict, x, x.(server := DiscardID(x.server, x.listener.leg, id)));
  }

  /** A commit either plays exactly what the server held, or starts nothing. */
  lemma CommitStagedKeeps(cfg: Config, strict: bool, x: Trio, st: Staged, luck: Luck)
    requires TrioInv(cfg, x, strict) && x.listener.leg.Some?
    ensures var (y, committed) := CommitStaged(x, st, luck);
      && TrioInv(cfg, y, strict)
      && committed == (Ready(x, st, luck) && CommitAccepted(x.server, x.listener.leg.value, st.ttsID, luck.commits))
      && y.speaker == x.speaker && y.listener == x.listener.(inflight := y.listener.inflight)
      && y.server.nextLeg == x.server.nextLeg
      && y.server.started == x.server.started +
           if committed then [Start(x.listener.leg.value, x.server.staged[(x.listener.leg.value, st.ttsID)])] else []
  {
    StopInflightLessens(x, luck.stops);
    LesseningKeeps(cfg, strict, x, CommitStaged(x, st, luck).0);
  }

  /** What finishing a turn should start: the sentence as said, translated now. */
  function Owed(cfg: Config, x: Trio, final: string, accepted: bool): seq<Start> {
    if x.listener.leg.None? || final == "" || !accepted then []
    else [Start(x.listener.leg.value, Payload(cfg, x.speaker, x.listener, final))]
  }

  /** From `y` to `z` what was owed has been started, and nothing else happened to those two but what plays. */
  ghost predicate EndsAsOwed(cfg: Config, strict: bool, y: Trio, z: Trio, final: string, accepted: bool) {
    && TrioInv(cfg, z, strict)
    && z.speaker == y.speaker && z.listener == y.listener.(inflight := z.listener.inflight)
    && z.server.nextLeg == y.server.nextLeg
    && (strict ==> z.server.started == y.server.started + Owed(cfg, y, final, accepted))
  }

  predicate CommitsTaken(y: Trio, st: Staged, final: string, luck: Luck) {
    && y.listener.leg.Some? && st.src == final && Ready(y, st, luck)
    && CommitAccepted(y.server, y.listener.leg.value, st.ttsID, luck.commits)
  }

  lemma FinishSameKeeps(cfg: Config, strict: bool, y: Trio, st: Staged, luck: Luck)
    requires TrioInv(cfg, y, strict) && IsTrimmed(st.src) && y.listener.leg.Some?
    requires strict && (y.listener.leg.value, st.ttsID) in y.server.staged ==>
      y.server.staged[(y.listener.leg.value, st.ttsID)] == Payload(cfg, y.speaker, y.listener, st.src)
    ensures EndsAsOwed(cfg, strict, y, FinishTaken(cfg, y, st, st.src, luck), st.src,
                       (luck.translates && luck.accepts) || CommitsTaken(y, st, st.src, luck))
  {
    CommitStagedKeeps(cfg, strict, y, st, luck);
    var (z, committed) := CommitStaged(y, st, luck);
    if !committed {
      SlowPathKeeps(cfg, strict, z, st.src, luck);
    }
  }

  lemma FinishRevisedKeeps(cfg: Config, strict: bool, y: Trio, st: Staged, final: string, luck: Luck)
    requires TrioInv(cfg, y, strict) && y.listener.leg.Some? && st.src != final
    ensures EndsAsOwed(cfg, strict, y, FinishTaken(cfg, y, st, final, luck), final, luck.translates && luck.accepts)
  {
    DiscardIDKeeps(cfg, strict, y, st.ttsID);
    SlowPathKeeps(cfg, strict, y.(server := DiscardID(y.server, y.listener.leg, st.ttsID)), final, luck);
  }

  /** The taken entry is committed, replaced by the slow path, or dropped: either way the same is said. */
  lemma FinishTakenKeeps(cfg: Config, strict: bool, y: Trio, st: Staged, final: string, luck: Luck)
    requires TrioInv(cfg, y, strict)
    requires IsTrimmed(st.src)
    requires strict && y.listener.leg.Some? && (y.listener.leg.value, st.ttsID) in y.server.staged ==>
      y.server.staged[(y.listener.leg.value, st.ttsID)] == Payload(cfg, y.speaker, y.listener, st.src)
    ensures EndsAsOwed(cfg, strict, y, FinishTaken(cfg, y, st, final, luck), final,
                       (luck.translates && luck.accepts) || CommitsTaken(y, st, final, luck))
  {
    if y.listener.leg.Some? {
      if st.src == final {
        FinishSameKeeps(cfg, strict, y, st, luck);
      } else {
        FinishRevisedKeeps(cfg, strict, y, st, final, luck);
      }
    }
  }

  /** Marking a turn done and taking its entry leaves the rest as it should be; the entry was something to say. */
  lemma TakenIsFaithful(cfg: Config, strict: bool, x: Trio, turn: int)
    requires TrioInv(cfg, x, strict)
    ensures var (y, taken) := TakeFrom(x.(speaker := x.speaker.(desk := FinishMark(x.speaker.desk, turn))), turn);
      TrioInv(cfg, y, strict) && (taken.Some? ==> IsTrimmed(taken.value.src))
  {
    var marked := x.(speaker := x.speaker.(desk := FinishMark(x.speaker.desk, turn)));
    LesseningKeeps(cfg, strict, x, marked);
    TakeFromKeeps(cfg, strict, marked, turn);
  }

  lemma ReleaseFromKeeps(cfg: Config, strict: bool, x: Trio, id: TtsId)
    requires TrioInv(cfg, x, strict)
    ensures TrioInv(cfg, ReleaseFrom(x, id), strict)
  {
    LesseningKeeps(cfg, strict, x, ReleaseFrom(x, id));
  }

  lemma FinishTurnKeeps(cfg: Config, strict: bool, x: Trio, turn: int, text: string, luck: Luck)
    requires TrioInv(cfg, x, strict)
    ensures var z := FinishTurn(cfg, x, turn, text, luck);
      && TrioInv(cfg, z, strict)
      && z.speaker == x.speaker.(desk := z.speaker.desk) && z.listener == x.listener.(inflight := z.listener.inflight)
      && z.server.nextLeg == x.server.nextLeg
      && (strict ==>
            var accepted := (luck.translates && luck.accepts) || Commits(x, turn, text, luck);
            z.server.started == x.server.started + Owed(cfg, x, Trim(text), accepted))
  {
    var final := Trim(text);
    var marked := x.(speaker := x.speaker.(desk := FinishMark(x.speaker.desk, turn)));
    LesseningKeeps(cfg, strict, x, marked);
    TakeFromKeeps(cfg, strict, marked, turn);
    var (y, taken) := TakeFrom(marked, turn);
    if taken.None? {
      SlowPathKeeps(cfg, strict, y, final, luck);
    } else {
      assert marked.speaker.desk.staged[turn] == taken.value;
      FinishTakenKeeps(cfg, strict, y, taken.value, final, luck);
      ReleaseFromKeeps(cfg, strict, FinishTaken(cfg, y, taken.value, final, luck), taken.value.ttsID);
    }
  }

  lemma DiscardStagedKeeps(cfg: Config, strict: bool, x: Trio, turn: int)
    requires TrioInv(cfg, x, strict)
    ensures TrioInv(cfg, DiscardStaged(x, turn), strict) && Lessens(x, DiscardStaged(x, turn))
    ensures DiscardStaged(x, turn).server.started == x.server.started &&
      DiscardStaged(x, turn).server.playing == x.server.playing
    ensures DiscardStaged(x, turn).listener == x.listener
  {
    LesseningKeeps(cfg, strict, x, DiscardStaged(x, turn));
  }

  lemma DiscardTurnsKeeps(cfg: Config, strict: bool, x: Trio, turns: set<int>)
    requires TrioInv(cfg, x, strict)
    ensures TrioInv(cfg, DiscardTurns(x, turns), strict)
  {
    LesseningKeeps(cfg, strict, x, DiscardTurns(x, turns));
  }

  /** Staging under a fresh id: the new entry is faithful by construction, and no other can mean the same id. */
  lemma StagingKeeps(cfg: Config, strict: bool, x: Trio, turn: int, src: string, now: int)
    requires TrioInv(cfg, x, strict) && IsTrimmed(src) && x.listener.leg.Some?
    ensures var what := Payload(cfg, x.speaker, x.listener, src);
      TrioInv(cfg, Trio(x.speaker.(desk := Put(x.speaker.desk, turn, Staged(x.server.nextTts, src, what.text, now))),
                        x.listener, StageID(x.server, x.listener.leg.value, what)), strict)
  {
  }

  lemma PreflightKeeps(cfg: Config, strict: bool, x: Trio, turn: int, text: string, luck: Luck)
    requires TrioInv(cfg, x, strict)
    ensures TrioInv(cfg, Preflight(cfg, x, turn, text, luck), strict)
    ensures var y := Preflight(cfg, x, turn, text, luck);
      && y.server.started == x.server.started && y.server.nextLeg == x.server.nextLeg
      && y.listener == x.listener && y.speaker == x.speaker.(desk := y.speaker.desk)
  {
    if |x.speaker.desk.staged| >= STAGED_MAX {
      DiscardStagedKeeps(cfg, strict, x, Least(x.speaker.desk.staged.Keys));
    }
    var y := EvictOldest(x);
    var src := Trim(text);
    TrimTwice(text);
    if src != "" && x.listener.leg.Some? {
      StagingKeeps(cfg, strict, y, turn, src, luck.now);
    }
  }

  // ---------------------------------------------------------------------------
  // Sessions keep the invariant, and follow the plain cascade
  // ---------------------------------------------------------------------------

  /**
   When a participant's language really changes, whatever of the peer's is still held
   for its leg is translated alike into the new one: setLanguage discards what the
   participant staged, not what was staged for it.
   */
  ghost predicate LanguageSafe(cfg: Config, w: World, e: Event) {
    e.SetLanguage? && w.a.Some? && w.b.Some? && e.code in cfg.languages && w.At(e.seat).value.lang != e.code ==>
      HeldAlike(cfg, w.At(e.seat).value, w.At(Other(e.seat)).value, w.server, e.code)
  }

  ghost predicate LanguageSafeAlong(cfg: Config, w: World, events: seq<Event>)
    decreases |events|
  {
    events != [] ==> LanguageSafe(cfg, w, events[0]) && LanguageSafeAlong(cfg, Next(cfg, w, events[0]), events[1..])
  }

  lemma FacingKeeps(cfg: Config, strict: bool, w: World, seat: Seat)
    requires Inv(cfg, w, strict) && w.a.Some? && w.b.Some?
    ensures TrioInv(cfg, w.Facing(seat), strict)
  {
  }

  lemma PutKeeps(cfg: Config, strict: bool, w: World, seat: Seat, x: Trio)
    requires TrioInv(cfg, x, strict)
    ensures Inv(cfg, w.Put(seat, x), strict)
  {
  }

  lemma EndOfTurnFollows(cfg: Config, strict: bool, w: World, e: Event)
    requires Inv(cfg, w, strict) && e.EndOfTurn?
    ensures Inv(cfg, Next(cfg, w, e), strict)
    ensures strict ==> PlainOf(Next(cfg, w, e)) == PlainNext(cfg, PlainOf(w), e, Accepted(w, e))
  {
    if Heard(w, e.seat) {
      FacingKeeps(cfg, strict, w, e.seat);
      var x := w.Facing(e.seat);
      FinishTurnKeeps(cfg, strict, x, e.turn, e.text, e.luck);
      var z := FinishTurn(cfg, x, e.turn, e.text, e.luck);
      PutKeeps(cfg, strict, w, e.seat, z);
      if strict { SpokenFollows(cfg, w, e.seat, z, e.text, Accepted(w, e)); }
    }
  }

  lemma FinalTextFollows(cfg: Config, strict: bool, w: World, e: Event)
    requires Inv(cfg, w, strict) && e.FinalText?
    ensures Inv(cfg, Next(cfg, w, e), strict)
    ensures PlainOf(Next(cfg, w, e)) == PlainNext(cfg, PlainOf(w), e, Accepted(w, e))
  {
    if Heard(w, e.seat) && !w.At(e.seat).value.turnEvents {
      FacingKeeps(cfg, strict, w, e.seat);
      var x := w.Facing(e.seat);
      SlowPathKeeps(cfg, strict, x, Trim(e.text), e.luck);
      var z := SlowPath(cfg, x, Trim(e.text), e.luck);
      PutKeeps(cfg, strict, w, e.seat, z);
      SpokenFollows(cfg, w, e.seat, z, e.text, Accepted(w, e));
    }
  }

  /** A handler that starts just what is owed leaves the plain view as the cascade would. */
  lemma SpokenFollows(cfg: Config, w: World, seat: Seat, z: Trio, text: string, accepted: bool)
    requires Heard(w, seat)
    requires z.speaker == w.Facing(seat).speaker.(desk := z.speaker.desk)
    requires z.listener == w.Facing(seat).listener.(inflight := z.listener.inflight)
    requires z.server.nextLeg == w.server.nextLeg
    requires z.server.started == w.server.started + Owed(cfg, w.Facing(seat), Trim(text), accepted)
    ensures PlainOf(w.Put(seat, z)) == Cascade(cfg, PlainOf(w), seat, text, accepted)
  {
  }

  /** Eager turns, resumed turns and the sweeper start nothing. */
  lemma StagingFollows(cfg: Config, strict: bool, w: World, e: Event)
    requires Inv(cfg, w, strict) && (e.EagerEndOfTurn? || e.TurnResumed?)
    ensures Inv(cfg, Next(cfg, w, e), strict)
    ensures PlainOf(Next(cfg, w, e)) == PlainOf(w)
  {
    if Heard(w, e.seat) {
      FacingKeeps(cfg, strict, w, e.seat);
      var x := w.Facing(e.seat);
      if e.EagerEndOfTurn? {
        PreflightKeeps(cfg, strict, x, e.turn, e.text, e.luck);
        PutKeeps(cfg, strict, w, e.seat, Preflight(cfg, x, e.turn, e.text, e.luck));
      } else {
        DiscardStagedKeeps(cfg, strict, x, e.turn);
        PutKeeps(cfg, strict, w, e.seat, DiscardStaged(x, e.turn));
      }
    }
  }

  lemma SweptKeeps(cfg: Config, strict: bool, w: World, seat: Seat, cutoff: int)
    requires Inv(cfg, w, strict)
    ensures Inv(cfg, Swept(w, seat, cutoff), strict) && PlainOf(Swept(w, seat, cutoff)) == PlainOf(w)
  {
    if w.a.Some? && w.b.Some? {
      FacingKeeps(cfg, strict, w, seat);
      DiscardTurnsKeeps(cfg, strict, w.Facing(seat), ExpiredTurns(w.Facing(seat).speaker.desk, cutoff));
    }
  }

  /** The peer's entry for this turn is still held for the participant's leg. */
  predicate IsHeld(ls: Part, sp: Part, sv: Server, turn: int) {
    turn in sp.desk.staged && ls.leg.Some? && (ls.leg.value, sp.desk.staged[turn].ttsID) in sv.staged
  }

  /** Whatever is held for the participant's leg would be translated into that language just as it was. */
  ghost predicate HeldAlike(cfg: Config, ls: Part, sp: Part, sv: Server, code: Lang) {
    forall t | IsHeld(ls, sp, sv, t) ::
      cfg.translate(sp.desk.staged[t].src, sp.lang, code) == cfg.translate(sp.desk.staged[t].src, sp.lang, ls.lang)
  }

  /**
   After a change of voice or language nothing of the participant's is staged, so the change is
   safe towards the peer.
   */
  lemma ChangeKeepsTrio(cfg: Config, strict: bool, x: Trio, lang: Lang, gender: Gender)
    requires TrioInv(cfg, x, strict)
    requires strict && lang != x.speaker.lang ==> HeldAlike(cfg, x.speaker, x.listener, x.server, lang)
    ensures var changed := x.(speaker := x.speaker.(lang := lang, gender := gender));
      TrioInv(cfg, DiscardTurns(changed, changed.speaker.desk.staged.Keys), strict)
  {
    var changed := x.(speaker := x.speaker.(lang := lang, gender := gender));
    var y := DiscardTurns(changed, changed.speaker.desk.staged.Keys);
    assert y.speaker.desk.staged == map[];
    if strict {
      forall t | t in y.listener.desk.staged && y.speaker.leg.Some? &&
        (y.speaker.leg.value, y.listener.desk.staged[t].ttsID) in y.server.staged
        ensures y.server.staged[(y.speaker.leg.value, y.listener.desk.staged[t].ttsID)] ==
          Payload(cfg, y.listener, y.speaker, y.listener.desk.staged[t].src)
      {
        assert IsHeld(x.speaker, x.listener, x.server, t);
      }
    }
  }

  lemma ChangeFollows(cfg: Config, strict: bool, w: World, seat: Seat, lang: Lang, gender: Gender)
    requires Inv(cfg, w, strict) && w.At(seat).Some?
    requires strict && w.At(Other(seat)).Some? && lang != w.At(seat).value.lang ==>
      HeldAlike(cfg, w.At(seat).value, w.At(Other(seat)).value, w.server, lang)
    ensures var changed := w.With(seat, Some(w.At(seat).value.(lang := lang, gender := gender)));
      Inv(cfg, Discarded(changed, seat), strict) && PlainOf(Discarded(changed, seat)) == PlainOf(changed)
  {
    if w.a.Some? && w.b.Some? {
      FacingKeeps(cfg, strict, w, seat);
      ChangeKeepsTrio(cfg, strict, w.Facing(seat), lang, gender);
    }
  }

  lemma DiscardedKeeps(cfg: Config, strict: bool, w: World, seat: Seat)
    requires Inv(cfg, w, strict)
    ensures Inv(cfg, Discarded(w, seat), strict) && PlainOf(Discarded(w, seat)) == PlainOf(w)
    ensures w.At(seat).Some? ==>
      Discarded(w, seat).At(seat).Some? && Discarded(w, seat).At(seat).value.desk.staged == map[]
  {
    if w.a.Some? && w.b.Some? {
      FacingKeeps(cfg, strict, w, seat);
      DiscardTurnsKeeps(cfg, strict, w.Facing(seat), w.Facing(seat).speaker.desk.staged.Keys);
    }
  }

  lemma SilencedAloneKeeps(cfg: Config, strict: bool, w: World, seat: Seat, stops: bool)
    requires Inv(cfg, w, strict) && w.At(seat).Some? && w.At(Other(seat)).None?
    ensures Inv(cfg, Silenced(w, seat, stops), strict)
  {
  }

  lemma SilencedFacingKeeps(cfg: Config, strict: bool, w: World, seat: Seat, stops: bool)
    requires Inv(cfg, w, strict) && w.a.Some? && w.b.Some?
    ensures Inv(cfg, Silenced(w, seat, stops), strict)
  {
    FacingKeeps(cfg, strict, w, Other(seat));
    StopInflightKeeps(cfg, strict, w.Facing(Other(seat)), stops);
    PutKeeps(cfg, strict, w, Other(seat), StopInflight(w.Facing(Other(seat)), stops));
    assert Silenced(w, seat, stops) == w.Put(Other(seat), StopInflight(w.Facing(Other(seat)), stops));
  }

  lemma SilencedKeeps(cfg: Config, strict: bool, w: World, seat: Seat, stops: bool)
    requires Inv(cfg, w, strict) && w.At(seat).Some?
    ensures Inv(cfg, Silenced(w, seat, stops), strict) && PlainOf(Silenced(w, seat, stops)) == PlainOf(w)
    ensures Silenced(w, seat, stops).At(seat).Some?
  {
    if w.At(Other(seat)).None? {
      SilencedAloneKeeps(cfg, strict, w, seat, stops);
    } else {
      SilencedFacingKeeps(cfg, strict, w, seat, stops);
    }
  }

  /** A new leg has nothing staged or playing on it. */
  lemma LegBoundFollows(cfg: Config, strict: bool, w: World, e: Event)
    requires Inv(cfg, w, strict) && e.LegBound?
    ensures Inv(cfg, Next(cfg, w, e), strict)
    ensures PlainOf(Next(cfg, w, e)) == PlainNext(cfg, PlainOf(w), e, Accepted(w, e))
  {
  }

  lemma UnboundKeeps(cfg: Config, strict: bool, w: World, seat: Seat)
    requires Inv(cfg, w, strict) && w.At(seat).Some?
    ensures var unbound := w.With(seat, Some(w.At(seat).value.(leg := None)));
      && Inv(cfg, unbound, strict) && unbound.At(seat).Some?
      && PlainOf(unbound) == PlainOf(w).With(seat, Some(PlainOf(w).At(seat).value.(leg := None)))
  {
  }

  lemma LegGoneFollows(cfg: Config, strict: bool, w: World, e: Event)
    requires Inv(cfg, w, strict) && e.LegGone?
    ensures Inv(cfg, Next(cfg, w, e), strict)
    ensures PlainOf(Next(cfg, w, e)) == PlainNext(cfg, PlainOf(w), e, Accepted(w, e))
  {
    if w.At(e.seat).Some? {
      var unbound := w.With(e.seat, Some(w.At(e.seat).value.(leg := None)));
      UnboundKeeps(cfg, strict, w, e.seat);
      SilencesDiscarded(cfg, strict, unbound, e.seat, true);
    }
  }

  /** Dropping what the participant staged and silencing what is spoken to it starts nothing. */
  lemma SilencesDiscarded(cfg: Config, strict: bool, w: World, seat: Seat, stops: bool)
    requires Inv(cfg, w, strict) && w.At(seat).Some?
    ensures Discarded(w, seat).At(seat).Some?
    ensures var v := Silenced(Discarded(w, seat), seat, stops);
      Inv(cfg, v, strict) && PlainOf(v) == PlainOf(w) && v.At(seat).Some?
  {
    DiscardedKeeps(cfg, strict, w, seat);
    SilencedKeeps(cfg, strict, Discarded(w, seat), seat, stops);
  }

  lemma EmptiedKeeps(cfg: Config, strict: bool, w: World, seat: Seat)
    requires Inv(cfg, w, strict)
    ensures Inv(cfg, w.With(seat, None), strict) && PlainOf(w.With(seat, None)) == PlainOf(w).With(seat, None)
  {
  }

  lemma JoinFollows(cfg: Config, strict: bool, w: World, e: Event)
    requires Inv(cfg, w, strict) && e.Join?
    ensures Inv(cfg, Next(cfg, w, e), strict)
    ensures PlainOf(Next(cfg, w, e)) == PlainNext(cfg, PlainOf(w), e, Accepted(w, e))
  {
  }

  lemma LeaveFollows(cfg: Config, strict: bool, w: World, e: Event)
    requires Inv(cfg, w, strict) && e.Leave?
    ensures Inv(cfg, Next(cfg, w, e), strict)
    ensures PlainOf(Next(cfg, w, e)) == PlainNext(cfg, PlainOf(w), e, Accepted(w, e))
  {
    if w.At(e.seat).Some? {
      SilencesDiscarded(cfg, strict, w, e.seat, e.stops);
      EmptiedKeeps(cfg, strict, Silenced(Discarded(w, e.seat), e.seat, e.stops), e.seat);
    }
  }

  /** What the server and the transcriber report: flags and playback, nothing that is said. */
  lemma PlaybackFollows(cfg: Config, strict: bool, w: World, e: Event)
    requires Inv(cfg, w, strict) && e.PlaybackOver?
    ensures Inv(cfg, Next(cfg, w, e), strict)
    ensures PlainOf(Next(cfg, w, e)) == PlainNext(cfg, PlainOf(w), e, Accepted(w, e))
  {
  }

  lemma ReadyFollows(cfg: Config, strict: bool, w: World, e: Event)
    requires Inv(cfg, w, strict) && e.SynthesisReady?
    ensures Inv(cfg, Next(cfg, w, e), strict)
    ensures PlainOf(Next(cfg, w, e)) == PlainNext(cfg, PlainOf(w), e, Accepted(w, e))
  {
  }

  lemma ForgettingFollows(cfg: Config, strict: bool, w: World, e: Event)
    requires Inv(cfg, w, strict) && e.ServerForgets?
    ensures Inv(cfg, Next(cfg, w, e), strict)
    ensures PlainOf(Next(cfg, w, e)) == PlainNext(cfg, PlainOf(w), e, Accepted(w, e))
  {
  }

  lemma TranscriberFollows(cfg: Config, strict: bool, w: World, e: Event)
    requires Inv(cfg, w, strict) && e.TranscriberRuns?
    ensures Inv(cfg, Next(cfg, w, e), strict)
    ensures PlainOf(Next(cfg, w, e)) == PlainNext(cfg, PlainOf(w), e, Accepted(w, e))
  {
  }

  lemma LanguageFollows(cfg: Config, strict: bool, w: World, e: Event)
    requires Inv(cfg, w, strict) && e.SetLanguage? && (strict ==> LanguageSafe(cfg, w, e))
    ensures Inv(cfg, Next(cfg, w, e), strict)
    ensures PlainOf(Next(cfg, w, e)) == PlainNext(cfg, PlainOf(w), e, Accepted(w, e))
  {
    if w.At(e.seat).Some? {
      var p := w.At(e.seat).value;
      if e.code in cfg.languages && p.lang != e.code {
        ChangeFollows(cfg, strict, w, e.seat, e.code, p.gender);
      }
    }
  }

  lemma GenderFollows(cfg: Config, strict: bool, w: World, e: Event)
    requires Inv(cfg, w, strict) && e.SetGender?
    ensures Inv(cfg, Next(cfg, w, e), strict)
    ensures PlainOf(Next(cfg, w, e)) == PlainNext(cfg, PlainOf(w), e, Accepted(w, e))
  {
    if w.At(e.seat).Some? {
      var p := w.At(e.seat).value;
      ChangeFollows(cfg, strict, w, e.seat, p.lang, e.code);
    }
  }

  lemma NextFollows(cfg: Config, strict: bool, w: World, e: Event)
    requires Inv(cfg, w, strict) && (strict ==> LanguageSafe(cfg, w, e))
    ensures Inv(cfg, Next(cfg, w, e), strict)
    ensures strict ==> PlainOf(Next(cfg, w, e)) == PlainNext(cfg, PlainOf(w), e, Accepted(w, e))
  {
    match e
    case EndOfTurn(_, _, _, _) => EndOfTurnFollows(cfg, strict, w, e);
    case FinalText(_, _, _) => FinalTextFollows(cfg, strict, w, e);
    case EagerEndOfTurn(_, _, _, _) => StagingFollows(cfg, strict, w, e);
    case TurnResumed(_, _) => StagingFollows(cfg, strict, w, e);
    case SweepTick(cutoff) =>
      SweptKeeps(cfg, strict, w, A, cutoff);
      SweptKeeps(cfg, strict, Swept(w, A, cutoff), B, cutoff);
    case SetLanguage(_, _) => LanguageFollows(cfg, strict, w, e);
    case SetGender(_, _) => GenderFollows(cfg, strict, w, e);
    case LegBound(_) => LegBoundFollows(cfg, strict, w, e);
    case LegGone(_) => LegGoneFollows(cfg, strict, w, e);
    case Join(_, _, _) => JoinFollows(cfg, strict, w, e);
    case Leave(_, _) => LeaveFollows(cfg, strict, w, e);
    case PlaybackOver(_, _) => PlaybackFollows(cfg, strict, w, e);
    case SynthesisReady(_, _) => ReadyFollows(cfg, strict, w, e);
    case ServerForgets(_, _) => ForgettingFollows(cfg, strict, w, e);
    case TranscriberRuns(_, _) => TranscriberFollows(cfg, strict, w, e);
  }

  // ---------------------------------------------------------------------------
  // Main results
  // ---------------------------------------------------------------------------

  lemma {:induction false} RunFollows(cfg: Config, w: World, events: seq<Event>)
    requires Inv(cfg, w, true) && LanguageSafeAlong(cfg, w, events)
    ensures PlainOf(Run(cfg, w, events)) == PlainRun(cfg, PlainOf(w), events, AcceptedAlong(cfg, w, events))
    decreases |events|
  {
    if events != [] {
      NextFollows(cfg, true, w, events[0]);
      RunFollows(cfg, Next(cfg, w, events[0]), events[1..]);
    }
  }

  /**
   Speculation is transparent: over every run in which no language changes under
   audio held for that listener, the session starts, utterance by utterance, what
   the plain cascade starts when each utterance is accepted that was accepted here.
   */
  lemma SpeculationIsTransparent(cfg: Config, events: seq<Event>)
    requires LanguageSafeAlong(cfg, EMPTY_WORLD, events)
    ensures PlainOf(Run(cfg, EMPTY_WORLD, events))
      == PlainRun(cfg, PlainOf(EMPTY_WORLD), events, AcceptedAlong(cfg, EMPTY_WORLD, events))
  {
    RunFollows(cfg, EMPTY_WORLD, events);
  }

  /** Translator and server do their part on the slow path of every turn. */
  ghost predicate AlwaysServed(events: seq<Event>) {
    forall i | 0 <= i < |events| && (events[i].EndOfTurn? || events[i].FinalText?) :: SlowPathAccepted(events[i])
  }

  function Always(n: nat): (r: seq<bool>)
    ensures |r| == n && forall i | 0 <= i < n :: r[i]
  {
    seq(n, i => true)
  }

  /** Only turns ask the server for speech, so what it would answer otherwise does not matter. */
  lemma {:induction false} ServedRunsAgree(cfg: Config, w: PlainWorld, events: seq<Event>, r: seq<bool>, q: seq<bool>)
    requires |r| == |events| == |q|
    requires forall i | 0 <= i < |events| && (events[i].EndOfTurn? || events[i].FinalText?) :: r[i] == q[i]
    ensures PlainRun(cfg, w, events, r) == PlainRun(cfg, w, events, q)
    decreases |events|
  {
    if events != [] {
      assert PlainNext(cfg, w, events[0], r[0]) == PlainNext(cfg, w, events[0], q[0]);
      ServedRunsAgree(cfg, PlainNext(cfg, w, events[0], r[0]), events[1..], r[1..], q[1..]);
    }
  }

  lemma {:induction false} AcceptedWhenServed(cfg: Config, w: World, events: seq<Event>)
    requires AlwaysServed(events)
    ensures var r := AcceptedAlong(cfg, w, events);
      forall i | 0 <= i < |events| && (events[i].EndOfTurn? || events[i].FinalText?) :: r[i]
    decreases |events|
  {
    if events != [] {
      forall i | 0 <= i < |events[1..]| ensures events[1..][i] == events[i + 1] {}
      AcceptedWhenServed(cfg, Next(cfg, w, events[0]), events[1..]);
    }
  }

  /** When the slow path would always get through, guesses right or wrong change nothing at all. */
  lemma TransparentWhenServed(cfg: Config, events: seq<Event>)
    requires LanguageSafeAlong(cfg, EMPTY_WORLD, events) && AlwaysServed(events)
    ensures Run(cfg, EMPTY_WORLD, events).server.started
      == PlainRun(cfg, PlainOf(EMPTY_WORLD), events, Always(|events|)).started
  {
    SpeculationIsTransparent(cfg, events);
    AcceptedWhenServed(cfg, EMPTY_WORLD, events);
    ServedRunsAgree(cfg, PlainOf(EMPTY_WORLD), events, AcceptedAlong(cfg, EMPTY_WORLD, events), Always(|events|));
  }

  lemma {:induction false} RunKeeps(cfg: Config, w: World, events: seq<Event>)
    requires Inv(cfg, w, false)
    ensures Inv(cfg, Run(cfg, w, events), false)
    decreases |events|
  {
    if events != [] {
      NextFollows(cfg, false, w, events[0]);
      RunKeeps(cfg, Next(cfg, w, events[0]), events[1..]);
    }
  }

  // ---------------------------------------------------------------------------
  // When a listener changes language
  // ---------------------------------------------------------------------------

  /** Whatever happens from here without another unsafe language change is what the plain cascade does. */
  ghost predicate StaysTransparent(cfg: Config, w: World) {
    forall events | LanguageSafeAlong(cfg, w, events) ::
      PlainOf(Run(cfg, w, events)) == PlainRun(cfg, PlainOf(w), events, AcceptedAlong(cfg, w, events))
  }

  const LUCKY := Luck(true, true, true, true, true, 0)

  /** The peer gets a fresh leg and ends the turn in the very words that were guessed. */
  function Exposing(speaker: Seat, turn: int, src: string): seq<Event> {
    [LegBound(speaker), EndOfTurn(speaker, turn, src, LUCKY)]
  }

  lemma ExposingIsSafe(cfg: Config, w: World, speaker: Seat, turn: int, src: string)
    ensures LanguageSafeAlong(cfg, w, Exposing(speaker, turn, src))
  {
    var events := Exposing(speaker, turn, src);
    var w1 := Next(cfg, w, events[0]);
    var w2 := Next(cfg, w1, events[1]);
    assert events[1..] == [events[1]] && events[1..][1..] == [];
    assert LanguageSafeAlong(cfg, w2, []);
    assert LanguageSafeAlong(cfg, w1, events[1..]);
  }

  lemma RunOfTwo(cfg: Config, w: World, events: seq<Event>)
    requires |events| == 2
    ensures Run(cfg, w, events) == Next(cfg, Next(cfg, w, events[0]), events[1])
    ensures var r := AcceptedAlong(cfg, w, events);
      && r == [Accepted(w, events[0]), Accepted(Next(cfg, w, events[0]), events[1])]
      && PlainRun(cfg, PlainOf(w), events, r) ==
        PlainNext(cfg, PlainNext(cfg, PlainOf(w), events[0], r[0]), events[1], r[1])
  {
    var w1 := Next(cfg, w, events[0]);
    assert events[1..] == [events[1]] && events[1..][1..] == [];
    assert Run(cfg, w1, events[1..]) == Next(cfg, w1, events[1]);
    var r := AcceptedAlong(cfg, w, events);
    assert r[1..] == [r[1]] && r[1..][1..] == [];
    var p1 := PlainNext(cfg, PlainOf(w), events[0], r[0]);
    assert PlainRun(cfg, p1, events[1..], r[1..]) ==
      PlainRun(cfg, PlainNext(cfg, p1, events[1], r[1]), events[1..][1..], r[1..][1..]);
  }

  /** A turn whose staged audio is committed starts what the server held. */
  lemma CommittedTurnStarts(cfg: Config, x: Trio, turn: int, text: string, luck: Luck)
    requires Commits(x, turn, text, luck)
    ensures FinishTurn(cfg, x, turn, text, luck).server.started ==
      x.server.started
        + [Start(x.listener.leg.value, x.server.staged[(x.listener.leg.value, x.speaker.desk.staged[turn].ttsID)])]
  {
  }

  /** Held audio that is no longer the translation is spoken as it is, where the plain cascade translates anew. */
  lemma UnfaithfulAudioIsSpoken(cfg: Config, w: World, seat: Seat, turn: int)
    requires w.a.Some? && w.b.Some? && w.At(seat).value.leg.Some?
    requires var sp, ls := w.At(Other(seat)).value, w.At(seat).value;
      && turn in sp.desk.staged && IsTrimmed(sp.desk.staged[turn].src)
      && (ls.leg.value, sp.desk.staged[turn].ttsID) in w.server.staged
      && w.server.staged[(ls.leg.value, sp.desk.staged[turn].ttsID)] != Payload(cfg, sp, ls, sp.desk.staged[turn].src)
    ensures !StaysTransparent(cfg, w)
  {
    var peer := Other(seat);
    var st := w.At(peer).value.desk.staged[turn];
    var events := Exposing(peer, turn, st.src);
    var w1 := Next(cfg, w, events[0]);
    assert Commits(w1.Facing(peer), turn, st.src, LUCKY);
    CommittedTurnStarts(cfg, w1.Facing(peer), turn, st.src, LUCKY);
    ExposingIsSafe(cfg, w, peer, turn, st.src);
    RunOfTwo(cfg, w, events);
    var r := AcceptedAlong(cfg, w, events);
    assert PlainNext(cfg, PlainOf(w), events[0], r[0]) == PlainOf(w1);
    var held := w.server.staged[(w.At(seat).value.leg.value, st.ttsID)];
    var owed := Payload(cfg, w.At(peer).value, w.At(seat).value, st.src);
    assert Run(cfg, w, events).server.started == w1.server.started + [Start(w.At(seat).value.leg.value, held)];
    assert r[1] == Accepted(w1, events[1]);
    assert PlainNext(cfg, PlainOf(w1), events[1], true).started == w1.server.started
      + [Start(w.At(seat).value.leg.value, owed)];
    assert Run(cfg, w, events).server.started[|w1.server.started|] != PlainNext(cfg, PlainOf(w1), events[1],
      true).started[|w1.server.started|];
  }

  /** setLanguage leaves alone what is held for the participant that changes. */
  lemma HeldAcrossChange(cfg: Config, w: World, seat: Seat, code: Lang)
    requires Inv(cfg, w, true) && w.a.Some? && w.b.Some?
    requires code in cfg.languages && code != w.At(seat).value.lang
    ensures var v := Next(cfg, w, SetLanguage(seat, code));
      && v.a.Some? && v.b.Some?
      && v.At(Other(seat)) == w.At(Other(seat))
      && v.At(seat).value.lang == code && v.At(seat).value.leg == w.At(seat).value.leg
      && (forall k | k in w.server.staged && w.At(seat).value.leg == Some(k.0) ::
        k in v.server.staged && v.server.staged[k] == w.server.staged[k])
  {
  }

  /**
   A listener may change language exactly when everything held for it translates alike
   into the old and the new one: then, and only then, the session still follows the
   plain cascade whatever comes.
   */
  lemma ListenerLanguageChange(cfg: Config, w: World, seat: Seat, code: Lang)
    requires Inv(cfg, w, true) && w.a.Some? && w.b.Some?
    requires code in cfg.languages && code != w.At(seat).value.lang
    ensures StaysTransparent(cfg, Next(cfg, w, SetLanguage(seat, code)))
      <==> HeldAlike(cfg, w.At(seat).value, w.At(Other(seat)).value, w.server, code)
  {
    var e := SetLanguage(seat, code);
    var ls, sp := w.At(seat).value, w.At(Other(seat)).value;
    if HeldAlike(cfg, ls, sp, w.server, code) {
      NextFollows(cfg, true, w, e);
      forall events | LanguageSafeAlong(cfg, Next(cfg, w, e), events)
        ensures PlainOf(Run(cfg, Next(cfg, w, e), events))
          == PlainRun(cfg, PlainOf(Next(cfg, w, e)), events, AcceptedAlong(cfg, Next(cfg, w, e), events))
      {
        RunFollows(cfg, Next(cfg, w, e), events);
      }
    } else {
      var t :| IsHeld(ls, sp, w.server, t)
        && cfg.translate(sp.desk.staged[t].src, sp.lang, code) != cfg.translate(sp.desk.staged[t].src, sp.lang,
          ls.lang);
      HeldAcrossChange(cfg, w, seat, code);
      UnfaithfulAudioIsSpoken(cfg, Next(cfg, w, e), seat, t);
    }
  }
}
