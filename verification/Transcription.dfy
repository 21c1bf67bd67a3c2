/**
 startSTT and its helpers in their own form (cmd/interpreter/media.go): one handler
 run from end to end on the participant's fields and the server, with what another
 handler may do while mu is released, a change of the selected language during each
 dial, given from outside. Reconciler has every interleaving.
 */
module Transcription {
  import opened Options
  import opened Reconciler

  /** The participant's fields under mu. */
  class Participant {
    var lang: Lang
    var legID: Option<LegId>
    var live: bool
    var sttOn: bool
    var sttLang: Lang

    constructor (lang: Lang)
      ensures this.lang == lang && legID == None && !live && !sttOn
    {
      this.lang, legID, live, sttOn, sttLang := lang, None, false, false, "";
    }
  }

  /** The transcriber attached to each leg. */
  class SttServer {
    var attached: map<LegId, Lang>

    constructor ()
      ensures attached == map[]
    {
      attached := map[];
    }

    /** Refused with a conflict while a transcriber is attached, or for a reason of the server's own. */
    method LegSTTStart(leg: LegId, lang: Lang, willing: bool) returns (ok: bool, conflict: bool)
      modifies this
      ensures ok == (willing && leg !in old(attached)) && conflict == (willing && leg in old(attached))
      ensures attached == if ok then old(attached)[leg := lang] else old(attached)
    {
      ok, conflict := willing && leg !in attached, willing && leg in attached;
      if ok {
        attached := attached[leg := lang];
      }
    }

    method LegSTTStop(leg: LegId, willing: bool)
      modifies this
      ensures attached == if willing then old(attached) - {leg} else old(attached)
    {
      if willing {
        attached := attached - {leg};
      }
    }
  }

  /** How one pass of startSTT goes: the server's answers, and a language selected meanwhile. */
  datatype Pass = Pass(known: bool, stops: bool, starts: bool, stopsAgain: bool, startsAgain: bool,
    selected: Option<Lang>)

  /** A pass in which whatever is asked of the server works. */
  predicate Smooth(pass: Pass) {
    pass.known && pass.stops && pass.starts && pass.stopsAgain && pass.startsAgain
  }

  /** What is marked is attached, and attached to the live leg. */
  ghost predicate MarkedOn(p: Participant, server: SttServer)
    reads p, server
  {
    p.sttOn ==>
      && p.legID.Some? && p.live
      && p.legID.value in server.attached && server.attached[p.legID.value] == p.sttLang
  }

  class MediaManager {
    const server: SttServer

    constructor (server: SttServer)
      ensures this.server == server
    {
      this.server := server;
    }

    method StopSTTOnLeg(p: Participant, leg: LegId, willing: bool)
      modifies p`sttOn, p`sttLang, server
      ensures !p.sttOn && p.sttLang == ""
      ensures server.attached == if willing then old(server.attached) - {leg} else old(server.attached)
    {
      p.sttOn, p.sttLang := false, "";
      server.LegSTTStop(leg, willing);
    }

    /** Starts the transcriber, replacing one already attached; afterwards nothing else is marked. */
    method DialSTT(p: Participant, leg: LegId, lang: Lang, pass: Pass) returns (ok: bool)
      requires !p.sttOn
      modifies p`sttOn, p`sttLang, server
      ensures ok ==> p.sttOn && p.sttLang == lang && leg in server.attached && server.attached[leg] == lang
      ensures !ok ==> !p.sttOn
      ensures Smooth(pass) ==> ok
    {
      if !pass.known {
        return false;
      }
      var conflict;
      ok, conflict := server.LegSTTStart(leg, lang, pass.starts);
      if !ok && conflict {
        StopSTTOnLeg(p, leg, pass.stopsAgain);
        ok, conflict := server.LegSTTStart(leg, lang, pass.startsAgain);
      }
      if ok {
        p.sttOn, p.sttLang := true, lang;
      } else {
        p.sttOn, p.sttLang := false, "";
      }
    }

    /**
     Two passes follow one change of language made while dialling. Only a change
     during each of them leaves the older language running, and whoever made the
     last change comes after with a startSTT of their own.
     */
    method StartSTT(p: Participant, passes: seq<Pass>)
      requires |passes| == ATTEMPTS && MarkedOn(p, server)
      modifies p`lang, p`sttOn, p`sttLang, server
      ensures MarkedOn(p, server)
      ensures p.sttOn && p.sttLang != p.lang ==> passes[0].selected.Some? && passes[1].selected.Some?
      ensures p.legID.Some? && p.live && Smooth(passes[0]) && Smooth(passes[1]) ==> p.sttOn
      ensures p.legID.None? || !p.live || (old(p.sttOn) && old(p.sttLang) == old(p.lang)) ==>
        p.lang == old(p.lang) && p.sttOn == old(p.sttOn) && p.sttLang == old(p.sttLang) &&
          server.attached == old(server.attached)
    {
      for attempt := 0 to ATTEMPTS
        invariant MarkedOn(p, server)
        invariant attempt == 0 ==>
          && p.lang == old(p.lang) && p.sttOn == old(p.sttOn) && p.sttLang == old(p.sttLang)
          && server.attached == old(server.attached)
        invariant attempt > 0 ==> p.sttOn && p.legID.Some? && p.live && !(old(p.sttOn) && old(p.sttLang) == old(p.lang))
        invariant forall i | 0 <= i < attempt :: passes[i].selected.Some?
      {
        var want := p.lang;
        if p.legID.None? || !p.live {
          return;
        }
        if p.sttOn && p.sttLang == want {
          return;
        }
        var leg := p.legID.value;
        var pass := passes[attempt];
        if p.sttOn {
          StopSTTOnLeg(p, leg, pass.stops);
        }
        var ok := DialSTT(p, leg, want, pass);
        if pass.selected.Some? {
          p.lang := pass.selected.value;
        }
        if !ok || p.lang == want {
          return;
        }
      }
    }
  }
}
