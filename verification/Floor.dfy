/**
 Push-to-talk floor control (cmd/ptt/floor.go, presence.go, ptt.go): one speaker at a
 time in each room, media only while somebody speaks. Every handler is one step, except
 that the second half of a release is also told apart: there, the floor is free before
 the media is gone.
 */
module Floor {
  import opened Options

  type Sid = nat     // one connected browser
  type Leg = string
  type Room = string

  datatype Role = NoRole | Speaker | Listener

  datatype Session = Session(room: Room, role: Role, leg: Option<Leg>)

  /** A leg that the media server has in a room. */
  datatype Media = Media(room: Room, muted: bool)

  datatype Ptt = Ptt(
    sessions: map<Sid, Session>,    // who is present
    active: map<Room, Sid>,         // who holds the floor
    byLeg: map<Leg, Sid>,
    rooms: set<Room>,               // media rooms at the server
    media: map<Leg, Media>)

  datatype Event =
    | Join(sid: Sid, room: Room)
    | Press(sid: Sid, roomOk: bool)
    | Release(sid: Sid)
    | Offer(sid: Sid, sdp: string, leg: Option<Leg>, added: bool)
    | LegGone(gone: Leg)
    | Leave(sid: Sid)

  // ---------------------------------------------------------------------------
  // The handlers
  // ---------------------------------------------------------------------------

  predicate Holds(p: Ptt, sid: Sid) {
    sid in p.sessions && p.sessions[sid].room in p.active && p.active[p.sessions[sid].room] == sid
  }

  function WithRole(s: Session, role: Role): Session {
    s.(role := role)
  }

  /** A new browser; it listens if somebody is speaking. */
  function OnJoin(p: Ptt, sid: Sid, room: Room): Ptt {
    if sid in p.sessions then p
    else p.(sessions := p.sessions[sid := Session(room, if room in p.active then Listener else NoRole, None)])
  }

  /** The floor is granted: the holder speaks and everybody else in the room listens. */
  function Granted(sessions: map<Sid, Session>, room: Room, holder: Sid): map<Sid, Session> {
    map sid | sid in sessions ::
      if sessions[sid].room == room then WithRole(sessions[sid], if sid == holder then Speaker else Listener)
        else sessions[sid]
  }

  function OnPress(p: Ptt, sid: Sid, roomOk: bool): Ptt {
    if sid !in p.sessions then p
    else
      var room := p.sessions[sid].room;
      if room in p.active || !roomOk then p
      else p.(active := p.active[room := sid], rooms := p.rooms + {room}, sessions := Granted(p.sessions, room, sid))
  }

  function Silenced(sessions: map<Sid, Session>, room: Room): map<Sid, Session> {
    map sid | sid in sessions :: if sessions[sid].room == room then Session(room, NoRole, None) else sessions[sid]
  }

  /** The legs of a room's members. */
  function LegsIn(sessions: map<Sid, Session>, room: Room): set<Leg> {
    set sid | sid in sessions && sessions[sid].room == room && sessions[sid].leg.Some? :: sessions[sid].leg.value
  }

  /** Every leg of the room's members and the media room with all it holds are deleted, and all roles end. */
  function Teardown(p: Ptt, room: Room): Ptt {
    var legs := LegsIn(p.sessions, room);
    p.(sessions := Silenced(p.sessions, room),
       byLeg := p.byLeg - legs,
       rooms := p.rooms - {room},
       media := map leg | leg in p.media && leg !in legs && p.media[leg].room != room :: p.media[leg])
  }

  /** The first half of the end of a burst: the floor is free. */
  function FreeFloor(p: Ptt, room: Room): Ptt {
    p.(active := p.active - {room})
  }

  function EndBurst(p: Ptt, sid: Sid): Ptt {
    if Holds(p, sid) then Teardown(FreeFloor(p, p.sessions[sid].room), p.sessions[sid].room) else p
  }

  /** Takes a session's leg from it. */
  function Unbound(p: Ptt, sid: Sid): Ptt
    requires sid in p.sessions
  {
    var s := p.sessions[sid];
    p.(byLeg := if s.leg.Some? then p.byLeg - {s.leg.value} else p.byLeg,
       sessions := p.sessions[sid := s.(leg := None)])
  }

  function Bound(p: Ptt, sid: Sid, leg: Leg): Ptt
    requires sid in p.sessions
  {
    var p' := Unbound(p, sid);
    p'.(byLeg := p'.byLeg[leg := sid], sessions := p'.sessions[sid := p'.sessions[sid].(leg := Some(leg))])
  }

  /** A browser offers media: the leg is muted unless the browser speaks. */
  function OnOffer(p: Ptt, sid: Sid, sdp: string, leg: Option<Leg>, added: bool): Ptt {
    if sid !in p.sessions || sdp == "" || p.sessions[sid].role == NoRole || leg.None? then p
    else
      var s := p.sessions[sid];
      var p' := Bound(p, sid, leg.value);
      if added && s.room in p.rooms then p'.(media := p'.media[leg.value := Media(s.room, s.role == Listener)]) else p'
  }

  function OnLegGone(p: Ptt, leg: Leg): Ptt {
    var p' := p.(media := p.media - {leg});
    if leg !in p.byLeg || p.byLeg[leg] !in p.sessions then p' else EndBurst(Unbound(p', p.byLeg[leg]), p.byLeg[leg])
  }

  function Removed(p: Ptt, sid: Sid): Ptt {
    p.(sessions := p.sessions - {sid})
  }

  function OnLeave(p: Ptt, sid: Sid): Ptt {
    if sid !in p.sessions then p
    else if Holds(p, sid) then Removed(EndBurst(p, sid), sid)
    else
      var leg := p.sessions[sid].leg;
      var p' := Unbound(p, sid);
      Removed(if leg.Some? then p'.(media := p'.media - {leg.value}) else p', sid)
  }

  function Next(p: Ptt, e: Event): Ptt {
    match e
    case Join(sid, room) => OnJoin(p, sid, room)
    case Press(sid, roomOk) => OnPress(p, sid, roomOk)
    case Release(sid) => EndBurst(p, sid)
    case Offer(sid, sdp, leg, added) => OnOffer(p, sid, sdp, leg, added)
    case LegGone(leg) => OnLegGone(p, leg)
    case Leave(sid) => OnLeave(p, sid)
  }

  const NOBODY := Ptt(map[], map[], map[], {}, map[])

  function Run(p: Ptt, events: seq<Event>): Ptt
    decreases |events|
  {
    if events == [] then p else Next(Run(p, events[..|events| - 1]), events[|events| - 1])
  }

  /** The server never hands out a leg that is still in use. */
  predicate FreshLeg(p: Ptt, e: Event) {
    e.Offer? && e.leg.Some? ==> e.leg.value !in p.byLeg && e.leg.value !in p.media
  }

  predicate FreshLegs(p: Ptt, events: seq<Event>)
    decreases |events|
  {
    events == [] || (
      var before := events[..|events| - 1];
      FreshLegs(p, before) && FreshLeg(Run(p, before), events[|events| - 1]))
  }

  // ---------------------------------------------------------------------------
  // The invariant, but for rooms where something is still to be torn down
  // ---------------------------------------------------------------------------

  /** Legs and sessions lead to each other. */
  ghost predicate LegsAgree(p: Ptt) {
    && (forall leg | leg in p.byLeg :: p.byLeg[leg] in p.sessions && p.sessions[p.byLeg[leg]].leg == Some(leg))
    && (forall sid | sid in p.sessions && p.sessions[sid].leg.Some? ::
          p.sessions[sid].leg.value in p.byLeg && p.byLeg[p.sessions[sid].leg.value] == sid)
  }

  /** The role and leg a session has: without a burst none; in a burst the holder speaks and the others listen. */
  predicate Fits(p: Ptt, sid: Sid)
    requires sid in p.sessions
  {
    var s := p.sessions[sid];
    if s.room !in p.active then s.role == NoRole && s.leg == None
    else s.role == if p.active[s.room] == sid then Speaker else Listener
  }

  /** A bound leg is in its session's room, and un-muted only if the session holds the floor. */
  predicate MediaFits(p: Ptt, leg: Leg)
    requires leg in p.byLeg && leg in p.media && p.byLeg[leg] in p.sessions
  {
    var s := p.sessions[p.byLeg[leg]];
    p.media[leg].room == s.room && (!p.media[leg].muted ==> Holds(p, p.byLeg[leg]))
  }

  ghost predicate InvBut(p: Ptt, torn: set<Room>) {
    && LegsAgree(p)
    && (forall sid | sid in p.sessions && p.sessions[sid].room !in torn :: Fits(p, sid))
    && (forall room | room in p.active && room !in torn ::
      p.active[room] in p.sessions && p.sessions[p.active[room]].room == room)
    && (forall room | room !in torn :: room in p.rooms <==> room in p.active)
    && (forall leg | leg in p.media :: p.media[leg].room in p.rooms)
    && (forall leg | leg in p.byLeg && leg in p.media && p.sessions[p.byLeg[leg]].room !in torn :: MediaFits(p, leg))
  }

  ghost predicate Inv(p: Ptt) {
    InvBut(p, {})
  }

  lemma JoinKeeps(p: Ptt, sid: Sid, room: Room, torn: set<Room>)
    requires InvBut(p, torn)
    ensures InvBut(OnJoin(p, sid, room), torn)
  {
  }

  lemma PressKeeps(p: Ptt, sid: Sid, roomOk: bool, torn: set<Room>)
    requires InvBut(p, torn)
    ensures InvBut(OnPress(p, sid, roomOk), torn)
  {
  }

  lemma OthersLegsStay(p: Ptt, room: Room, sid: Sid)
    requires LegsAgree(p) && sid in p.sessions && p.sessions[sid].leg.Some? && p.sessions[sid].room != room
    ensures p.sessions[sid].leg.value !in LegsIn(p.sessions, room)
  {
    forall other | other in p.sessions && p.sessions[other].leg == p.sessions[sid].leg ensures other == sid {
      assert p.byLeg[p.sessions[sid].leg.value] == other;
    }
  }

  lemma TeardownLegsAgree(p: Ptt, room: Room)
    requires LegsAgree(p)
    ensures LegsAgree(Teardown(p, room))
    ensures forall leg | leg in Teardown(p, room).byLeg :: p.sessions[p.byLeg[leg]].room != room
  {
    var q := Teardown(p, room);
    forall leg | leg in q.byLeg
      ensures p.sessions[p.byLeg[leg]].room != room && q.sessions[q.byLeg[leg]].leg == Some(leg)
    {
      assert p.sessions[p.byLeg[leg]].leg == Some(leg);
    }
    forall sid | sid in q.sessions && q.sessions[sid].leg.Some?
      ensures q.sessions[sid].leg.value in q.byLeg && q.byLeg[q.sessions[sid].leg.value] == sid
    {
      assert q.sessions[sid] == p.sessions[sid];
      OthersLegsStay(p, room, sid);
    }
  }

  /** Tearing a free room down makes it fit again. */
  lemma TeardownMends(p: Ptt, room: Room, torn: set<Room>)
    requires InvBut(p, torn + {room}) && room !in p.active
    ensures InvBut(Teardown(p, room), torn - {room})
  {
    TeardownLegsAgree(p, room);
  }

  lemma FreeFloorTears(p: Ptt, room: Room, torn: set<Room>)
    requires InvBut(p, torn)
    ensures InvBut(FreeFloor(p, room), torn + {room})
  {
  }

  lemma EndBurstKeeps(p: Ptt, sid: Sid, torn: set<Room>)
    requires InvBut(p, torn)
    ensures InvBut(EndBurst(p, sid), torn)
  {
    if Holds(p, sid) {
      var room := p.sessions[sid].room;
      FreeFloorTears(p, room, torn);
      TeardownMends(FreeFloor(p, room), room, torn);
      Widen(EndBurst(p, sid), torn - {room}, torn);
    }
  }

  lemma Widen(p: Ptt, less: set<Room>, torn: set<Room>)
    requires InvBut(p, less) && less <= torn
    ensures InvBut(p, torn)
  {
  }

  lemma UnboundKeeps(p: Ptt, sid: Sid, torn: set<Room>)
    requires InvBut(p, torn) && sid in p.sessions
    ensures InvBut(Unbound(p, sid), torn)
  {
  }

  lemma BoundKeeps(p: Ptt, sid: Sid, leg: Leg, torn: set<Room>)
    requires InvBut(p, torn) && sid in p.sessions && leg !in p.byLeg && leg !in p.media
    requires p.sessions[sid].role != NoRole
    ensures InvBut(Bound(p, sid, leg), torn)
  {
    var p' := Unbound(p, sid);
    UnboundKeeps(p, sid, torn);
    assert p'.sessions[sid].leg == None && leg !in p'.byLeg && leg !in p'.media;
    BindingKeeps(p', sid, leg, torn);
  }

  lemma BindingKeeps(p: Ptt, sid: Sid, leg: Leg, torn: set<Room>)
    requires InvBut(p, torn) && sid in p.sessions && leg !in p.byLeg && leg !in p.media
    requires p.sessions[sid].role != NoRole && p.sessions[sid].leg == None
    ensures InvBut(p.(byLeg := p.byLeg[leg := sid],
      sessions := p.sessions[sid := p.sessions[sid].(leg := Some(leg))]), torn)
  {
  }

  lemma AddedKeeps(p: Ptt, sid: Sid, leg: Leg, torn: set<Room>)
    requires InvBut(p, torn) && sid in p.sessions && p.sessions[sid].leg == Some(leg) && leg !in p.media
    requires p.sessions[sid].role != NoRole && p.sessions[sid].room in p.rooms
    ensures InvBut(p.(media := p.media[leg := Media(p.sessions[sid].room, p.sessions[sid].role == Listener)]), torn)
  {
  }

  lemma OfferKeeps(p: Ptt, sid: Sid, sdp: string, leg: Option<Leg>, added: bool, torn: set<Room>)
    requires InvBut(p, torn) && (leg.Some? ==> leg.value !in p.byLeg && leg.value !in p.media)
    ensures InvBut(OnOffer(p, sid, sdp, leg, added), torn)
  {
    if sid in p.sessions && sdp != "" && p.sessions[sid].role != NoRole && leg.Some? {
      BoundKeeps(p, sid, leg.value, torn);
      if added && p.sessions[sid].room in p.rooms {
        AddedKeeps(Bound(p, sid, leg.value), sid, leg.value, torn);
      }
    }
  }

  lemma MediaGoneKeeps(p: Ptt, leg: Leg)
    requires Inv(p)
    ensures Inv(p.(media := p.media - {leg}))
  {
  }

  lemma LegGoneKeeps(p: Ptt, leg: Leg, torn: set<Room>)
    requires InvBut(p, torn)
    ensures InvBut(OnLegGone(p, leg), torn)
  {
    var p' := p.(media := p.media - {leg});
    assert InvBut(p', torn);
    if leg in p.byLeg {
      UnboundKeeps(p', p.byLeg[leg], torn);
      EndBurstKeeps(Unbound(p', p.byLeg[leg]), p.byLeg[leg], torn);
    }
  }

  /** Somebody without a leg, who holds no floor, may go. */
  lemma RemovedKeeps(p: Ptt, sid: Sid, torn: set<Room>)
    requires InvBut(p, torn) && sid in p.sessions && p.sessions[sid].leg == None && !Holds(p, sid)
    ensures InvBut(Removed(p, sid), torn)
  {
  }

  lemma LeaveKeeps(p: Ptt, sid: Sid, torn: set<Room>)
    requires InvBut(p, torn)
    ensures InvBut(OnLeave(p, sid), torn)
  {
    if sid in p.sessions {
      if Holds(p, sid) {
        EndBurstKeeps(p, sid, torn);
        RemovedKeeps(EndBurst(p, sid), sid, torn);
      } else {
        UnboundKeeps(p, sid, torn);
        var p' := Unbound(p, sid);
        var leg := p.sessions[sid].leg;
        var p2 := if leg.Some? then p'.(media := p'.media - {leg.value}) else p';
        assert InvBut(p2, torn);
        RemovedKeeps(p2, sid, torn);
      }
    }
  }

  lemma NextKeeps(p: Ptt, e: Event, torn: set<Room>)
    requires InvBut(p, torn) && FreshLeg(p, e)
    ensures InvBut(Next(p, e), torn)
  {
    match e
    case Join(sid, room) => JoinKeeps(p, sid, room, torn);
    case Press(sid, roomOk) => PressKeeps(p, sid, roomOk, torn);
    case Release(sid) => EndBurstKeeps(p, sid, torn);
    case Offer(sid, sdp, leg, added) => OfferKeeps(p, sid, sdp, leg, added, torn);
    case LegGone(leg) => LegGoneKeeps(p, leg, torn);
    case Leave(sid) => LeaveKeeps(p, sid, torn);
  }

  lemma {:induction false} RunKeeps(p: Ptt, events: seq<Event>, torn: set<Room>)
    requires InvBut(p, torn) && FreshLegs(p, events)
    ensures InvBut(Run(p, events), torn)
    decreases |events|
  {
    if events != [] {
      RunKeeps(p, events[..|events| - 1], torn);
      NextKeeps(Run(p, events[..|events| - 1]), events[|events| - 1], torn);
    }
  }

  // ---------------------------------------------------------------------------
  // Main results
  // ---------------------------------------------------------------------------

  /**
   In every reachable state: a room's only speaker is the present holder of its burst,
   everybody else there listens; without a burst nobody has a role or a leg and there is
   no media room; whoever is heard holds the floor; legs and sessions lead to each other.
   */
  lemma OneSpeaker(events: seq<Event>)
    requires FreshLegs(NOBODY, events)
    ensures var p := Run(NOBODY, events);
      && LegsAgree(p)
      && (forall sid | sid in p.sessions :: p.sessions[sid].role == Speaker <==> Holds(p, sid))
      && (forall sid | sid in p.sessions :: p.sessions[sid].role == Listener <==>
        p.sessions[sid].room in p.active && !Holds(p, sid))
      && (forall sid | sid in p.sessions && p.sessions[sid].room !in p.active :: p.sessions[sid].leg == None)
      && (forall room | room in p.active :: Holds(p, p.active[room]) && p.sessions[p.active[room]].room == room)
      && p.rooms == p.active.Keys
      && (forall leg | leg in p.byLeg && leg in p.media && !p.media[leg].muted :: Holds(p, p.byLeg[leg]))
  {
    RunKeeps(NOBODY, events, {});
    var p := Run(NOBODY, events);
    forall sid | sid in p.sessions ensures Fits(p, sid) {
    }
    forall room ensures room in p.rooms <==> room in p.active {
      assert room !in {};
    }
    forall leg | leg in p.byLeg && leg in p.media && !p.media[leg].muted ensures Holds(p, p.byLeg[leg]) {
      assert MediaFits(p, leg);
    }
  }

  /** Every leg the server has in a room is some session's. */
  ghost predicate AllBound(p: Ptt) {
    forall leg | leg in p.media :: leg in p.byLeg
  }

  /** A browser offers a new leg although the server still has its old one in the room. */
  predicate OffersAgain(p: Ptt, e: Event) {
    && e.Offer? && e.sid in p.sessions && e.sdp != "" && p.sessions[e.sid].role != NoRole && e.leg.Some?
    && p.sessions[e.sid].leg.Some? && p.sessions[e.sid].leg.value in p.media
  }

  predicate NoSecondOffers(p: Ptt, events: seq<Event>)
    decreases |events|
  {
    events == [] || (
      var before := events[..|events| - 1];
      NoSecondOffers(p, before) && !OffersAgain(Run(p, before), events[|events| - 1]))
  }

  lemma TeardownKeepsBound(p: Ptt, room: Room)
    requires InvBut(p, {room}) && AllBound(p)
    ensures AllBound(Teardown(p, room))
  {
  }

  lemma EndBurstKeepsBound(p: Ptt, sid: Sid)
    requires Inv(p) && AllBound(p)
    ensures AllBound(EndBurst(p, sid))
  {
    if Holds(p, sid) {
      FreeFloorTears(p, p.sessions[sid].room, {});
      assert {} + {p.sessions[sid].room} == {p.sessions[sid].room};
      TeardownKeepsBound(FreeFloor(p, p.sessions[sid].room), p.sessions[sid].room);
    }
  }

  lemma LegGoneKeepsBound(p: Ptt, leg: Leg)
    requires Inv(p) && AllBound(p)
    ensures AllBound(OnLegGone(p, leg))
  {
    var p' := p.(media := p.media - {leg});
    MediaGoneKeeps(p, leg);
    if leg in p.byLeg {
      UnboundKeeps(p', p.byLeg[leg], {});
      EndBurstKeepsBound(Unbound(p', p.byLeg[leg]), p.byLeg[leg]);
    }
  }

  /** An offer leaves a leg in the room that is nobody's exactly when it is a second one. */
  lemma OfferKeepsBoundIff(p: Ptt, e: Event)
    requires Inv(p) && AllBound(p) && e.Offer? && FreshLeg(p, e)
    ensures AllBound(Next(p, e)) <==> !OffersAgain(p, e)
  {
    if OffersAgain(p, e) {
      var was := p.sessions[e.sid].leg.value;
      assert was in Next(p, e).media && was !in Next(p, e).byLeg;
    }
  }

  lemma NextKeepsBound(p: Ptt, e: Event)
    requires Inv(p) && AllBound(p) && FreshLeg(p, e) && !OffersAgain(p, e)
    ensures AllBound(Next(p, e))
  {
    match e
    case Release(sid) => EndBurstKeepsBound(p, sid);
    case Offer(_, _, _, _) => OfferKeepsBoundIff(p, e);
    case LegGone(leg) => LegGoneKeepsBound(p, leg);
    case Leave(sid) => if Holds(p, sid) { EndBurstKeepsBound(p, sid); }
    case _ =>
  }

  lemma {:induction false} RunKeepsBound(events: seq<Event>)
    requires FreshLegs(NOBODY, events) && NoSecondOffers(NOBODY, events)
    ensures AllBound(Run(NOBODY, events))
    decreases |events|
  {
    if events != [] {
      var before := events[..|events| - 1];
      RunKeepsBound(before);
      RunKeeps(NOBODY, before, {});
      NextKeepsBound(Run(NOBODY, before), events[|events| - 1]);
    }
  }

  /**
   As long as nobody offers a second leg during a burst, whatever un-muted leg the server has in a
   room at all is the holder's.
   */
  lemma OnlyTheHolderIsHeard(events: seq<Event>, leg: Leg)
    requires FreshLegs(NOBODY, events) && NoSecondOffers(NOBODY, events)
    requires leg in Run(NOBODY, events).media && !Run(NOBODY, events).media[leg].muted
    ensures var p := Run(NOBODY, events);
      leg in p.byLeg && Holds(p, p.byLeg[leg]) && p.media[leg].room == p.sessions[p.byLeg[leg]].room
  {
    RunKeepsBound(events);
    RunKeeps(NOBODY, events, {});
    assert MediaFits(Run(NOBODY, events), leg);
  }

  /** Tearing a room down that is held leaves its holder without a role. */
  lemma TeardownBreaks(p: Ptt, room: Room)
    requires room in p.active
    ensures !Inv(Teardown(p, room))
  {
    var t := Teardown(p, room);
    var holder := t.active[room];
    if holder in t.sessions && t.sessions[holder].room == room {
      assert !Fits(t, holder);
    }
  }

  /**
   The holder frees the floor, other handlers run, and only then is the room torn down:
   everything fits afterwards if and only if nobody has taken the floor meanwhile.
   */
  lemma LateTeardownFitsIff(p: Ptt, room: Room, events: seq<Event>)
    requires Inv(p) && FreshLegs(FreeFloor(p, room), events)
    ensures var q := Run(FreeFloor(p, room), events); Inv(Teardown(q, room)) <==> room !in q.active
  {
    FreeFloorTears(p, room, {});
    assert {} + {room} == {room};
    RunKeeps(FreeFloor(p, room), events, {room});
    var q := Run(FreeFloor(p, room), events);
    if room !in q.active {
      TeardownMends(q, room, {});
      assert {} - {room} == {};
    } else {
      TeardownBreaks(q, room);
    }
  }

  lemma TwoInARoom(room: Room)
    ensures Run(NOBODY, [Join(0, room), Join(1, room), Press(0, true)]) ==
      Ptt(map[0 := Session(room, Speaker, None), 1 := Session(room, Listener, None)], map[room := 0], map[], {room},
        map[])
  {
    var events := [Join(0, room), Join(1, room), Press(0, true)];
    assert events[..2] == [Join(0, room), Join(1, room)] && events[..2][..1] == [Join(0, room)] &&
      events[..1][..0] == [];
    assert Run(NOBODY, events[..1]) == Next(Run(NOBODY, []), Join(0, room));
    assert Run(NOBODY, events[..2]) == Next(Run(NOBODY, events[..1]), Join(1, room));
    assert Run(NOBODY, events) == Next(Run(NOBODY, events[..2]), Press(0, true));
  }

  /** And somebody can: of two in a room, the second presses between the first one's release and its teardown. */
  lemma PressDuringTeardown(room: Room)
    ensures var p := Run(NOBODY, [Join(0, room), Join(1, room), Press(0, true)]);
      var q := Run(FreeFloor(p, room), [Press(1, true)]);
      Holds(p, 0) && Holds(q, 1) && Teardown(q, room).sessions[1].role == NoRole && !Inv(Teardown(q, room))
  {
    TwoInARoom(room);
    var p := Run(NOBODY, [Join(0, room), Join(1, room), Press(0, true)]);
    var free := FreeFloor(p, room);
    assert [Press(1, true)][..0] == [];
    assert Run(free, []) == free;
    var q := Run(free, [Press(1, true)]);
    assert q == OnPress(free, 1, true);
    TeardownBreaks(q, room);
  }
}
