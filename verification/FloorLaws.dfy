/**
 What the handlers of the push-to-talk channel do to a room (cmd/ptt/floor.go): who gets
 the floor and who loses it, what the media server is then to play, and that no other
 room notices.
 */
module FloorLaws {
  import opened Options
  import opened Floor

  predicate InRoom(p: Ptt, sid: Sid, room: Room) {
    sid in p.sessions && p.sessions[sid].room == room
  }

  /** A present session asks for a free floor, and the server makes the media room. */
  predicate MayTake(p: Ptt, sid: Sid, roomOk: bool) {
    sid in p.sessions && p.sessions[sid].room !in p.active && roomOk
  }

  /** It then speaks and all others in the room listen; otherwise nothing happens. */
  lemma PressTakesFloor(p: Ptt, sid: Sid, roomOk: bool)
    ensures var q := Next(p, Press(sid, roomOk));
      if !MayTake(p, sid, roomOk) then q == p
      else
        var room := p.sessions[sid].room;
        && Holds(q, sid) && q.sessions[sid].role == Speaker && room in q.rooms
        && (forall s | InRoom(p, s, room) && s != sid :: s in q.sessions && q.sessions[s].role == Listener)
        && (forall s | InRoom(p, s, room) :: q.sessions[s].leg == p.sessions[s].leg)
        && q.byLeg == p.byLeg && q.media == p.media
  {
  }

  /** The burst in this room is over: nobody there has a role or a leg, and the server has nothing of the room. */
  ghost predicate IsOver(p: Ptt, q: Ptt, room: Room) {
    && room !in q.active && room !in q.rooms
    && (forall s | InRoom(q, s, room) :: q.sessions[s].role == NoRole && q.sessions[s].leg == None)
    && (forall leg | leg in q.media :: q.media[leg].room != room)
    && (forall s | InRoom(p, s, room) && p.sessions[s].leg.Some? ::
      p.sessions[s].leg.value !in q.byLeg && p.sessions[s].leg.value !in q.media)
  }

  lemma ReleaseEndsBurst(p: Ptt, sid: Sid)
    requires Inv(p)
    ensures if Holds(p, sid) then IsOver(p, Next(p, Release(sid)), p.sessions[sid].room)
        && Next(p, Release(sid)).sessions.Keys == p.sessions.Keys
      else Next(p, Release(sid)) == p
  {
    if Holds(p, sid) {
      BurstIsOver(p, sid);
    }
  }

  lemma BurstIsOver(p: Ptt, sid: Sid)
    requires Holds(p, sid)
    ensures IsOver(p, EndBurst(p, sid), p.sessions[sid].room) && EndBurst(p, sid).sessions.Keys == p.sessions.Keys
  {
    var room := p.sessions[sid].room;
    forall s | InRoom(p, s, room) && p.sessions[s].leg.Some?
      ensures p.sessions[s].leg.value in LegsIn(p.sessions, room) {
    }
  }

  /** Who comes in during a burst listens, and has no leg yet. */
  lemma JoiningListens(p: Ptt, sid: Sid, room: Room)
    ensures var q := Next(p, Join(sid, room));
      if sid in p.sessions then q == p
      else
        && InRoom(q, sid, room) && q.sessions[sid].leg == None
        && (q.sessions[sid].role == if room in p.active then Listener else NoRole)
        && (forall s | s != sid :: s in q.sessions <==> s in p.sessions)
        && (forall s | s in p.sessions :: q.sessions[s] == p.sessions[s])
        && q.active == p.active && q.byLeg == p.byLeg && q.rooms == p.rooms && q.media == p.media
  {
  }

  /** Media is offered by somebody who has a role, and the server has a leg for it. */
  predicate Offers(p: Ptt, e: Event) {
    e.Offer? && e.sid in p.sessions && e.sdp != "" && p.sessions[e.sid].role != NoRole && e.leg.Some?
  }

  /** The new leg is the session's; added to the room by the server, it is muted unless the session holds the floor. */
  lemma OfferIsHeardFromHolder(p: Ptt, e: Event)
    requires Inv(p) && FreshLeg(p, e) && e.Offer?
    ensures var q := Next(p, e);
      if !Offers(p, e) then q == p
      else
        var s := p.sessions[e.sid];
        && e.sid in q.sessions && q.sessions[e.sid] == s.(leg := e.leg)
        && (forall l :: l in q.byLeg <==> l == e.leg.value || (l in p.byLeg && s.leg != Some(l)))
        && q.byLeg[e.leg.value] == e.sid
        && (e.added ==> e.leg.value in q.media && q.media[e.leg.value] == Media(s.room, !Holds(p, e.sid)))
        && (!e.added ==> e.leg.value !in q.media)
        && (forall l | l != e.leg.value :: l in q.media <==> l in p.media)
        && (forall l | l in p.media :: q.media[l] == p.media[l])
  {
    if Offers(p, e) {
      assert Fits(p, e.sid);
      var room := p.sessions[e.sid].room;
      assert room !in {};
      assert room in p.rooms <==> room in p.active;
    }
  }

  /** The server reports a leg gone: with the holder's the burst ends, with another's only the leg. */
  lemma LostLegIsGone(p: Ptt, leg: Leg)
    requires Inv(p)
    ensures var q := Next(p, LegGone(leg));
      && leg !in q.media && leg !in q.byLeg
      && (leg in p.byLeg && Holds(p, p.byLeg[leg]) ==> IsOver(p, q, p.sessions[p.byLeg[leg]].room))
      && (leg in p.byLeg && !Holds(p, p.byLeg[leg]) ==>
        && q.sessions == p.sessions[p.byLeg[leg] := p.sessions[p.byLeg[leg]].(leg := None)]
        && q.active == p.active && q.rooms == p.rooms && q.media.Keys == p.media.Keys - {leg})
      && (leg !in p.byLeg ==> q == p.(media := q.media) && q.media.Keys == p.media.Keys - {leg})
  {
    if leg in p.byLeg && Holds(p, p.byLeg[leg]) {
      var sid := p.byLeg[leg];
      var u := Unbound(p.(media := p.media - {leg}), sid);
      assert Holds(u, sid);
      BurstIsOver(u, sid);
      var q := Next(p, LegGone(leg));
      forall s | InRoom(p, s, p.sessions[sid].room) && p.sessions[s].leg.Some?
        ensures p.sessions[s].leg.value !in q.byLeg && p.sessions[s].leg.value !in q.media {
        if s != sid {
          assert u.sessions[s] == p.sessions[s];
        }
      }
    }
  }

  /** Who leaves is gone with the leg, and with the burst, if it was theirs. */
  lemma LeavingIsGone(p: Ptt, sid: Sid)
    requires Inv(p) && sid in p.sessions
    ensures var q := Next(p, Leave(sid));
      && q.sessions.Keys == p.sessions.Keys - {sid}
      && (p.sessions[sid].leg.Some? ==> p.sessions[sid].leg.value !in q.byLeg && p.sessions[sid].leg.value !in q.media)
      && (Holds(p, sid) ==> IsOver(p, q, p.sessions[sid].room))
      && (!Holds(p, sid) ==> q.active == p.active && q.rooms == p.rooms)
      && (!Holds(p, sid) ==> forall s | s in q.sessions :: q.sessions[s] == p.sessions[s])
  {
    if Holds(p, sid) {
      BurstIsOver(p, sid);
    }
  }

  // ---------------------------------------------------------------------------
  // Other rooms
  // ---------------------------------------------------------------------------

  /** The event is about this room. */
  predicate Concerns(p: Ptt, e: Event, room: Room) {
    match e
    case Join(sid, r) => r == room || InRoom(p, sid, room)
    case LegGone(leg) =>
      (leg in p.byLeg && InRoom(p, p.byLeg[leg], room)) || (leg in p.media && p.media[leg].room == room)
    case _ => InRoom(p, e.sid, room)
  }

  /** Nothing in the room is different. */
  ghost predicate SameIn(p: Ptt, q: Ptt, room: Room) {
    && (forall s :: InRoom(q, s, room) <==> InRoom(p, s, room))
    && (forall s | InRoom(p, s, room) :: q.sessions[s] == p.sessions[s])
    && (room in q.active <==> room in p.active) && (room in p.active ==> q.active[room] == p.active[room])
    && (room in q.rooms <==> room in p.rooms)
    && (forall leg :: leg in q.media && q.media[leg].room == room <==> leg in p.media && p.media[leg].room == room)
    && (forall leg | leg in p.media && p.media[leg].room == room :: q.media[leg] == p.media[leg])
  }

  /** The legs of a session are in no room but its own. */
  lemma LegInOwnRoom(p: Ptt, sid: Sid, room: Room)
    requires Inv(p) && sid in p.sessions && p.sessions[sid].room != room && p.sessions[sid].leg.Some?
    ensures var leg := p.sessions[sid].leg.value; leg in p.media ==> p.media[leg].room != room
  {
    var leg := p.sessions[sid].leg.value;
    assert leg in p.byLeg && p.byLeg[leg] == sid;
    if leg in p.media {
      assert p.sessions[sid].room !in {};
      assert MediaFits(p, leg);
    }
  }

  lemma LegsInOwnRoom(p: Ptt, own: Room, room: Room)
    requires Inv(p) && own != room
    ensures forall leg | leg in LegsIn(p.sessions, own) && leg in p.media :: p.media[leg].room != room
  {
    forall leg | leg in LegsIn(p.sessions, own) && leg in p.media ensures p.media[leg].room != room {
      var s :| s in p.sessions && p.sessions[s].room == own && p.sessions[s].leg == Some(leg);
      LegInOwnRoom(p, s, room);
    }
  }

  lemma EndBurstStaysInRoom(p: Ptt, sid: Sid, room: Room)
    requires Inv(p) && !InRoom(p, sid, room)
    ensures SameIn(p, EndBurst(p, sid), room)
  {
    if Holds(p, sid) {
      LegsInOwnRoom(p, p.sessions[sid].room, room);
    }
  }

  lemma UnboundStaysInRoom(p: Ptt, sid: Sid, room: Room)
    requires sid in p.sessions && !InRoom(p, sid, room)
    ensures SameIn(p, Unbound(p, sid), room) && !InRoom(Unbound(p, sid), sid, room)
  {
  }

  lemma MediaGoneStaysInRoom(p: Ptt, leg: Leg, room: Room)
    requires leg in p.media ==> p.media[leg].room != room
    ensures SameIn(p, p.(media := p.media - {leg}), room)
  {
  }

  lemma SameThrough(p: Ptt, q: Ptt, r: Ptt, room: Room)
    requires SameIn(p, q, room) && SameIn(q, r, room)
    ensures SameIn(p, r, room)
  {
    forall s | InRoom(p, s, room) ensures r.sessions[s] == p.sessions[s] {
      assert InRoom(q, s, room);
    }
    forall leg | leg in p.media && p.media[leg].room == room ensures r.media[leg] == p.media[leg] {
      assert leg in q.media && q.media[leg].room == room;
    }
  }

  lemma LegGoneStaysInRoom(p: Ptt, leg: Leg, room: Room)
    requires Inv(p) && !Concerns(p, LegGone(leg), room)
    ensures SameIn(p, Next(p, LegGone(leg)), room)
  {
    var gone := p.(media := p.media - {leg});
    MediaGoneStaysInRoom(p, leg, room);
    if leg in p.byLeg {
      var sid := p.byLeg[leg];
      MediaGoneKeeps(p, leg);
      UnboundKeeps(gone, sid, {});
      UnboundStaysInRoom(gone, sid, room);
      EndBurstStaysInRoom(Unbound(gone, sid), sid, room);
      SameThrough(gone, Unbound(gone, sid), EndBurst(Unbound(gone, sid), sid), room);
      SameThrough(p, gone, EndBurst(Unbound(gone, sid), sid), room);
    }
  }

  lemma RemovedStaysInRoom(p: Ptt, sid: Sid, room: Room)
    requires !InRoom(p, sid, room)
    ensures SameIn(p, Removed(p, sid), room)
  {
  }

  lemma LeaveStaysInRoom(p: Ptt, sid: Sid, room: Room)
    requires Inv(p) && !InRoom(p, sid, room)
    ensures SameIn(p, Next(p, Leave(sid)), room)
  {
    if sid in p.sessions && Holds(p, sid) {
      EndBurstStaysInRoom(p, sid, room);
      RemovedStaysInRoom(EndBurst(p, sid), sid, room);
      SameThrough(p, EndBurst(p, sid), Removed(EndBurst(p, sid), sid), room);
    } else if sid in p.sessions {
      ListenerLeavesOwnRoom(p, sid, room);
    }
  }

  lemma ListenerLeavesOwnRoom(p: Ptt, sid: Sid, room: Room)
    requires Inv(p) && sid in p.sessions && !InRoom(p, sid, room) && !Holds(p, sid)
    ensures SameIn(p, Next(p, Leave(sid)), room)
  {
    var u := Unbound(p, sid);
    UnboundStaysInRoom(p, sid, room);
    var leg := p.sessions[sid].leg;
    var v := if leg.Some? then u.(media := u.media - {leg.value}) else u;
    if leg.Some? {
      LegInOwnRoom(p, sid, room);
      MediaGoneStaysInRoom(u, leg.value, room);
      SameThrough(p, u, v, room);
    }
    RemovedStaysInRoom(v, sid, room);
    SameThrough(p, v, Removed(v, sid), room);
  }

  lemma PressStaysInRoom(p: Ptt, sid: Sid, roomOk: bool, room: Room)
    requires !InRoom(p, sid, room)
    ensures SameIn(p, Next(p, Press(sid, roomOk)), room)
  {
  }

  lemma OfferStaysInRoom(p: Ptt, e: Event, room: Room)
    requires e.Offer? && FreshLeg(p, e) && !InRoom(p, e.sid, room)
    ensures SameIn(p, Next(p, e), room)
  {
  }

  /** An event leaves all other rooms as they are. */
  lemma OtherRoomsDoNotNotice(p: Ptt, e: Event, room: Room)
    requires Inv(p) && FreshLeg(p, e) && !Concerns(p, e, room)
    ensures SameIn(p, Next(p, e), room)
  {
    match e
    case Join(sid, r) => assert forall s | InRoom(p, s, room) :: s != sid;
    case Press(sid, roomOk) => PressStaysInRoom(p, sid, roomOk, room);
    case Release(sid) => EndBurstStaysInRoom(p, sid, room);
    case Offer(_, _, _, _) => OfferStaysInRoom(p, e, room);
    case LegGone(leg) => LegGoneStaysInRoom(p, leg, room);
    case Leave(sid) => LeaveStaysInRoom(p, sid, room);
  }
}
