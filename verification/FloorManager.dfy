/**
 The floor manager and the presence registry as one object (cmd/ptt/floor.go,
 presence.go), with what the media server keeps for it; each handler against its
 function in Floor.
 */
module FloorManager {
  import opened Options
  import opened Floor

  /** Some of the room's sessions have been granted their roles. */
  function GrantedIn(sessions: map<Sid, Session>, done: set<Sid>, room: Room, holder: Sid): map<Sid, Session> {
    map sid | sid in sessions ::
      if sid in done && sessions[sid].room == room
        then WithRole(sessions[sid], if sid == holder then Speaker else Listener) else sessions[sid]
  }

  function SilencedIn(sessions: map<Sid, Session>, done: set<Sid>, room: Room): map<Sid, Session> {
    map sid | sid in sessions :: if sid in done && sessions[sid].room == room then Session(room, NoRole, None)
      else sessions[sid]
  }

  function LegsOf(sessions: map<Sid, Session>, done: set<Sid>): set<Leg> {
    set sid | sid in sessions && sid in done && sessions[sid].leg.Some? :: sessions[sid].leg.value
  }

  lemma OneMoreLeg(sessions: map<Sid, Session>, done: set<Sid>, sid: Sid)
    requires sid in sessions
    ensures LegsOf(sessions, done + {sid}) == LegsOf(sessions, done) + if sessions[sid].leg.Some?
      then {sessions[sid].leg.value} else {}
  {
    var legs := LegsOf(sessions, done + {sid});
    if sessions[sid].leg.Some? {
      assert sid in done + {sid};
      assert sessions[sid].leg.value in legs;
    }
    forall leg | leg in LegsOf(sessions, done) ensures leg in legs {
      var other :| other in sessions && other in done && sessions[other].leg == Some(leg);
      assert other in done + {sid};
    }
  }

  lemma TwiceLess<K, V>(m: map<K, V>, a: set<K>, b: set<K>)
    ensures m - a - b == m - (a + b)
  {
  }

  lemma OneMoreSilenced(sessions: map<Sid, Session>, done: set<Sid>, sid: Sid, room: Room)
    requires sid in sessions && sessions[sid].room == room
    ensures SilencedIn(sessions, done + {sid}, room) ==
      SilencedIn(sessions, done, room)[sid := Session(room, NoRole, None)]
  {
  }

  class Manager {
    var sessions: map<Sid, Session>
    var active: map<Room, Sid>
    var byLeg: map<Leg, Sid>
    var rooms: set<Room>
    var media: map<Leg, Media>

    ghost function View(): Ptt
      reads this
    {
      Ptt(sessions, active, byLeg, rooms, media)
    }

    /** What is proved of every reachable state. */
    ghost predicate Valid()
      reads this
    {
      Inv(View())
    }

    constructor ()
      ensures Valid() && View() == NOBODY
    {
      sessions, active, byLeg, rooms, media := map[], map[], map[], {}, map[];
    }

    method Members(room: Room) returns (members: set<Sid>)
      ensures members == set sid | sid in sessions && sessions[sid].room == room
    {
      members := set sid | sid in sessions && sessions[sid].room == room;
    }

    method UnbindLeg(sid: Sid)
      requires sid in sessions
      modifies this`sessions, this`byLeg
      ensures View() == Unbound(old(View()), sid)
    {
      var s := sessions[sid];
      if s.leg.Some? {
        byLeg := byLeg - {s.leg.value};
      }
      sessions := sessions[sid := s.(leg := None)];
    }

    method BindLeg(sid: Sid, leg: Leg)
      requires sid in sessions
      modifies this`sessions, this`byLeg
      ensures View() == Bound(old(View()), sid, leg)
    {
      var s := sessions[sid];
      if s.leg.Some? {
        byLeg := byLeg - {s.leg.value};
      }
      sessions := sessions[sid := s.(leg := Some(leg))];
      byLeg := byLeg[leg := sid];
    }

    method OnJoin(sid: Sid, room: Room)
      requires Valid()
      modifies this`sessions
      ensures View() == Floor.OnJoin(old(View()), sid, room)
      ensures Valid()
    {
      JoinKeeps(View(), sid, room, {});
      if sid in sessions {
        return;
      }
      sessions := sessions[sid := Session(room, NoRole, None)];
      if room in active {
        sessions := sessions[sid := sessions[sid].(role := Listener)];
      }
    }

    /** The holder speaks, and one member after the other is told to listen. */
    method Grant(room: Room, holder: Sid)
      requires holder in sessions && sessions[holder].room == room
      modifies this`sessions
      ensures sessions == Granted(old(sessions), room, holder)
    {
      ghost var was := sessions;
      var left := Members(room);
      ghost var members := left;
      sessions := sessions[holder := sessions[holder].(role := Speaker)];
      while left != {}
        invariant left <= members
        invariant sessions == GrantedIn(was, members - left + {holder}, room, holder)
      {
        ghost var some := Pick(left);
        var m :| m in left;
        if m != holder {
          sessions := sessions[m := sessions[m].(role := Listener)];
        }
        assert members - (left - {m}) + {holder} == (members - left + {holder}) + {m};
        left := left - {m};
      }
    }

    method OnPress(sid: Sid, roomOk: bool)
      requires Valid()
      modifies this`active, this`rooms, this`sessions
      ensures View() == Floor.OnPress(old(View()), sid, roomOk)
      ensures Valid()
    {
      PressKeeps(View(), sid, roomOk, {});
      if sid !in sessions {
        return;
      }
      var room := sessions[sid].room;
      if room in active {
        return;
      }
      active := active[room := sid];
      if !roomOk {
        active := active - {room};
        return;
      }
      rooms := rooms + {room};
      Grant(room, sid);
    }

    /** A member loses its leg, at the server too, and its role. */
    method SilenceOne(m: Sid)
      requires m in sessions
      modifies this`sessions, this`byLeg, this`media
      ensures sessions == old(sessions)[m := Session(old(sessions)[m].room, NoRole, None)]
      ensures var legs := if old(sessions)[m].leg.Some? then {old(sessions)[m].leg.value} else {};
        byLeg == old(byLeg) - legs && media == old(media) - legs
    {
      var leg := sessions[m].leg;
      if leg.Some? {
        UnbindLeg(m);
        media := media - {leg.value};
      }
      sessions := sessions[m := sessions[m].(leg := None, role := NoRole)];
    }

    method Silence(room: Room)
      modifies this`sessions, this`byLeg, this`media
      ensures sessions == Silenced(old(sessions), room)
      ensures byLeg == old(byLeg) - LegsIn(old(sessions), room)
      ensures media == old(media) - LegsIn(old(sessions), room)
    {
      ghost var was := sessions;
      var left := Members(room);
      ghost var members := left;
      ghost var done := {};
      while left != {}
        invariant left <= members && done == members - left
        invariant sessions == SilencedIn(was, done, room)
        invariant byLeg == old(byLeg) - LegsOf(was, done)
        invariant media == old(media) - LegsOf(was, done)
        decreases left
      {
        ghost var some := Pick(left);
        var m :| m in left;
        ghost var legs := if was[m].leg.Some? then {was[m].leg.value} else {};
        OneMoreLeg(was, done, m);
        OneMoreSilenced(was, done, m, room);
        TwiceLess(old(byLeg), LegsOf(was, done), legs);
        TwiceLess(old(media), LegsOf(was, done), legs);
        SilenceOne(m);
        done := done + {m};
        left := left - {m};
      }
      assert done == members && LegsOf(was, members) == LegsIn(was, room);
    }

    method TearDown(room: Room)
      modifies this
      ensures View() == Teardown(old(View()), room)
    {
      Silence(room);
      // Deleting the room hangs up whatever is left in it.
      media := map leg | leg in media && media[leg].room != room :: media[leg];
      rooms := rooms - {room};
    }

    method EndBurstIfHolder(sid: Sid) returns (ended: bool)
      requires Valid()
      modifies this
      ensures ended <==> Holds(old(View()), sid)
      ensures View() == EndBurst(old(View()), sid)
      ensures Valid()
    {
      EndBurstKeeps(View(), sid, {});
      if sid !in sessions {
        return false;
      }
      var room := sessions[sid].room;
      if room !in active || active[room] != sid {
        return false;
      }
      active := active - {room};
      TearDown(room);
      return true;
    }

    method OnOffer(sid: Sid, sdp: string, leg: Option<Leg>, added: bool)
      requires Valid() && (leg.Some? ==> leg.value !in byLeg && leg.value !in media)
      modifies this
      ensures View() == Floor.OnOffer(old(View()), sid, sdp, leg, added)
      ensures Valid()
    {
      OfferKeeps(View(), sid, sdp, leg, added, {});
      if sid !in sessions || sdp == "" {
        return;
      }
      var role := sessions[sid].role;
      if role == NoRole || leg.None? {
        return;
      }
      BindLeg(sid, leg.value);
      var room := sessions[sid].room;
      if added && room in rooms {
        media := media[leg.value := Media(room, role == Listener)];
      }
    }

    method OnLegGone(leg: Leg)
      requires Valid()
      modifies this
      ensures View() == Floor.OnLegGone(old(View()), leg)
      ensures Valid()
    {
      LegGoneKeeps(View(), leg, {});
      MediaGoneKeeps(View(), leg);
      media := media - {leg};
      if leg !in byLeg || byLeg[leg] !in sessions {
        return;
      }
      var sid := byLeg[leg];
      UnboundKeeps(View(), sid, {});
      UnbindLeg(sid);
      var ended := EndBurstIfHolder(sid);
    }

    method OnLeave(sid: Sid)
      requires Valid()
      modifies this
      ensures View() == Floor.OnLeave(old(View()), sid)
      ensures Valid()
    {
      LeaveKeeps(View(), sid, {});
      if sid !in sessions {
        return;
      }
      var ended := EndBurstIfHolder(sid);
      if !ended {
        var leg := sessions[sid].leg;
        UnbindLeg(sid);
        if leg.Some? {
          media := media - {leg.value};
        }
      }
      sessions := sessions - {sid};
    }
  }
}
