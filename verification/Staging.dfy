/**
 The bookkeeping of speculative utterances on one participant
 (cmd/interpreter/session.go): what the methods guarded by participant.mu do.

 Readiness is kept as a set of synthesis ids. In the program it is a flag and a
 channel on the staged utterance, which a handler may still hold after the
 utterance has left both maps; ids are never reused, so the set says the same.
 */
module Staging {
  import opened Options

  type TtsId = nat
  type LegId = nat

  datatype Staged = Staged(ttsID: TtsId, src: string, text: string, at: int)

  /** The staged, stagedByID, pending and maxDone fields, with the ids whose readyCh is closed. */
  datatype Desk = Desk(
    staged: map<int, Staged>,
    stagedByID: map<TtsId, Staged>,
    ready: set<TtsId>,
    pending: set<int>,
    maxDone: int)

  const EMPTY_DESK := Desk(map[], map[], {}, {}, -1)

  const STAGED_MAX := 3

  ghost function StagedIds(d: Desk): set<TtsId> {
    set t | t in d.staged :: d.staged[t].ttsID
  }

  /** Each utterance is staged for one turn, and is indexed under its own id. */
  ghost predicate DeskOk(d: Desk) {
    && (forall t | t in d.staged :: d.staged[t].ttsID in d.stagedByID && d.stagedByID[d.staged[t].ttsID] == d.staged[t])
    && (forall t, u | t in d.staged && u in d.staged && t != u :: d.staged[t].ttsID != d.staged[u].ttsID)
  }

  // ---------------------------------------------------------------------------
  // The critical sections, on values
  // ---------------------------------------------------------------------------

  function Put(d: Desk, turn: int, st: Staged): Desk {
    d.(staged := d.staged[turn := st], stagedByID := d.stagedByID[st.ttsID := st])
  }

  /** Out of the turn map, but still indexed by id, so that a late tts.staged finds it. */
  function Take(d: Desk, turn: int): (Desk, Option<Staged>) {
    (d.(staged := d.staged - {turn}), if turn in d.staged then Some(d.staged[turn]) else None)
  }

  function Release(d: Desk, id: TtsId): Desk {
    d.(stagedByID := d.stagedByID - {id})
  }

  /** The turns whose utterance was staged before the cutoff. */
  function ExpiredTurns(d: Desk, cutoff: int): set<int> {
    set t | t in d.staged && d.staged[t].at < cutoff
  }

  function IdsOf(d: Desk, turns: set<int>): set<TtsId> {
    set t | t in d.staged && t in turns :: d.staged[t].ttsID
  }

  /** Removes the utterances of these turns from both maps. */
  function DropTurns(d: Desk, turns: set<int>): Desk {
    d.(staged := d.staged - turns, stagedByID := d.stagedByID - IdsOf(d, turns))
  }

  function MarkReady(d: Desk, id: TtsId): Desk {
    if id in d.stagedByID then d.(ready := d.ready + {id}) else d
  }

  function FinishMark(d: Desk, turn: int): Desk {
    if turn > d.maxDone then d.(maxDone := turn) else d
  }

  ghost function Least(s: set<int>): (least: int)
    requires s != {}
    ensures IsLeast(s, least)
  {
    LeastExists(s);
    var least :| IsLeast(s, least);
    least
  }

  ghost predicate IsLeast(s: set<int>, least: int) {
    least in s && forall x | x in s :: least <= x
  }

  lemma {:induction false} LeastExists(s: set<int>)
    requires s != {}
    ensures exists least :: IsLeast(s, least)
    decreases |s|
  {
    var x := Pick(s);
    var rest := s - {x};
    assert forall z | z in s :: z == x || z in rest;
    if rest == {} {
      assert IsLeast(s, x);
    } else {
      LeastExists(rest);
      var y :| IsLeast(rest, y);
      var least := if x < y then x else y;
      forall z | z in s ensures least <= z {
        assert z == x || z in rest;
      }
      assert IsLeast(s, least);
    }
  }

  // ---------------------------------------------------------------------------
  // What they keep
  // ---------------------------------------------------------------------------

  lemma PutKeeps(d: Desk, turn: int, st: Staged)
    requires DeskOk(d) && st.ttsID !in StagedIds(d)
    ensures DeskOk(Put(d, turn, st))
    ensures StagedIds(Put(d, turn, st)) <= StagedIds(d) + {st.ttsID}
  {
    forall t | t in d.staged ensures d.staged[t].ttsID != st.ttsID {
      assert d.staged[t].ttsID in StagedIds(d);
    }
  }

  lemma TakeKeeps(d: Desk, turn: int)
    requires DeskOk(d)
    ensures DeskOk(Take(d, turn).0)
    ensures match Take(d, turn).1
      case None => StagedIds(Take(d, turn).0) == StagedIds(d)
      case Some(st) => st.ttsID in StagedIds(d) && StagedIds(Take(d, turn).0) == StagedIds(d) - {st.ttsID}
  {
    var d' := Take(d, turn).0;
    forall id | id in StagedIds(d) && (turn in d.staged ==> id != d.staged[turn].ttsID) ensures id in StagedIds(d') {
      var t :| t in d.staged && d.staged[t].ttsID == id;
      assert t in d'.staged;
    }
  }

  lemma ReleaseKeeps(d: Desk, id: TtsId)
    requires DeskOk(d) && id !in StagedIds(d)
    ensures DeskOk(Release(d, id)) && StagedIds(Release(d, id)) == StagedIds(d)
  {
    forall t | t in d.staged ensures d.staged[t].ttsID != id {
      assert d.staged[t].ttsID in StagedIds(d);
    }
  }

  lemma DropTurnsKeeps(d: Desk, turns: set<int>)
    requires DeskOk(d)
    ensures DeskOk(DropTurns(d, turns))
    ensures IdsOf(d, turns) <= StagedIds(d)
    ensures StagedIds(DropTurns(d, turns)) == StagedIds(d) - IdsOf(d, turns)
  {
    var d' := DropTurns(d, turns);
    forall id | id in StagedIds(d) && id !in IdsOf(d, turns) ensures id in StagedIds(d') {
      var t :| t in d.staged && d.staged[t].ttsID == id;
      assert t in d'.staged;
    }
  }
}
