/**
 The fork objects (cmd/pbx/dialplan_fork.go): a group with its candidates, each handler
 against its step in Fork, and the registry that routes leg events to groups.
 */
module ForkGroups {
  import opened Options
  import opened Fork

  lemma DropsOneMore(legs: set<Leg>, leg: Leg)
    requires leg !in legs
    ensures Drops(legs + {leg}) == Drops(legs) + multiset{Drop(leg)}
  {
    assert (set l | l in legs + {leg} :: Drop(l)) == (set l | l in legs :: Drop(l)) + {Drop(leg)};
  }

  lemma RingOversOneMore(legs: set<Leg>, leg: Leg)
    requires leg !in legs
    ensures RingOvers(legs + {leg}) == RingOvers(legs) + multiset{RingOver(leg)}
  {
    assert (set l | l in legs + {leg} :: RingOver(l)) == (set l | l in legs :: RingOver(l)) + {RingOver(leg)};
  }

  /** To drop every candidate but this one. */
  method DropAllBut(legs: set<Leg>, but: Option<Leg>) returns (drops: multiset<Task>)
    ensures drops == Drops(if but.Some? then legs - {but.value} else legs)
  {
    drops := multiset{};
    var left := legs;
    ghost var seen := {};
    while left != {}
      invariant left <= legs && seen <= legs
      invariant seen == if but.Some? then legs - left - {but.value} else legs - left
      invariant drops == Drops(seen)
    {
      ghost var some := Pick(left);
      var leg :| leg in left;
      left := left - {leg};
      if but != Some(leg) {
        DropsOneMore(seen, leg);
        seen := seen + {leg};
        drops := drops + multiset{Drop(leg)};
      }
    }
  }

  /** The ring time of every browser among the candidates is over. */
  method RingOversOf(candidates: map<Leg, bool>) returns (overs: multiset<Task>)
    ensures overs == RingOvers(set leg | leg in candidates && candidates[leg])
  {
    overs := multiset{};
    var left := candidates.Keys;
    ghost var seen := {};
    while left != {}
      invariant left <= candidates.Keys
      invariant seen == set leg | leg in candidates && leg !in left && candidates[leg]
      invariant overs == RingOvers(seen)
    {
      ghost var some := Pick(left);
      var leg :| leg in left;
      left := left - {leg};
      if candidates[leg] {
        RingOversOneMore(seen, leg);
        seen := seen + {leg};
        overs := overs + multiset{RingOver(leg)};
      }
    }
    assert seen == set leg | leg in candidates && candidates[leg];
  }

  class Group {
    var candidates: map<Leg, bool>   // is it a browser?
    var won: bool
    // What the handlers still have to send, each at its own time.
    var tasks: multiset<Task>
    ghost var past: ForkState        // what has happened

    ghost function View(): ForkState
      reads this
    {
      past.(candidates := candidates.Keys, tasks := tasks)
    }

    /** The candidates are as they were rung, and what is proved of every fork holds of this one. */
    ghost predicate Valid()
      reads this
    {
      && (forall leg | leg in candidates :: leg in past.rung && candidates[leg] == past.rung[leg])
      && (won <==> past.winner.Some?)
      && Inv(View())
    }

    constructor (rung: map<Leg, bool>)
      requires rung.Keys != {}
      ensures Valid() && View() == Start(rung)
    {
      candidates, won, tasks := rung, false, multiset{};
      past := Start(rung);
    }

    /** The first answer. */
    method Win(leg: Leg, callerOk: bool)
      requires Valid() && !won && leg in candidates
      modifies this
      ensures View() == OnAnswered(old(View()), leg, callerOk)
      ensures Valid()
    {
      AnsweredKeeps(View(), leg, callerOk);
      var losers := DropAllBut(candidates.Keys, if callerOk then Some(leg) else None);
      won := true;
      tasks := tasks + losers;
      past := past.(answers := past.answers + multiset{leg}, winner := Some(leg), refused := !callerOk);
    }

    method OnConnected(leg: Leg, callerOk: bool)
      requires Valid()
      modifies this
      ensures View() == OnAnswered(old(View()), leg, callerOk)
      ensures Valid()
    {
      if won || leg !in candidates {
        AnsweredKeeps(View(), leg, callerOk);
        past := past.(answers := past.answers + multiset{leg});
        if leg in candidates {
          past := past.(again := past.again || past.winner == Some(leg));
          tasks := tasks + multiset{Drop(leg)};
        }
      } else {
        Win(leg, callerOk);
      }
    }

    method OnCandidateGone(leg: Leg)
      requires Valid()
      modifies this
      ensures View() == OnGone(old(View()), leg)
      ensures Valid()
    {
      GoneKeeps(View(), leg);
      if leg !in candidates {
        return;
      }
      var browser := candidates[leg];
      candidates := candidates - {leg};
      var remaining := |candidates|;
      assert remaining == 0 <==> candidates.Keys == {};
      assert candidates.Keys == old(candidates.Keys) - {leg};
      if won {
        return;
      }
      var stop := if browser then multiset{Drop(leg)} else multiset{};
      var over := if remaining > 0 then multiset{} else multiset{NobodyAnswered};
      tasks := tasks + stop + over;
    }

    method OnRingTime()
      requires Valid()
      modifies this
      ensures View() == OnRingTimeout(old(View()))
      ensures Valid()
    {
      RingTimeoutKeeps(View());
      if won {
        return;
      }
      var overs := RingOversOf(candidates);
      assert (set leg | leg in candidates && candidates[leg]) == set leg | leg in candidates.Keys &&
        IsBrowser(past.rung, leg);
      tasks := tasks + overs;
    }

    method OnCallerGone()
      requires Valid()
      modifies this
      ensures View() == OnCallerGaveUp(old(View()))
      ensures Valid()
    {
      CallerGaveUpKeeps(View());
      var all := DropAllBut(candidates.Keys, None);
      tasks := tasks + all;
      past := past.(abandoned := past.abandoned + candidates.Keys);
    }
  }

  /** Which group the events of a leg go to. */
  class Registry {
    var byLeg: map<Leg, Group>

    constructor ()
      ensures byLeg == map[]
    {
      byLeg := map[];
    }

    /** The caller's leg and every candidate's lead to the group, and no other routing changes. */
    method Add(g: Group, caller: Leg)
      modifies this
      ensures forall leg :: leg in byLeg <==> leg in old(byLeg) || leg == caller || leg in g.candidates
      ensures forall leg | leg in byLeg :: byLeg[leg] == if leg == caller || leg in g.candidates then g
        else old(byLeg)[leg]
    {
      var was := byLeg;
      byLeg := byLeg[caller := g];
      var left := g.candidates.Keys;
      while left != {}
        invariant left <= g.candidates.Keys
        invariant forall leg :: leg in byLeg <==> leg in was || leg == caller || leg in g.candidates.Keys - left
        invariant forall leg | leg in byLeg ::
          byLeg[leg] == if leg == caller || leg in g.candidates.Keys - left then g else was[leg]
      {
        ghost var some := Pick(left);
        var leg :| leg in left;
        left := left - {leg};
        byLeg := byLeg[leg := g];
      }
    }

    method RemoveLeg(leg: Leg)
      modifies this
      ensures byLeg == old(byLeg) - {leg}
    {
      byLeg := byLeg - {leg};
    }

    /** Exactly the legs that led to the group lead nowhere now. */
    method Remove(g: Group)
      modifies this
      ensures byLeg == map leg | leg in old(byLeg) && old(byLeg)[leg] != g :: old(byLeg)[leg]
    {
      var was := byLeg;
      var left := byLeg.Keys;
      while left != {}
        invariant left <= was.Keys
        invariant forall leg :: leg in byLeg <==> leg in was && (was[leg] != g || leg in left)
        invariant forall leg | leg in byLeg :: byLeg[leg] == was[leg]
      {
        ghost var some := Pick(left);
        var leg :| leg in left;
        left := left - {leg};
        if byLeg[leg] == g {
          byLeg := byLeg - {leg};
        }
      }
    }
  }
}
