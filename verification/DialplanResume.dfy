/**
 What a call in the dial plan waits for, and where it goes on (cmd/pbx/dialplan_engine.go,
 dialplan_gather.go): a walk leaves the call waiting for one event, and that event leads on
 from where the walk stopped.
 */
module DialplanResume {
  import opened Options
  import opened DialplanGraph
  import opened StepGuard
  import opened DialplanWalk
  import opened DialplanPath
  import opened Gather
  import opened DialplanExec

  // ---------------------------------------------------------------------------
  // A walk of the call
  // ---------------------------------------------------------------------------

  /**
   The call walks from a node along the path there is, on the register again if a ringing node is
   passed, and is left where the path ends; without a path within the budget the walk is lost.
   */
  lemma CallWalksPath(c: Call, id: string, o: Outside)
    ensures var p := o.plan.(answered := c.answered);
      && (forall path, stop | LeadsFrom(p, path, id, o.budget, stop) ::
        WalkOn(c, id, o) == Land(c.(registered := c.registered || PassesRinging(p, path)), stop, o))
      && ((forall path, stop :: !LeadsFrom(p, path, id, o.budget, stop)) ==> WalkOn(c, id, o) == c.(lost := true))
  {
    var p := o.plan.(answered := c.answered);
    var walked := WalkFrom(p, id, o.budget);
    forall path, stop | LeadsFrom(p, path, id, o.budget, stop)
      ensures walked == Some(stop) && (Readmits(p, id, 0, o.budget) <==> PassesRinging(p, path)) {
      WalkIsPath(p, id, o.budget, stop);
      ReadmitsIff(p, path, id, o.budget, stop);
    }
    if walked.Some? {
      WalkIsPath(p, id, o.budget, walked.value);
    }
  }

  /** Nothing is outstanding, the call is on the register, and it walks on from the node. */
  ghost predicate GoesOnFrom(d: Call, id: string, answered: bool, o: Outside) {
    exists c :: Outstanding(c) == 0 && c.registered && c.answered == answered && d == WalkOn(c, id, o)
  }

  /** A new call goes on from behind the first start node, or is turned away. */
  lemma NewCallGoesOn(answered: bool, o: Outside, i: nat, to: string)
    ensures (forall n | 0 <= n < |o.plan.g.nodes| :: !o.plan.g.nodes[n].kind.StartNode?) ==>
      !Begin(answered, o).registered && Outstanding(Begin(answered, o)) == 0
    ensures i < |o.plan.g.nodes| && IsStartAt(o.plan.g.nodes, i) && LeadsTo(o.plan.g, o.plan.g.nodes[i].id, "out", to)
      ==> GoesOnFrom(Begin(answered, o), to, answered, o)
  {
    var nodes := o.plan.g.nodes;
    StartIsFirst(nodes);
    if i < |nodes| && IsStartAt(nodes, i) && LeadsTo(o.plan.g, nodes[i].id, "out", to) {
      EdgeLeads(o.plan.g, nodes[i].id, "out", to);
      var start := StartOf(nodes);
      var j :| 0 <= j < |nodes| && nodes[j] == start.value && IsStartAt(nodes, j);
      assert i == j;
      assert Outstanding(NewCall(answered)) == 0;
      assert Begin(answered, o) == WalkOn(NewCall(answered), to, o);
    }
  }

  // ---------------------------------------------------------------------------
  // From a stop to the event, and on
  // ---------------------------------------------------------------------------

  /** A rejection, a hang-up and the hand-over to the voice menu end the call here. */
  lemma EndedCallWaitsForNothing(c: Call, stop: Stop, o: Outside)
    requires Outstanding(c) == 0 && (stop.Rejected? || stop.HungUp? || stop.ToIvr? || (stop.Ringing? && !stop.resumes)
      || (stop.Prompting? && o.prompt.None?))
    ensures Outstanding(Land(c, stop, o)) == 0 && !Land(c, stop, o).registered
  {
  }

  /** Off the register and waiting for nothing, the call stays so: only old menu timers still run out. */
  lemma {:induction false} EndedCallStaysEnded(c: Call, events: seq<Occurrence>)
    requires Outstanding(c) == 0 && !c.registered
    ensures Run(c, events) == c.(timers := Run(c, events).timers) && Run(c, events).timers <= c.timers
    decreases |events|
  {
    if events != [] {
      var before := Run(c, events[..|events| - 1]);
      EndedCallStaysEnded(c, events[..|events| - 1]);
      assert Outstanding(before) == 0 && !before.registered;
      NothingMovesEnded(before, events[|events| - 1].event, events[|events| - 1].outside);
    }
  }

  lemma NothingMovesEnded(c: Call, e: Event, o: Outside)
    requires Outstanding(c) == 0 && !c.registered
    ensures Next(c, e, o) == c.(timers := Next(c, e, o).timers) && Next(c, e, o).timers <= c.timers
  {
    assert |c.waits| == 0;
    assert c.waits == multiset{};
  }

  /** Once the leg is connected, the node that had it answered is entered again. */
  lemma AnsweredGoesOn(c: Call, node: string, o: Outside, later: Outside)
    requires Outstanding(c) == 0 && c.registered && o.answerOk && node != ""
    ensures var d := Land(c, Answering(node), o);
      && Outstanding(d) == 1 && d.asked == c.asked + 1
      && GoesOnFrom(OnConnected(d, later), node, true, later)
  {
    var d := Land(c, Answering(node), o);
    var e := Resumed(d.(answered := true, resumeNode := ""));
    assert Outstanding(e) == 0 && OnConnected(d, later) == WalkOn(e, node, later);
  }

  /** Once the prompt has been played, the call goes on from where its node leads. */
  lemma PlayedGoesOn(c: Call, node: string, next: string, o: Outside, later: Outside)
    requires Outstanding(c) == 0 && c.registered && o.prompt.Some? && o.prompt.value != ""
    ensures var d := Land(c, Prompting(node, next), o);
      Outstanding(d) == 1 && GoesOnFrom(OnPromptFinished(d, o.prompt.value, later), next, c.answered, later)
  {
    var d := Land(c, Prompting(node, next), o);
    var e := Resumed(d.(pendingID := "", nextNode := ""));
    assert Outstanding(e) == 0 && OnPromptFinished(d, o.prompt.value, later) == WalkOn(e, next, later);
  }

  /** Once the time is over, the call goes on where the wait node leads then. */
  lemma WaitedGoesOn(c: Call, node: string, seconds: int, o: Outside, later: Outside, to: string)
    requires Outstanding(c) == 0 && c.registered && LeadsTo(later.plan.g, node, "next", to)
    ensures var d := Land(c, WaitingAt(node, seconds), o);
      Outstanding(d) == 1 && GoesOnFrom(OnWaitOver(d, node, later), to, c.answered, later)
  {
    EdgeLeads(later.plan.g, node, "next", to);
    var d := Land(c, WaitingAt(node, seconds), o);
    assert c.waits == multiset{};
    var e := Resumed(d.(waits := d.waits - multiset{node}));
    assert Outstanding(e) == 0 && OnWaitOver(d, node, later) == WalkOn(e, to, later);
  }

  /** When nobody has answered, the call is on the register again and goes on where the node leads then. */
  lemma UnansweredGoesOn(c: Call, node: string, o: Outside, later: Outside, to: string)
    requires Outstanding(c) == 0 && LeadsTo(later.plan.g, node, "noanswer", to)
    ensures var d := Land(c, Ringing(node, true), o);
      Outstanding(d) == 1 && !d.registered && GoesOnFrom(OnNoAnswer(d, later), to, c.answered, later)
  {
    EdgeLeads(later.plan.g, node, "noanswer", to);
    var d := Land(c, Ringing(node, true), o);
    var e := Resumed(d.(ringing := None, registered := true));
    assert Outstanding(e) == 0 && OnNoAnswer(d, later) == WalkOn(e, to, later);
  }

  // ---------------------------------------------------------------------------
  // Menus
  // ---------------------------------------------------------------------------

  /** Whether the node asks for speech. */
  ghost predicate AsksForSpeech(node: Node) {
    Says(node, "input", "speech") || Says(node, "input", "both")
  }

  lemma InputAskedFor(node: Node)
    ensures var input := Param(node, "input", KEYS);
      Means(node, "input", "dtmf", input) && (AsksForSpeech(node) <==> input == SPEECH || input == BOTH)
  {
    ParamMeans(node, "input", KEYS, Param(node, "input", KEYS));
  }

  /** How many digits the node asks for: the number given, none if none is. */
  lemma DigitsAskedFor(node: Node, n: nat)
    requires n < 0x8000_0000_0000_0000
    ensures Says(node, "num_digits", Numeral(n)) || (n == 0 && Silent(node, "num_digits")) ==>
      AtoiDefault(Param(node, "num_digits", "0"), 0) == n
  {
    NumberReadsBack(n, 0);
    assert Numeral(0) == "0";
  }

  /** A gather node opens a menu: as the node says, with nothing entered, a new generation and its timer. */
  lemma MenuOpens(c: Call, node: Node, o: Outside)
    requires Outstanding(c) == 0
    ensures var d := Land(c, Gathering(node), o);
      && Outstanding(d) == 1 && d.registered == c.registered && d.answered == c.answered
      && d.menu.active && d.menu.node == node.id && d.menu.digits == ""
      && Means(node, "input", "dtmf", d.menu.input)
      && d.menu.num == AtoiDefault(Param(node, "num_digits", "0"), 0)
      && d.menu.listening == (c.menu.listening || (AsksForSpeech(node) && o.sttOk))
      && d.menu.gen == c.menu.gen + 1 && d.timers == c.timers + multiset{d.menu.gen}
  {
    InputAskedFor(node);
    var input := Param(node, "input", KEYS);
    var num := AtoiDefault(Param(node, "num_digits", "0"), 0);
    var d := Opened(c, node.id, input, num, AsksForSpeech(node) && o.sttOk);
    assert Land(c, Gathering(node), o) == d.(menu := Land(c, Gathering(node), o).menu, prompts :=
      Land(c, Gathering(node), o).prompts);
    assert Land(c, Gathering(node), o).menu == d.menu.(prompt := Land(c, Gathering(node), o).menu.prompt);
  }

  /** If the node has something to say, the menu's prompt is what could be started. */
  lemma MenuSpeaks(c: Call, node: Node, o: Outside)
    ensures Land(c, Gathering(node), o).menu.prompt ==
      if o.prompt.Some? && (!Silent(node, "text") || !Silent(node, "url")) then o.prompt.value else c.menu.prompt
  {
    ParamMeans(node, "text", "", "");
    ParamMeans(node, "url", "", "");
  }

  /** Where a value leads: along its own first edge, or else along the first default edge, if those lead anywhere. */
  ghost predicate ValueLeads(g: Graph, node: string, value: string, to: string) {
    || (to != "" && LeadsTo(g, node, value, to))
    || (LeadsTo(g, node, value, "") && LeadsTo(g, node, "default", to))
  }

  lemma TargetLeads(g: Graph, node: string, value: string, to: string)
    ensures ValueLeads(g, node, value, to) <==> to == Target(g, node, value)
  {
    EdgeLeads(g, node, value, to);
    EdgeLeads(g, node, value, "");
    EdgeLeads(g, node, "default", to);
  }

  /** What is submitted closes the menu and leads on, or, if it leads nowhere, the call is rejected. */
  lemma SubmittedGoesOn(c: Call, value: string, o: Outside, to: string)
    requires c.menu.active && Outstanding(c) == 1 && c.registered && ValueLeads(o.plan.g, c.menu.node, value, to)
    ensures if to == "" then Outstanding(Submit(c, value, o)) == 0 && !Submit(c, value, o).registered
      else GoesOnFrom(Submit(c, value, o), to, c.answered, o)
  {
    TargetLeads(o.plan.g, c.menu.node, value, to);
    var e := Resumed(c.(menu := Closed(c.menu)));
    assert Outstanding(e) == 0;
    assert to != "" ==> Submit(c, value, o) == WalkOn(e, to, o);
  }

  /** When the time of the menu is over, what stands entered is submitted. */
  lemma TimeOverGoesOn(c: Call, o: Outside, to: string)
    requires c.menu.active && Outstanding(c) == 1 && c.registered && c.menu.gen in c.timers
    requires ValueLeads(o.plan.g, c.menu.node, c.menu.digits, to)
    ensures var d := OnMenuTimeout(c, c.menu.gen, o);
      if to == "" then Outstanding(d) == 0 && !d.registered else GoesOnFrom(d, to, c.answered, o)
  {
    SubmittedGoesOn(c.(timers := c.timers - multiset{c.menu.gen}), c.menu.digits, o, to);
  }

  /** A recognised option is submitted. */
  lemma HeardGoesOn(c: Call, option: string, o: Outside, to: string)
    requires c.menu.active && Outstanding(c) == 1 && c.registered && c.menu.input in {"speech", "both"}
    requires ValueLeads(o.plan.g, c.menu.node, option, to)
    ensures var d := OnHeard(c, Some(option), o);
      if to == "" then Outstanding(d) == 0 && !d.registered else GoesOnFrom(d, to, c.answered, o)
  {
    SubmittedGoesOn(c, option, o, to);
  }

  /** A key of an open menu: what it makes due is submitted, from the menu as the key leaves it. */
  lemma KeyGoesOn(c: Call, key: string, o: Outside)
    requires c.registered && c.menu.active
    ensures var (menu, value) := Press(o.plan.g, c.menu, key);
      OnKey(c, key, o) == if value.None? then c.(menu := menu) else Submit(c.(menu := menu), value.value, o)
  {
  }

  /** Whatever a call waits for, it goes on waiting for through any other event, until it leaves the register. */
  lemma OthersLeaveItWaiting(c: Call, e: Event, o: Outside)
    requires !Awaited(c, e)
    ensures var d := Next(c, e, o);
      && d.resumeNode == (if e == Connected && c.registered then "" else c.resumeNode)
      && d.pendingID == c.pendingID && d.nextNode == c.nextNode
      && d.menu == c.menu.(prompt := d.menu.prompt) && d.waits == c.waits && d.ringing == c.ringing
      && (d.registered <==> c.registered && e != Disconnected)
      && d.answered == (c.answered || (e == Connected && c.registered))
  {
  }
}
