/**
 A call in the dial plan between two walks (cmd/pbx/dialplan_engine.go,
 dialplan_gather.go): what it waits for, and what each event makes of that.
 Every handler is one step here.

 A call can wait for its leg to connect, for a prompt to finish, for menu input, for
 a timer, or for a ringing hand-off to come back: its continuations.
 */
module DialplanExec {
  import opened Options
  import opened DialplanGraph
  import opened StepGuard
  import opened DialplanWalk
  import opened Gather

  datatype Call = Call(
    registered: bool,          // events for the leg find the call
    answered: bool,
    resumeNode: string,        // node to enter again once the leg connects
    pendingID: string,         // prompt whose end is waited for
    nextNode: string,          // node to go to then
    menu: Menu,
    timers: multiset<nat>,     // running menu timers, by generation
    waits: multiset<string>,   // running wait-node timers, by node
    ringing: Option<string>,   // ext or forward node to come back to if nobody answers
    asked: nat,                // answer commands issued
    prompts: set<string>,      // prompt ids the server has handed out
    suspended: nat,            // times a walk ended in a continuation
    resumed: nat,              // times a continuation was used up
    lost: bool)                // a walk did not end

  /** What the outside answers while an event is handled. */
  datatype Outside = Outside(
    plan: Plan,
    budget: nat,               // node visits to follow a walk for
    answerOk: bool,            // answering the leg succeeds
    prompt: Option<string>,    // the id of the prompt started, if it could be
    sttOk: bool)               // speech recognition could be started

  datatype Event =
    | Connected
    | PromptFinished(id: string)
    | Key(key: string)
    | Heard(option: Option<string>)   // a final transcript, matched against the options
    | MenuTimeout(gen: nat)
    | WaitOver(node: string)
    | NoAnswer
    | Disconnected

  // ---------------------------------------------------------------------------
  // Where a walk leaves the call
  // ---------------------------------------------------------------------------

  function WithPrompt(c: Call, id: string): Call {
    c.(prompts := c.prompts + {id})
  }

  /** Collecting starts: a fresh entry, and a new generation with its own timer. */
  function Opened(c: Call, node: string, input: string, num: int, hears: bool): Call {
    var gen := c.menu.gen + 1;
    var m := c.menu.(active := true, node := node, input := input, digits := "", num := num, gen := gen,
      listening := c.menu.listening || hears);
    c.(menu := m, timers := c.timers + multiset{gen}, suspended := c.suspended + 1)
  }

  /** The menu's prompt plays, if it could be started. */
  function Prompted(c: Call, prompt: Option<string>): Call {
    if prompt.None? then c
    else c.(menu := c.menu.(prompt := prompt.value), prompts := c.prompts + {prompt.value})
  }

  /** Entering a gather node on an answered leg. */
  function BeginMenu(c: Call, node: Node, o: Outside): Call {
    var speaks := Param(node, "text", "") != "" || Param(node, "url", "") != "";
    var input := Param(node, "input", KEYS);
    var num := AtoiDefault(Param(node, "num_digits", "0"), 0);
    var begun := Opened(c, node.id, input, num, (input == SPEECH || input == BOTH) && o.sttOk);
    if speaks then Prompted(begun, o.prompt) else begun
  }

  function Land(c: Call, stop: Stop, o: Outside): Call {
    match stop
    case Rejected(_) => c.(registered := false)
    case HungUp => c.(registered := false)
    case ToIvr => c.(registered := false)
    case Answering(node) => c.(resumeNode := node, asked := c.asked + 1, suspended := c.suspended + 1,
      registered := c.registered && o.answerOk)
    case Gathering(node) => BeginMenu(c, node, o)
    case WaitingAt(node, _) => c.(waits := c.waits + multiset{node}, suspended := c.suspended + 1)
    case Prompting(_, next) =>
      if o.prompt.None? then c.(registered := false)
      else WithPrompt(c, o.prompt.value).(pendingID := o.prompt.value, nextNode := next, suspended := c.suspended + 1)
    case Ringing(node, resumes) =>
      if resumes then c.(registered := false, ringing := Some(node), suspended := c.suspended + 1)
      else c.(registered := false)
  }

  /** The plan as the call sees it. */
  function PlanFor(c: Call, o: Outside): Plan {
    o.plan.(answered := c.answered)
  }

  /** The walk from a node, and where it leaves the call. */
  function WalkOn(c: Call, node: string, o: Outside): Call {
    var p := PlanFor(c, o);
    match WalkFrom(p, node, o.budget)
    case None => c.(lost := true)
    case Some(stop) => Land(c.(registered := c.registered || Readmits(p, node, 0, o.budget)), stop, o)
  }

  // ---------------------------------------------------------------------------
  // The handlers
  // ---------------------------------------------------------------------------

  function NewCall(answered: bool): Call {
    var closed := Menu(false, "", "", false, "", "", 0, 0);
    Call(true, answered, "", "", "", closed, multiset{}, multiset{}, None, 0, {}, 0, 0, false)
  }

  /** A new inbound call: the walk from behind the start node, or a rejection. */
  function Begin(answered: bool, o: Outside): Call {
    var start := StartOf(o.plan.g.nodes);
    if start.None? then NewCall(answered).(registered := false)
    else WalkOn(NewCall(answered), EdgeTo(o.plan.g.edges, start.value.id, PORT_OUT), o)
  }

  /** A continuation is used up. */
  function Resumed(c: Call): Call {
    c.(resumed := c.resumed + 1)
  }

  function OnConnected(c: Call, o: Outside): Call {
    if !c.registered then c
    else
      var c' := c.(answered := true, resumeNode := "");
      if c.resumeNode == "" then c' else WalkOn(Resumed(c'), c.resumeNode, o)
  }

  function OnPromptFinished(c: Call, id: string, o: Outside): Call {
    if !c.registered then c
    else if c.menu.active then (if c.menu.prompt == id then c.(menu := c.menu.(prompt := "")) else c)
    else if c.pendingID == "" || c.pendingID != id then c
    else WalkOn(Resumed(c.(pendingID := "", nextNode := "")), c.nextNode, o)
  }

  function Submit(c: Call, value: string, o: Outside): Call {
    if !c.menu.active then c
    else
      var c' := Resumed(c.(menu := Closed(c.menu)));
      var target := Target(o.plan.g, c.menu.node, value);
      if target == "" then c'.(registered := false) else WalkOn(c', target, o)
  }

  function OnKey(c: Call, key: string, o: Outside): Call {
    if !c.registered || !c.menu.active then c
    else
      var (menu, value) := Press(o.plan.g, c.menu, key);
      if value.None? then c.(menu := menu) else Submit(c.(menu := menu), value.value, o)
  }

  /** The call is in a menu that listens for speech. */
  predicate Listens(c: Call) {
    c.registered && c.menu.active && (c.menu.input == SPEECH || c.menu.input == BOTH)
  }

  function OnHeard(c: Call, option: Option<string>, o: Outside): Call {
    if !Listens(c) || option.None? then c
    else Submit(c, option.value, o)
  }

  function OnMenuTimeout(c: Call, gen: nat, o: Outside): Call {
    if gen !in c.timers then c
    else
      var c' := c.(timers := c.timers - multiset{gen});
      if c.menu.active && c.menu.gen == gen then Submit(c', c.menu.digits, o) else c'
  }

  function OnWaitOver(c: Call, node: string, o: Outside): Call {
    if node !in c.waits then c
    else WalkOn(Resumed(c.(waits := c.waits - multiset{node})), EdgeTo(o.plan.g.edges, node, PORT_NEXT), o)
  }

  function OnNoAnswer(c: Call, o: Outside): Call {
    if c.ringing.None? then c
    else WalkOn(Resumed(c.(ringing := None, registered := true)),
      EdgeTo(o.plan.g.edges, c.ringing.value, PORT_NOANSWER), o)
  }

  function Next(c: Call, e: Event, o: Outside): Call {
    match e
    case Connected => OnConnected(c, o)
    case PromptFinished(id) => OnPromptFinished(c, id, o)
    case Key(key) => OnKey(c, key, o)
    case Heard(option) => OnHeard(c, option, o)
    case MenuTimeout(gen) => OnMenuTimeout(c, gen, o)
    case WaitOver(node) => OnWaitOver(c, node, o)
    case NoAnswer => OnNoAnswer(c, o)
    case Disconnected => c.(registered := false)
  }

  datatype Occurrence = Occurrence(event: Event, outside: Outside)

  function Run(c: Call, events: seq<Occurrence>): Call
    decreases |events|
  {
    if events == [] then c
    else
      var before := Run(c, events[..|events| - 1]);
      Next(before, events[|events| - 1].event, events[|events| - 1].outside)
  }

  /** The server hands out every prompt id once, and none is empty. */
  predicate FreshPrompt(c: Call, o: Outside) {
    o.prompt.Some? ==> o.prompt.value != "" && o.prompt.value !in c.prompts
  }

  predicate FreshRun(c: Call, events: seq<Occurrence>)
    decreases |events|
  {
    events == [] || (
      var before := events[..|events| - 1];
      FreshRun(c, before) && FreshPrompt(Run(c, before), events[|events| - 1].outside))
  }

  // ---------------------------------------------------------------------------
  // One continuation at a time
  // ---------------------------------------------------------------------------

  function Count(b: bool): nat {
    if b then 1 else 0
  }

  /** How many continuations are outstanding. */
  function Outstanding(c: Call): nat {
    Count(c.resumeNode != "") + Count(c.pendingID != "") + Count(c.menu.active) + |c.waits| + Count(c.ringing.Some?)
  }

  ghost predicate Inv(c: Call) {
    && Outstanding(c) <= 1
    && c.resumed + Outstanding(c) <= c.suspended
    && c.asked <= 1
    && (c.asked == 1 && !c.answered ==> Outstanding(c) == Count(c.resumeNode != ""))
    && (forall gen | gen in c.timers :: gen <= c.menu.gen && c.timers[gen] == 1)
    && (c.menu.active ==> c.menu.gen in c.timers)
    && (c.pendingID != "" ==> c.pendingID in c.prompts)
  }

  /** Nothing outstanding, and free to walk. */
  ghost predicate Ready(c: Call) {
    Inv(c) && Outstanding(c) == 0 && c.resumed < c.suspended + 1 && (c.asked == 1 ==> c.answered)
  }

  lemma OpenedKeeps(c: Call, node: string, input: string, num: int, hears: bool)
    requires Ready(c)
    ensures Inv(Opened(c, node, input, num, hears))
  {
  }

  lemma PromptedKeeps(c: Call, prompt: Option<string>)
    requires Inv(c)
    ensures Inv(Prompted(c, prompt))
  {
  }

  lemma BeginMenuKeeps(c: Call, node: Node, o: Outside)
    requires Ready(c)
    ensures Inv(BeginMenu(c, node, o))
  {
    var input := Param(node, "input", KEYS);
    var num := AtoiDefault(Param(node, "num_digits", "0"), 0);
    var hears := (input == SPEECH || input == BOTH) && o.sttOk;
    OpenedKeeps(c, node.id, input, num, hears);
    PromptedKeeps(Opened(c, node.id, input, num, hears), o.prompt);
  }

  lemma LandKeeps(c: Call, stop: Stop, o: Outside)
    requires Ready(c) && Fits(c.answered, stop) && FreshPrompt(c, o)
    ensures Inv(Land(c, stop, o))
  {
    if stop.Gathering? {
      BeginMenuKeeps(c, stop.asks, o);
    }
  }

  lemma WalkOnKeeps(c: Call, node: string, o: Outside)
    requires Ready(c) && FreshPrompt(c, o)
    ensures Inv(WalkOn(c, node, o))
  {
    var p := PlanFor(c, o);
    WalkStopFits(p, node, 0, o.budget);
    var stop := WalkFrom(p, node, o.budget);
    if stop.Some? {
      LandKeeps(c.(registered := c.registered || Readmits(p, node, 0, o.budget)), stop.value, o);
    }
  }

  /** With the menu closed, if one is open, the call is free to walk. */
  ghost predicate CanSubmit(c: Call) {
    if c.menu.active then Ready(Resumed(c.(menu := Closed(c.menu)))) else Inv(c)
  }

  lemma ValidCanSubmit(c: Call)
    requires Inv(c)
    ensures CanSubmit(c)
    ensures c.menu.active ==> CanSubmit(c.(timers := c.timers - multiset{c.menu.gen}))
  {
  }

  lemma BeginKeeps(answered: bool, o: Outside)
    requires o.prompt.Some? ==> o.prompt.value != ""
    ensures Inv(Begin(answered, o))
  {
    var start := StartOf(o.plan.g.nodes);
    if start.Some? {
      WalkOnKeeps(NewCall(answered), EdgeTo(o.plan.g.edges, start.value.id, PORT_OUT), o);
    }
  }

  lemma SubmitKeeps(c: Call, value: string, o: Outside)
    requires CanSubmit(c) && FreshPrompt(c, o)
    ensures Inv(Submit(c, value, o))
  {
    if c.menu.active {
      WalkOnKeeps(Resumed(c.(menu := Closed(c.menu))), Target(o.plan.g, c.menu.node, value), o);
    }
  }

  lemma MenuTimeoutKeeps(c: Call, gen: nat, o: Outside)
    requires Inv(c) && FreshPrompt(c, o)
    ensures Inv(OnMenuTimeout(c, gen, o))
  {
    if gen in c.timers && c.menu.active && c.menu.gen == gen {
      ValidCanSubmit(c);
      SubmitKeeps(c.(timers := c.timers - multiset{gen}), c.menu.digits, o);
    }
  }

  lemma WaitOverKeeps(c: Call, node: string, o: Outside)
    requires Inv(c) && FreshPrompt(c, o)
    ensures Inv(OnWaitOver(c, node, o))
  {
    if node in c.waits {
      var c' := Resumed(c.(waits := c.waits - multiset{node}));
      assert Outstanding(c') == Outstanding(c) - 1;
      WalkOnKeeps(c', EdgeTo(o.plan.g.edges, node, PORT_NEXT), o);
    }
  }

  /** A key only touches the entry and the prompt. */
  lemma PressKeeps(c: Call, g: Graph, key: string)
    requires Inv(c)
    ensures Inv(c.(menu := Press(g, c.menu, key).0)) && CanSubmit(c.(menu := Press(g, c.menu, key).0))
  {
    ValidCanSubmit(c.(menu := Press(g, c.menu, key).0));
  }

  lemma KeyKeeps(c: Call, key: string, o: Outside)
    requires Inv(c) && FreshPrompt(c, o)
    ensures Inv(OnKey(c, key, o))
  {
    if c.registered && c.menu.active {
      var (menu, value) := Press(o.plan.g, c.menu, key);
      PressKeeps(c, o.plan.g, key);
      if value.Some? {
        SubmitKeeps(c.(menu := menu), value.value, o);
      }
    }
  }

  lemma ConnectedKeeps(c: Call, o: Outside)
    requires Inv(c) && FreshPrompt(c, o)
    ensures Inv(OnConnected(c, o))
  {
    if c.registered && c.resumeNode != "" {
      WalkOnKeeps(Resumed(c.(answered := true, resumeNode := "")), c.resumeNode, o);
    }
  }

  lemma PromptFinishedKeeps(c: Call, id: string, o: Outside)
    requires Inv(c) && FreshPrompt(c, o)
    ensures Inv(OnPromptFinished(c, id, o))
  {
    if c.registered && !c.menu.active && c.pendingID != "" && c.pendingID == id {
      WalkOnKeeps(Resumed(c.(pendingID := "", nextNode := "")), c.nextNode, o);
    }
  }

  lemma HeardKeeps(c: Call, option: Option<string>, o: Outside)
    requires Inv(c) && FreshPrompt(c, o)
    ensures Inv(OnHeard(c, option, o))
  {
    if option.Some? {
      ValidCanSubmit(c);
      SubmitKeeps(c, option.value, o);
    }
  }

  lemma NoAnswerKeeps(c: Call, o: Outside)
    requires Inv(c) && FreshPrompt(c, o)
    ensures Inv(OnNoAnswer(c, o))
  {
    if c.ringing.Some? {
      var node := c.ringing.value;
      WalkOnKeeps(Resumed(c.(ringing := None, registered := true)), EdgeTo(o.plan.g.edges, node, PORT_NOANSWER), o);
    }
  }

  lemma NextKeeps(c: Call, e: Event, o: Outside)
    requires Inv(c) && FreshPrompt(c, o)
    ensures Inv(Next(c, e, o))
  {
    match e
    case Connected => ConnectedKeeps(c, o);
    case PromptFinished(id) => PromptFinishedKeeps(c, id, o);
    case Key(key) => KeyKeeps(c, key, o);
    case Heard(option) => HeardKeeps(c, option, o);
    case MenuTimeout(gen) => MenuTimeoutKeeps(c, gen, o);
    case WaitOver(node) => WaitOverKeeps(c, node, o);
    case NoAnswer => NoAnswerKeeps(c, o);
    case Disconnected => assert Inv(c.(registered := false));
  }

  lemma {:induction false} RunKeeps(c: Call, events: seq<Occurrence>)
    requires Inv(c) && FreshRun(c, events)
    ensures Inv(Run(c, events))
    decreases |events|
  {
    if events != [] {
      RunKeeps(c, events[..|events| - 1]);
      NextKeeps(Run(c, events[..|events| - 1]), events[|events| - 1].event, events[|events| - 1].outside);
    }
  }

  /**
   Over every run of a call: at most one continuation is outstanding, no more are used
   up than were made, the leg is answered at most once, and an open menu has its timer.
   */
  lemma OneContinuation(answered: bool, o: Outside, events: seq<Occurrence>)
    requires o.prompt.Some? ==> o.prompt.value != ""
    requires FreshRun(Begin(answered, o), events)
    ensures var c := Run(Begin(answered, o), events);
      && Outstanding(c) <= 1
      && c.resumed + Outstanding(c) <= c.suspended
      && c.asked <= 1
      && (c.menu.active ==> c.menu.gen in c.timers)
  {
    BeginKeeps(answered, o);
    RunKeeps(Begin(answered, o), events);
  }

  /** The event that an outstanding continuation waits for. */
  predicate Awaited(c: Call, e: Event) {
    match e
    case Connected => c.registered && c.resumeNode != ""
    case PromptFinished(id) => c.registered && !c.menu.active && id != "" && id == c.pendingID
    case Key(_) => c.registered && c.menu.active && c.menu.input != SPEECH
    case Heard(option) => Listens(c) && option.Some?
    case MenuTimeout(gen) => c.menu.active && gen == c.menu.gen && gen in c.timers
    case WaitOver(node) => node in c.waits
    case NoAnswer => c.ringing.Some?
    case Disconnected => false
  }

  lemma SubmitCounts(c: Call, value: string, o: Outside)
    ensures Submit(c, value, o).resumed == c.resumed + Count(c.menu.active)
  {
    if c.menu.active {
      WalkOnCounts(Resumed(c.(menu := Closed(c.menu))), Target(o.plan.g, c.menu.node, value), o);
    }
  }

  lemma KeyCounts(c: Call, key: string, o: Outside)
    ensures c.resumed <= OnKey(c, key, o).resumed <= c.resumed + Count(Awaited(c, Key(key)))
  {
    if c.registered && c.menu.active {
      var (menu, value) := Press(o.plan.g, c.menu, key);
      if value.Some? {
        SubmitCounts(c.(menu := menu), value.value, o);
      }
    }
  }

  lemma ConnectedCounts(c: Call, o: Outside)
    ensures OnConnected(c, o).resumed == c.resumed + Count(Awaited(c, Connected))
  {
    WalkOnCounts(Resumed(c.(answered := true, resumeNode := "")), c.resumeNode, o);
  }

  lemma PromptFinishedCounts(c: Call, id: string, o: Outside)
    ensures OnPromptFinished(c, id, o).resumed == c.resumed + Count(Awaited(c, PromptFinished(id)))
  {
    WalkOnCounts(Resumed(c.(pendingID := "", nextNode := "")), c.nextNode, o);
  }

  lemma HeardCounts(c: Call, option: Option<string>, o: Outside)
    ensures OnHeard(c, option, o).resumed == c.resumed + Count(Awaited(c, Heard(option)))
  {
    if option.Some? {
      SubmitCounts(c, option.value, o);
    }
  }

  lemma MenuTimeoutCounts(c: Call, gen: nat, o: Outside)
    ensures OnMenuTimeout(c, gen, o).resumed == c.resumed + Count(Awaited(c, MenuTimeout(gen)))
  {
    SubmitCounts(c.(timers := c.timers - multiset{gen}), c.menu.digits, o);
  }

  lemma WaitOverCounts(c: Call, node: string, o: Outside)
    ensures OnWaitOver(c, node, o).resumed == c.resumed + Count(Awaited(c, WaitOver(node)))
  {
    WalkOnCounts(Resumed(c.(waits := c.waits - multiset{node})), EdgeTo(o.plan.g.edges, node, PORT_NEXT), o);
  }

  lemma NoAnswerCounts(c: Call, o: Outside)
    ensures OnNoAnswer(c, o).resumed == c.resumed + Count(Awaited(c, NoAnswer))
  {
    if c.ringing.Some? {
      var node := c.ringing.value;
      WalkOnCounts(Resumed(c.(ringing := None, registered := true)), EdgeTo(o.plan.g.edges, node, PORT_NOANSWER), o);
    }
  }

  /** An event uses up the continuation that waits for it, once, and no event uses up another. */
  lemma OnlyAwaitedResumes(c: Call, e: Event, o: Outside)
    ensures c.resumed <= Next(c, e, o).resumed <= c.resumed + Count(Awaited(c, e))
    ensures !e.Key? ==> Next(c, e, o).resumed == c.resumed + Count(Awaited(c, e))
  {
    match e
    case Connected => ConnectedCounts(c, o);
    case PromptFinished(id) => PromptFinishedCounts(c, id, o);
    case Key(key) => KeyCounts(c, key, o);
    case Heard(option) => HeardCounts(c, option, o);
    case MenuTimeout(gen) => MenuTimeoutCounts(c, gen, o);
    case WaitOver(node) => WaitOverCounts(c, node, o);
    case NoAnswer => NoAnswerCounts(c, o);
    case Disconnected =>
  }

  // ---------------------------------------------------------------------------
  // Stale events
  // ---------------------------------------------------------------------------

  /** The prompt has been played, and is not waited for any more. */
  predicate Spent(c: Call, id: string) {
    id in c.prompts && id != c.pendingID
  }

  /** The menu of this generation is over. */
  predicate Over(c: Call, gen: nat) {
    c.menu.gen > gen || (c.menu.gen == gen && !c.menu.active)
  }

  lemma LandLeavesBehind(c: Call, stop: Stop, o: Outside, id: string, gen: nat)
    requires FreshPrompt(c, o)
    ensures Spent(c, id) ==> Spent(Land(c, stop, o), id)
    ensures Over(c, gen) ==> Over(Land(c, stop, o), gen)
  {
  }

  lemma WalkOnLeavesBehind(c: Call, node: string, o: Outside, id: string, gen: nat)
    requires FreshPrompt(c, o)
    ensures Spent(c, id) ==> Spent(WalkOn(c, node, o), id)
    ensures Over(c, gen) ==> Over(WalkOn(c, node, o), gen)
  {
    var p := PlanFor(c, o);
    var stop := WalkFrom(p, node, o.budget);
    if stop.Some? {
      LandLeavesBehind(c.(registered := c.registered || Readmits(p, node, 0, o.budget)), stop.value, o, id, gen);
    }
  }

  lemma SubmitLeavesBehind(c: Call, value: string, o: Outside, id: string, gen: nat)
    requires FreshPrompt(c, o)
    ensures Spent(c, id) ==> Spent(Submit(c, value, o), id)
    ensures Over(c, gen) ==> Over(Submit(c, value, o), gen)
  {
    if c.menu.active {
      WalkOnLeavesBehind(Resumed(c.(menu := Closed(c.menu))), Target(o.plan.g, c.menu.node, value), o, id, gen);
    }
  }

  lemma KeyLeavesBehind(c: Call, key: string, o: Outside, id: string, gen: nat)
    requires FreshPrompt(c, o)
    ensures Spent(c, id) ==> Spent(OnKey(c, key, o), id)
    ensures Over(c, gen) ==> Over(OnKey(c, key, o), gen)
  {
    if c.registered && c.menu.active {
      var (menu, value) := Press(o.plan.g, c.menu, key);
      if value.Some? {
        SubmitLeavesBehind(c.(menu := menu), value.value, o, id, gen);
      }
    }
  }

  lemma TimeoutLeavesBehind(c: Call, timer: nat, o: Outside, id: string, gen: nat)
    requires FreshPrompt(c, o)
    ensures Spent(c, id) ==> Spent(OnMenuTimeout(c, timer, o), id)
    ensures Over(c, gen) ==> Over(OnMenuTimeout(c, timer, o), gen)
  {
    if timer in c.timers {
      SubmitLeavesBehind(c.(timers := c.timers - multiset{timer}), c.menu.digits, o, id, gen);
    }
  }

  lemma NextLeavesBehind(c: Call, e: Event, o: Outside, id: string, gen: nat)
    requires FreshPrompt(c, o) && id != ""
    ensures Spent(c, id) ==> Spent(Next(c, e, o), id)
    ensures Over(c, gen) ==> Over(Next(c, e, o), gen)
  {
    match e
    case Connected =>
      if c.registered && c.resumeNode != "" {
        WalkOnLeavesBehind(Resumed(c.(answered := true, resumeNode := "")), c.resumeNode, o, id, gen);
      }
    case PromptFinished(done) =>
      if c.registered && !c.menu.active && c.pendingID != "" && c.pendingID == done {
        WalkOnLeavesBehind(Resumed(c.(pendingID := "", nextNode := "")), c.nextNode, o, id, gen);
      }
    case Key(key) => KeyLeavesBehind(c, key, o, id, gen);
    case Heard(option) => if option.Some? { SubmitLeavesBehind(c, option.value, o, id, gen); }
    case MenuTimeout(timer) => TimeoutLeavesBehind(c, timer, o, id, gen);
    case WaitOver(node) =>
      if node in c.waits {
        var c' := Resumed(c.(waits := c.waits - multiset{node}));
        WalkOnLeavesBehind(c', EdgeTo(o.plan.g.edges, node, PORT_NEXT), o, id, gen);
      }
    case NoAnswer =>
      if c.ringing.Some? {
        WalkOnLeavesBehind(Resumed(c.(ringing := None, registered := true)),
          EdgeTo(o.plan.g.edges, c.ringing.value, PORT_NOANSWER), o, id, gen);
      }
    case Disconnected =>
  }

  lemma {:induction false} RunLeavesBehind(c: Call, events: seq<Occurrence>, id: string, gen: nat)
    requires FreshRun(c, events) && id != ""
    ensures Spent(c, id) ==> Spent(Run(c, events), id)
    ensures Over(c, gen) ==> Over(Run(c, events), gen)
    decreases |events|
  {
    if events != [] {
      var before := Run(c, events[..|events| - 1]);
      RunLeavesBehind(c, events[..|events| - 1], id, gen);
      NextLeavesBehind(before, events[|events| - 1].event, events[|events| - 1].outside, id, gen);
    }
  }

  /** Whatever happens after a prompt was spent, another end of it moves nothing on. */
  lemma StalePromptDoesNothing(c: Call, events: seq<Occurrence>, id: string, o: Outside)
    requires id != "" && Spent(c, id) && FreshRun(c, events)
    ensures var now := Run(c, events);
      OnPromptFinished(now, id, o) == if now.registered && now.menu.active && now.menu.prompt == id
        then now.(menu := now.menu.(prompt := "")) else now
  {
    RunLeavesBehind(c, events, id, 0);
  }

  /** Whatever happens after a menu was over, its timer only goes away. */
  lemma StaleTimerDoesNothing(c: Call, events: seq<Occurrence>, gen: nat, o: Outside)
    requires Over(c, gen) && FreshRun(c, events)
    ensures var now := Run(c, events);
      OnMenuTimeout(now, gen, o) == if gen in now.timers then now.(timers := now.timers - multiset{gen}) else now
  {
    RunLeavesBehind(c, events, "id", gen);
  }

  /**
   What speech can submit is wired: it is followed like a key entry, never sent to the default for
   want of an edge.
   */
  lemma HeardOptionIsWired(g: Graph, node: string, option: string)
    requires option in GatherOptions(g.edges, node)
    ensures exists i ::
      0 <= i < |g.edges| && Leaves(g.edges[i], node, option) && EdgeTo(g.edges, node, option) == g.edges[i].to
  {
    assert HasEdge(g.edges, node, option);
  }

  /** A prompt is spent from the moment its end is handled. */
  lemma HandledPromptIsSpent(c: Call, id: string, o: Outside)
    requires Inv(c) && FreshPrompt(c, o) && c.registered && !c.menu.active && c.pendingID == id != ""
    ensures Spent(OnPromptFinished(c, id, o), id)
    ensures OnPromptFinished(c, id, o).resumed == c.resumed + 1
  {
    var c' := Resumed(c.(pendingID := "", nextNode := ""));
    WalkOnLeavesBehind(c', c.nextNode, o, id, 0);
    WalkOnCounts(c', c.nextNode, o);
  }

  lemma WalkOnCounts(c: Call, node: string, o: Outside)
    ensures WalkOn(c, node, o).resumed == c.resumed
  {
    var p := PlanFor(c, o);
    var stop := WalkFrom(p, node, o.budget);
    if stop.Some? {
      LandLosesNothing(c.(registered := c.registered || Readmits(p, node, 0, o.budget)), stop.value, o);
    }
  }

  /** A menu is over from the moment anything is submitted. */
  lemma SubmittedMenuIsOver(c: Call, value: string, o: Outside)
    requires c.menu.active && FreshPrompt(c, o)
    ensures Over(Submit(c, value, o), c.menu.gen)
  {
    var c' := Resumed(c.(menu := Closed(c.menu)));
    assert Over(c', c.menu.gen);
    WalkOnLeavesBehind(c', Target(o.plan.g, c.menu.node, value), o, "id", c.menu.gen);
  }

  // ---------------------------------------------------------------------------
  // No walk is lost
  // ---------------------------------------------------------------------------

  /**
   For the call answered or not: no restarting node is back at itself within the guard's reach,
   and walks are followed long enough.
   */
  ghost predicate Sound(o: Outside) {
    forall answered: bool ::
      var p := o.plan.(answered := answered);
      NoRestartLoop(MovesOf(p)) && Enough(p) <= o.budget
  }

  lemma SoundWalkEnds(c: Call, node: string, o: Outside)
    requires Sound(o)
    ensures WalkOn(c, node, o).lost == c.lost
  {
    var p := PlanFor(c, o);
    assert p == o.plan.(answered := c.answered);
    WalksEndExactly(p);
    assert WalkFrom(p, node, Enough(p)).Some?;
    WalkOnMore(MovesOf(p), TOO_FAR, node, 0, Enough(p), o.budget);
    LandLosesNothing(c.(registered := c.registered || Readmits(p, node, 0, o.budget)),
      WalkFrom(p, node, o.budget).value, o);
  }

  lemma LandLosesNothing(c: Call, stop: Stop, o: Outside)
    ensures Land(c, stop, o).lost == c.lost && Land(c, stop, o).resumed == c.resumed
  {
  }

  lemma NextLosesNothing(c: Call, e: Event, o: Outside)
    requires Sound(o)
    ensures Next(c, e, o).lost == c.lost
  {
    forall c', node ensures WalkOn(c', node, o).lost == c'.lost {
      SoundWalkEnds(c', node, o);
    }
  }

  /** With such plans no run loses a walk: every handler comes back. */
  lemma {:induction false} NoWalkIsLost(answered: bool, o: Outside, events: seq<Occurrence>)
    requires Sound(o) && forall i | 0 <= i < |events| :: Sound(events[i].outside)
    ensures !Run(Begin(answered, o), events).lost
    decreases |events|
  {
    if events == [] {
      var start := StartOf(o.plan.g.nodes);
      if start.Some? {
        SoundWalkEnds(NewCall(answered), EdgeTo(o.plan.g.edges, start.value.id, PORT_OUT), o);
      }
    } else {
      var before := events[..|events| - 1];
      NoWalkIsLost(answered, o, before);
      NextLosesNothing(Run(Begin(answered, o), before), events[|events| - 1].event, events[|events| - 1].outside);
    }
  }
}
