/**
 The synchronous part of the dial-plan interpreter (cmd/pbx/dialplan_engine.go):
 from one node to the next until the call is handed off or suspends.

 Each walk is over an unchanging graph and an unchanging view of the call and of
 what can be reached, taken together as a Plan. StepGuard has the theory of the
 fifty-step guard; here it is applied to what these nodes do.
 */
module DialplanWalk {
  import opened Options
  import opened DialplanGraph
  import opened StepGuard

  /** Where an extension can be rung: its registered phone, or a browser signed in for it and idle. */
  datatype Endpoint = Phone(address: string) | Browser(leg: string, doNotDisturb: bool)

  /** What a walk reads: the graph, the call, the tenant's endpoints and trunks, and what the server will do. */
  datatype Plan = Plan(
    g: Graph,
    trunkID: string,
    did: string,
    answered: bool,
    regexMatches: (string, string) -> bool,
    endpoints: string -> seq<Endpoint>,      // of the extension with this number, if there is one
    trunkHost: string -> Option<string>,     // the host of a trunk of this tenant
    outboundHost: Option<string>,            // the host of the tenant's outbound trunk
    roomMade: bool,                          // the server makes a room for the call, or has it
    reaches: Endpoint -> bool,               // the server makes the leg to the phone, the browser is still signed in
    leaves: Endpoint -> bool)                // it rings, but has left before those that decline are told to

  /** How a walk ends. */
  datatype Stop =
    | Rejected(reason: string)
    | HungUp
    | ToIvr
    | Answering(node: string)
    | Gathering(asks: Node)
    | WaitingAt(node: string, seconds: int)
    | Prompting(node: string, next: string)
    | Ringing(node: string, resumes: bool)   // with or without a noanswer edge to come back by

  const DECLINED := "declined"
  const TOO_FAR := Rejected(DECLINED)

  predicate MatchesCall(p: Plan, node: Node) {
    var t := Param(node, "trunk", "");
    if t != "" && t != p.trunkID then false
    else
      var mode, val := Param(node, "did_mode", "any"), Param(node, "did", "");
      if mode == "any" then true
      else if mode == "exact" then p.did == val
      else if mode == "prefix" then val <= p.did
      else if mode == "regex" then p.regexMatches(val, p.did)
      else false
  }

  /** All that a list of extension numbers can be rung at. */
  function Targets(p: Plan, numbers: seq<string>): seq<Endpoint> {
    if numbers == [] then [] else p.endpoints(numbers[0]) + Targets(p, numbers[1..])
  }

  function TargetsOf(p: Plan, node: Node): seq<Endpoint> {
    Targets(p, SplitCSV(Param(node, "number", "")))
  }

  /** A browser that is not to be disturbed becomes a candidate, and declines on the spot. */
  predicate Declines(target: Endpoint) {
    target.Browser? && target.doNotDisturb
  }

  predicate AnyCandidate(p: Plan, targets: seq<Endpoint>) {
    p.roomMade && exists t :: t in targets && p.reaches(t)
  }

  /** Some candidate declines on the spot, and none is left then that does not. */
  predicate AllDecline(p: Plan, targets: seq<Endpoint>) {
    && (exists t :: t in targets && p.reaches(t) && Declines(t))
    && (forall t | t in targets && p.reaches(t) :: Declines(t) || p.leaves(t))
  }

  /** Where a forward node dials: a number at the host of its trunk, or of the outbound one. */
  function ForwardAddress(p: Plan, node: Node): Option<string> {
    var own := p.trunkHost(Param(node, "trunk", ""));
    var host := if own.Some? then own else p.outboundHost;
    var number := Param(node, "number", "");
    if host.Some? && host.value != "" && number != "" then Some("sip:" + number + "@" + host.value) else None
  }

  /** Ringing somebody, with the noanswer edge to come back by if there is one. */
  function RingFrom(p: Plan, node: Node): Move<Stop> {
    Halt(Ringing(node.id, EdgeTo(p.g.edges, node.id, PORT_NOANSWER) != ""))
  }

  /** Nobody there: the noanswer edge with a fresh step count, or the end of the call. */
  function Unreachable(p: Plan, node: Node): Move<Stop> {
    var next := EdgeTo(p.g.edges, node.id, PORT_NOANSWER);
    if next != "" then Restart(next) else Halt(HungUp)
  }

  /**
   Ringing all targets at once. Without any target, nobody is there. If none becomes a candidate,
   the call ends. If those that decline on the spot are the last ones, nobody is there after all,
   and that on the stack of this walk.
   */
  function RingAll(p: Plan, node: Node): Move<Stop> {
    var targets := TargetsOf(p, node);
    if targets == [] then Unreachable(p, node)
    else if !AnyCandidate(p, targets) then Halt(HungUp)
    else if AllDecline(p, targets) then Unreachable(p, node)
    else RingFrom(p, node)
  }

  /** Dialling out: without an address nobody is there, and a leg that cannot be made ends the call. */
  function DialOut(p: Plan, node: Node): Move<Stop> {
    var address := ForwardAddress(p, node);
    if address.None? then Unreachable(p, node)
    else if AnyCandidate(p, [Phone(address.value)]) then RingFrom(p, node)
    else Halt(HungUp)
  }

  /** A prompt: skipped with a fresh step count when blank, else played on an answered leg. */
  function Prompt(p: Plan, node: Node, key: string): Move<Stop> {
    var next := EdgeTo(p.g.edges, node.id, PORT_NEXT);
    if Param(node, key, "") == "" then Restart(next)
    else Halt(if p.answered then Prompting(node.id, next) else Answering(node.id))
  }

  function WaitSeconds(node: Node): int {
    var secs := AtoiDefault(Param(node, "seconds", "1"), 1);
    if secs < 0 then 0 else if secs > 300 then 300 else secs
  }

  function VisitNode(p: Plan, node: Node): Move<Stop> {
    match node.kind
    case MatchNode => Step(EdgeTo(p.g.edges, node.id, if MatchesCall(p, node) then PORT_MATCH else PORT_NOMATCH))
    case ExtNode => RingAll(p, node)
    case IvrNode => Halt(ToIvr)
    case AnswerNode => if p.answered then Step(EdgeTo(p.g.edges, node.id, PORT_NEXT)) else Halt(Answering(node.id))
    case GatherNode => Halt(if p.answered then Gathering(node) else Answering(node.id))
    case WaitNode =>
      if WaitSeconds(node) == 0 then Step(EdgeTo(p.g.edges, node.id, PORT_NEXT))
        else Halt(WaitingAt(node.id, WaitSeconds(node)))
    case RejectNode => Halt(Rejected(Param(node, "reason", DECLINED)))
    case ForwardNode => DialOut(p, node)
    case PlayNode => Prompt(p, node, "url")
    case TtsNode => Prompt(p, node, "text")
    case StartNode => Halt(Rejected(DECLINED))
    case UnknownNode(_) => Halt(Rejected(DECLINED))
  }

  /** Visiting by id: an id that names no node is a dead end. */
  function VisitId(p: Plan, id: string): Move<Stop> {
    var node := FindNode(p.g.nodes, id);
    if node.None? then Halt(Rejected(DECLINED)) else VisitNode(p, node.value)
  }

  function MovesOf(p: Plan): Moves<Stop> {
    (id: string) => VisitId(p, id)
  }

  /** The walk from `id`, given up when it has visited `budget` nodes and is not over. */
  function WalkFrom(p: Plan, id: string, budget: nat): Option<Stop> {
    Walk(MovesOf(p), TOO_FAR, id, 0, budget)
  }

  // ---------------------------------------------------------------------------
  // Where the step count starts anew
  // ---------------------------------------------------------------------------

  /** No target at all, or a room with nobody in it to ring after the declines. */
  predicate NobodyThere(p: Plan, targets: seq<Endpoint>) {
    targets == [] || (p.roomMade && AllDecline(p, targets))
  }

  /** What restarts the count: a blank prompt, or nobody there with the noanswer edge wired. */
  predicate RestartsCount(p: Plan, node: Node) {
    match node.kind
    case PlayNode => Param(node, "url", "") == ""
    case TtsNode => Param(node, "text", "") == ""
    case ExtNode => EdgeTo(p.g.edges, node.id, PORT_NOANSWER) != "" &&
      NobodyThere(p, TargetsOf(p, node))
    case ForwardNode => EdgeTo(p.g.edges, node.id, PORT_NOANSWER) != "" && ForwardAddress(p, node).None?
    case _ => false
  }

  /** The ids of such nodes: R of them, say. */
  function RestartingIds(p: Plan): set<string> {
    set i | 0 <= i < |p.g.nodes| && RestartsCount(p, p.g.nodes[i]) :: p.g.nodes[i].id
  }

  lemma RestartsExactly(p: Plan, node: Node)
    ensures VisitNode(p, node).Restart? <==> RestartsCount(p, node)
  {
  }

  lemma RestartingIdsCover(p: Plan)
    ensures Covers(MovesOf(p), RestartingIds(p))
  {
    forall id | MovesOf(p)(id).Restart? ensures id in RestartingIds(p) {
      var node := FindNode(p.g.nodes, id).value;
      RestartsExactly(p, node);
      var i :| 0 <= i < |p.g.nodes| && p.g.nodes[i] == node;
      assert p.g.nodes[i].id == id;
    }
  }

  /** Enough node visits for any walk that ends. */
  function Enough(p: Plan): nat {
    (MAX_STEPS + 1) * (|RestartingIds(p)| + 1)
  }

  /** If no restarting node lies on a cycle, every walk ends after at most 51 * (R + 1) node visits. */
  lemma WalkEndsInTime(p: Plan, id: string)
    requires NoRestartOnCycle(MovesOf(p))
    ensures WalkFrom(p, id, Enough(p)).Some?
  {
    RestartingIdsCover(p);
    AcyclicRestartsEnd(MovesOf(p), TOO_FAR, RestartingIds(p), id);
  }

  /**
   Exactly when no restarting node is back at itself within the guard's reach does every walk end,
   and then that soon.
   */
  lemma WalksEndExactly(p: Plan)
    ensures NoRestartLoop(MovesOf(p)) <==> forall id :: Ends(MovesOf(p), TOO_FAR, id)
    ensures NoRestartLoop(MovesOf(p)) ==> forall id :: WalkFrom(p, id, Enough(p)).Some?
  {
    RestartingIdsCover(p);
    WalksEndIff(MovesOf(p), TOO_FAR, RestartingIds(p));
    if NoRestartLoop(MovesOf(p)) {
      forall id ensures WalkFrom(p, id, Enough(p)).Some? {
        WalkBound(MovesOf(p), TOO_FAR, RestartingIds(p), id);
      }
    }
  }

  /** Such a plan: one audio node without a file, wired to itself. */
  lemma BlankPlayLoops(p: Plan, budget: nat)
    requires p.g == Graph([Node("p", PlayNode, map[])], [Edge("p", PORT_NEXT, "p")])
    ensures WalkFrom(p, "p", budget).None?
  {
    BlankPlayMove(p);
    RestartsToItself(MovesOf(p), "p", budget);
  }

  lemma BlankPlayMove(p: Plan)
    requires p.g == Graph([Node("p", PlayNode, map[])], [Edge("p", PORT_NEXT, "p")])
    ensures VisitId(p, "p") == Restart("p")
  {
    var node := Node("p", PlayNode, map[]);
    assert p.g.nodes[0] == node;
    assert FindNode(p.g.nodes, "p") == Some(node);
    assert Leaves(p.g.edges[0], "p", PORT_NEXT);
    assert EdgeTo(p.g.edges, "p", PORT_NEXT) == "p";
  }

  /**
   Another: one ext node for an extension whose phone cannot be dialled and whose browser is not to
   be disturbed, its noanswer edge wired to itself.
   */
  lemma DecliningExtLoops(p: Plan, node: Node, phone: string, leg: string, budget: nat)
    requires node.kind == ExtNode && p.g == Graph([node], [Edge(node.id, PORT_NOANSWER, node.id)]) && node.id != ""
    requires TargetsOf(p, node) == [Phone(phone), Browser(leg, true)]
    requires p.roomMade && p.reaches(Browser(leg, true)) && !p.reaches(Phone(phone))
    ensures WalkFrom(p, node.id, budget).None?
  {
    assert p.g.nodes[0] == node;
    assert FindNode(p.g.nodes, node.id) == Some(node);
    assert Leaves(p.g.edges[0], node.id, PORT_NOANSWER);
    assert EdgeTo(p.g.edges, node.id, PORT_NOANSWER) == node.id;
    assert TargetsOf(p, node)[1] == Browser(leg, true);
    assert VisitId(p, node.id) == Restart(node.id);
    RestartsToItself(MovesOf(p), node.id, budget);
  }

  lemma {:induction false} RestartsToItself(mv: Moves<Stop>, id: string, budget: nat)
    requires mv(id) == Restart(id)
    ensures Walk(mv, TOO_FAR, id, 0, budget).None?
  {
    if budget > 0 {
      RestartsToItself(mv, id, budget - 1);
    }
  }

  // ---------------------------------------------------------------------------
  // What the end of a walk tells about the call
  // ---------------------------------------------------------------------------

  /** Only a call that is not answered is answered, and only an answered one is played to or gathered from. */
  predicate Fits(answered: bool, stop: Stop) {
    && (stop.Answering? ==> !answered)
    && (stop.Gathering? || stop.Prompting? ==> answered)
    && (stop.WaitingAt? ==> 0 < stop.seconds <= 300)
  }

  lemma RingingFits(p: Plan, node: Node)
    requires node.kind.ExtNode? || node.kind.ForwardNode?
    ensures VisitNode(p, node).Halt? ==> Fits(p.answered, VisitNode(p, node).stop)
  {
  }

  lemma VisitFits(p: Plan, id: string)
    ensures VisitId(p, id).Halt? ==> Fits(p.answered, VisitId(p, id).stop)
  {
    var node := FindNode(p.g.nodes, id);
    if node.Some? && (node.value.kind.ExtNode? || node.value.kind.ForwardNode?) {
      RingingFits(p, node.value);
    }
  }

  /** Of a walk by any moves that fit. */
  lemma {:induction false} FittingWalk(mv: Moves<Stop>, answered: bool, id: string, step: nat, budget: nat)
    requires forall i :: mv(i).Halt? ==> Fits(answered, mv(i).stop)
    ensures var stop := Walk(mv, TOO_FAR, id, step, budget); stop.Some? ==> Fits(answered, stop.value)
    decreases budget
  {
    if step <= MAX_STEPS && budget > 0 {
      match mv(id)
      case Halt(_) =>
      case Step(next) => FittingWalk(mv, answered, next, step + 1, budget - 1);
      case Restart(next) => FittingWalk(mv, answered, next, 0, budget - 1);
    }
  }

  lemma WalkStopFits(p: Plan, id: string, step: nat, budget: nat)
    ensures Walk(MovesOf(p), TOO_FAR, id, step, budget).Some? ==>
      Fits(p.answered, Walk(MovesOf(p), TOO_FAR, id, step, budget).value)
  {
    forall i ensures MovesOf(p)(i).Halt? ==> Fits(p.answered, MovesOf(p)(i).stop) {
      VisitFits(p, i);
    }
    FittingWalk(MovesOf(p), p.answered, id, step, budget);
  }

  /**
   Whether the walk passes a node that takes the call off the register and, nobody being there to
   ring, puts it back.
   */
  function Readmits(p: Plan, id: string, step: nat, budget: nat): bool {
    LeavesMarked(MovesOf(p), (node: string) => RingsFirst(p, node), id, step, budget)
  }

  predicate RingsFirst(p: Plan, id: string) {
    var node := FindNode(p.g.nodes, id);
    node.Some? && (node.value.kind.ExtNode? || node.value.kind.ForwardNode?)
  }
}
