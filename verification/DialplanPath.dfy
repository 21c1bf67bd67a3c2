/**
 Where a walk through a dial plan leads (cmd/pbx/dialplan_engine.go), said without walking:
 a walk ends as it does if and only if there is a path over the edges of the graph on
 which each node is left by its own port, and whose last node is one where walks end so.
 */
module DialplanPath {
  import opened Options
  import opened DialplanGraph
  import opened StepGuard
  import opened DialplanWalk

  // ---------------------------------------------------------------------------
  // Graphs
  // ---------------------------------------------------------------------------

  /** The node that an id stands for: the first that has it. */
  ghost predicate IsNode(g: Graph, id: string, node: Node) {
    exists i | 0 <= i < |g.nodes| :: g.nodes[i] == node && IsFirst(g.nodes, id, i)
  }

  ghost predicate IsFirstEdge(edges: seq<Edge>, from: string, port: string, i: nat)
    requires i < |edges|
  {
    Leaves(edges[i], from, port) && forall j | 0 <= j < i :: !Leaves(edges[j], from, port)
  }

  /** What a port leads to: the target of the first edge that leaves by it, or nothing. */
  ghost predicate LeadsTo(g: Graph, from: string, port: string, to: string) {
    || (exists i | 0 <= i < |g.edges| :: IsFirstEdge(g.edges, from, port, i) && g.edges[i].to == to)
    || (to == "" && forall i | 0 <= i < |g.edges| :: !Leaves(g.edges[i], from, port))
  }

  lemma NodeIsFound(g: Graph, id: string, node: Node)
    ensures IsNode(g, id, node) <==> FindNode(g.nodes, id) == Some(node)
  {
    var found := FindNode(g.nodes, id);
    if IsNode(g, id, node) {
      var i :| 0 <= i < |g.nodes| && g.nodes[i] == node && IsFirst(g.nodes, id, i);
      assert g.nodes[i].id == id;
      var j :| 0 <= j < |g.nodes| && found == Some(g.nodes[j]) && IsFirst(g.nodes, id, j);
      assert i == j;
    }
  }

  lemma EdgeLeads(g: Graph, from: string, port: string, to: string)
    ensures LeadsTo(g, from, port, to) <==> EdgeTo(g.edges, from, port) == to
  {
    var found := EdgeTo(g.edges, from, port);
    if HasEdge(g.edges, from, port) {
      var j :| 0 <= j < |g.edges| && g.edges[j].to == found && Leaves(g.edges[j], from, port) &&
        forall k | 0 <= k < j ::
        !Leaves(g.edges[k], from, port);
      assert IsFirstEdge(g.edges, from, port, j);
      if LeadsTo(g, from, port, to) {
        var i :| 0 <= i < |g.edges| && IsFirstEdge(g.edges, from, port, i) && g.edges[i].to == to;
        assert i == j;
      }
    }
  }

  ghost predicate Wired(g: Graph, from: string, port: string) {
    exists to :: to != "" && LeadsTo(g, from, port, to)
  }

  lemma WiredLeads(g: Graph, from: string, port: string)
    ensures Wired(g, from, port) <==> EdgeTo(g.edges, from, port) != ""
  {
    EdgeLeads(g, from, port, EdgeTo(g.edges, from, port));
    if to :| to != "" && LeadsTo(g, from, port, to) {
      EdgeLeads(g, from, port, to);
    }
  }

  // ---------------------------------------------------------------------------
  // What the nodes say
  // ---------------------------------------------------------------------------

  /** The node is given this parameter, and it is not left blank. */
  predicate Says(node: Node, key: string, value: string) {
    key in node.params && node.params[key] == value && value != ""
  }

  predicate Silent(node: Node, key: string) {
    key in node.params ==> node.params[key] == ""
  }

  /** The parameter's value, or the given one where the node is silent. */
  ghost predicate Means(node: Node, key: string, default: string, value: string) {
    Says(node, key, value) || (Silent(node, key) && value == default)
  }

  /** The call comes in on the trunk named, or none is named. */
  predicate FitsTrunk(p: Plan, node: Node) {
    Silent(node, "trunk") || Says(node, "trunk", p.trunkID)
  }

  /** The number called is any, the one given, one that begins so, or one that the expression accepts. */
  ghost predicate FitsNumber(p: Plan, node: Node) {
    exists did :: Means(node, "did", "", did) && (
      || Silent(node, "did_mode") || Says(node, "did_mode", "any")
      || (Says(node, "did_mode", "exact") && p.did == did)
      || (Says(node, "did_mode", "prefix") && exists rest :: p.did == did + rest)
      || (Says(node, "did_mode", "regex") && p.regexMatches(did, p.did)))
  }

  ghost predicate IsTarget(p: Plan, node: Node, e: Endpoint) {
    exists number :: number in SplitCSV(Param(node, "number", "")) && e in p.endpoints(number)
  }

  /** An endpoint that is asked to ring. */
  ghost predicate IsAsked(p: Plan, node: Node, e: Endpoint) {
    IsTarget(p, node, e) && p.roomMade && p.reaches(e)
  }

  ghost predicate DeclinesAtOnce(p: Plan, node: Node, e: Endpoint) {
    IsAsked(p, node, e) && e.Browser? && e.doNotDisturb
  }

  /** Nobody is there: no endpoint at all, or the last to be asked decline on the spot. */
  ghost predicate NobodyIsThere(p: Plan, node: Node) {
    || (forall e :: !IsTarget(p, node, e))
    || ((exists e :: DeclinesAtOnce(p, node, e))
        && forall e :: IsAsked(p, node, e) ==> DeclinesAtOnce(p, node, e) || p.leaves(e))
  }

  /** There are endpoints, but none can be asked to ring. */
  ghost predicate NobodyCanBeAsked(p: Plan, node: Node) {
    (exists e :: IsTarget(p, node, e)) && forall e :: !IsAsked(p, node, e)
  }

  /** The number given, at the host of the trunk named, or else at that of the outbound trunk. */
  ghost predicate DialsTo(p: Plan, node: Node, address: string) {
    exists trunk, number, host :: Means(node, "trunk", "", trunk) && Says(node, "number", number) && host != ""
      && (p.trunkHost(trunk) == Some(host) || (p.trunkHost(trunk).None? && p.outboundHost == Some(host)))
      && address == "sip:" + number + "@" + host
  }

  ghost predicate Unreached(p: Plan, address: string) {
    !p.roomMade || !p.reaches(Phone(address))
  }

  /** How long a wait node waits, within bounds. */
  ghost predicate Waits(node: Node, seconds: int) {
    exists text :: Means(node, "seconds", "1", text) && (
      var n := AtoiDefault(text, 1);
      (n <= 0 && seconds == 0) || (0 < n <= 300 && seconds == n) || (n > 300 && seconds == 300))
  }

  predicate PromptKey(kind: Kind, key: string) {
    (kind.PlayNode? && key == "url") || (kind.TtsNode? && key == "text")
  }

  /** The port by which a walk leaves the node, and whether the count of steps starts anew then. */
  ghost predicate LeftBy(p: Plan, node: Node, port: string, anew: bool) {
    match node.kind
    case MatchNode => !anew && port == if FitsTrunk(p, node) && FitsNumber(p, node) then "match" else "nomatch"
    case AnswerNode => !anew && port == "next" && p.answered
    case WaitNode => !anew && port == "next" && Waits(node, 0)
    case PlayNode => anew && port == "next" && Silent(node, "url")
    case TtsNode => anew && port == "next" && Silent(node, "text")
    case ExtNode => anew && port == "noanswer" && Wired(p.g, node.id, port) && NobodyIsThere(p, node)
    case ForwardNode => anew && port == "noanswer" && Wired(p.g, node.id, port) && forall a :: !DialsTo(p, node, a)
    case _ => false
  }

  /** What a walk that ends at the node makes of the call. */
  ghost predicate Stops(p: Plan, node: Node, stop: Stop) {
    match node.kind
    case MatchNode => false
    case AnswerNode => !p.answered && stop == Answering(node.id)
    case GatherNode => stop == if p.answered then Gathering(node) else Answering(node.id)
    case WaitNode => exists seconds :: seconds > 0 && Waits(node, seconds) && stop == WaitingAt(node.id, seconds)
    case PlayNode => !Silent(node, "url") && StopsToPlay(p, node, stop)
    case TtsNode => !Silent(node, "text") && StopsToPlay(p, node, stop)
    case ExtNode => StopsToRing(p, node, NobodyIsThere(p, node), NobodyCanBeAsked(p, node), stop)
    case ForwardNode => StopsToRing(p, node, forall a :: !DialsTo(p, node, a), exists a ::
      DialsTo(p, node, a) && Unreached(p, a), stop)
    case IvrNode => stop == ToIvr
    case RejectNode => exists reason :: Means(node, "reason", "declined", reason) && stop == Rejected(reason)
    case StartNode => stop == Rejected("declined")
    case UnknownNode(_) => stop == Rejected("declined")
  }

  ghost predicate StopsToPlay(p: Plan, node: Node, stop: Stop) {
    if p.answered then exists next :: LeadsTo(p.g, node.id, "next", next) && stop == Prompting(node.id, next)
    else stop == Answering(node.id)
  }

  ghost predicate StopsToRing(p: Plan, node: Node, nobody: bool, refused: bool, stop: Stop) {
    if nobody then !Wired(p.g, node.id, "noanswer") && stop == HungUp
    else if refused then stop == HungUp
    else stop == Ringing(node.id, Wired(p.g, node.id, "noanswer"))
  }

  // ---------------------------------------------------------------------------
  // A visit is what the node says
  // ---------------------------------------------------------------------------

  lemma ParamMeans(node: Node, key: string, default: string, value: string)
    ensures Means(node, key, default, value) <==> value == Param(node, key, default)
    ensures default == "" ==> (Silent(node, key) <==> Param(node, key, default) == "")
  {
  }

  lemma MatchMeans(p: Plan, node: Node)
    ensures MatchesCall(p, node) <==> FitsTrunk(p, node) && FitsNumber(p, node)
  {
    var did := Param(node, "did", "");
    ParamMeans(node, "did", "", did);
    forall d | Means(node, "did", "", d) ensures d == did {
      ParamMeans(node, "did", "", d);
    }
    if did <= p.did {
      assert p.did == did + p.did[|did|..];
    }
  }

  lemma {:induction false} TargetsMean(p: Plan, numbers: seq<string>, e: Endpoint)
    ensures e in Targets(p, numbers) <==> exists n :: n in numbers && e in p.endpoints(n)
  {
    if numbers != [] {
      TargetsMean(p, numbers[1..], e);
      assert forall n :: n in numbers <==> n == numbers[0] || n in numbers[1..];
    }
  }

  lemma AsksMean(p: Plan, node: Node)
    ensures NobodyIsThere(p, node) <==> NobodyThere(p, TargetsOf(p, node))
    ensures NobodyCanBeAsked(p, node) <==> TargetsOf(p, node) != [] && !AnyCandidate(p, TargetsOf(p, node))
  {
    var ts := TargetsOf(p, node);
    forall e ensures IsTarget(p, node, e) <==> e in ts {
      TargetsMean(p, SplitCSV(Param(node, "number", "")), e);
    }
    if ts != [] {
      assert ts[0] in ts;
    }
    forall e ensures IsAsked(p, node, e) <==> e in ts && p.roomMade && p.reaches(e) {}
    forall e ensures DeclinesAtOnce(p, node, e) <==> e in ts && p.roomMade && p.reaches(e) && Declines(e) {}
  }

  lemma DialMeans(p: Plan, node: Node, address: string)
    ensures DialsTo(p, node, address) <==> ForwardAddress(p, node) == Some(address)
  {
    var trunk := Param(node, "trunk", "");
    ParamMeans(node, "trunk", "", trunk);
    forall t | Means(node, "trunk", "", t) ensures t == trunk {
      ParamMeans(node, "trunk", "", t);
    }
    if ForwardAddress(p, node) == Some(address) {
      assert Says(node, "number", Param(node, "number", ""));
    }
  }

  lemma WaitMeans(node: Node, seconds: int)
    ensures Waits(node, seconds) <==> seconds == WaitSeconds(node)
  {
    var text := Param(node, "seconds", "1");
    ParamMeans(node, "seconds", "1", text);
    forall t | Means(node, "seconds", "1", t) ensures t == text {
      ParamMeans(node, "seconds", "1", t);
    }
  }

  /** What a visit does, said by the relations: where it goes on, or how it stops, and never both. */
  ghost predicate SaysSo(p: Plan, node: Node, m: Move<Stop>) {
    match m
    case Halt(stop) =>
      (forall port, anew :: !LeftBy(p, node, port, anew)) && forall other :: Stops(p, node, other) <==> other == stop
    case Step(next) => (forall stop :: !Stops(p, node, stop)) && GoesOn(p, node, next, false)
    case Restart(next) => (forall stop :: !Stops(p, node, stop)) && GoesOn(p, node, next, true)
  }

  ghost predicate GoesOn(p: Plan, node: Node, next: string, afresh: bool) {
    exists port :: LeadsTo(p.g, node.id, port, next)
      && forall other, anew :: LeftBy(p, node, other, anew) <==> other == port && anew == afresh
  }

  lemma PortLeads(p: Plan, node: Node, port: string, next: string, afresh: bool)
    requires next == EdgeTo(p.g.edges, node.id, port)
    requires forall other, anew :: LeftBy(p, node, other, anew) <==> other == port && anew == afresh
    ensures GoesOn(p, node, next, afresh)
  {
    EdgeLeads(p.g, node.id, port, next);
  }

  lemma MatchSaysSo(p: Plan, node: Node)
    requires node.kind.MatchNode?
    ensures SaysSo(p, node, VisitNode(p, node))
  {
    MatchMeans(p, node);
    var port := if MatchesCall(p, node) then "match" else "nomatch";
    PortLeads(p, node, port, VisitNode(p, node).next, false);
  }

  lemma AnswerSaysSo(p: Plan, node: Node)
    requires node.kind.AnswerNode? || node.kind.GatherNode? || node.kind.IvrNode? || node.kind.StartNode? ||
      node.kind.UnknownNode?
    ensures SaysSo(p, node, VisitNode(p, node))
  {
    if node.kind.AnswerNode? && p.answered {
      PortLeads(p, node, "next", VisitNode(p, node).next, false);
    }
  }

  lemma RejectSaysSo(p: Plan, node: Node)
    requires node.kind.RejectNode?
    ensures SaysSo(p, node, VisitNode(p, node))
  {
    forall r ensures Means(node, "reason", "declined", r) <==> r == Param(node, "reason", "declined") {
      ParamMeans(node, "reason", "declined", r);
    }
  }

  lemma WaitSaysSo(p: Plan, node: Node)
    requires node.kind.WaitNode?
    ensures SaysSo(p, node, VisitNode(p, node))
  {
    forall s ensures Waits(node, s) <==> s == WaitSeconds(node) {
      WaitMeans(node, s);
    }
    if WaitSeconds(node) == 0 {
      PortLeads(p, node, "next", VisitNode(p, node).next, false);
    }
  }

  lemma PromptSaysSo(p: Plan, node: Node)
    requires node.kind.PlayNode? || node.kind.TtsNode?
    ensures SaysSo(p, node, VisitNode(p, node))
  {
    var key := if node.kind.PlayNode? then "url" else "text";
    var next := EdgeTo(p.g.edges, node.id, "next");
    ParamMeans(node, key, "", "");
    forall to ensures LeadsTo(p.g, node.id, "next", to) <==> to == next {
      EdgeLeads(p.g, node.id, "next", to);
    }
    if Silent(node, key) {
      PortLeads(p, node, "next", next, true);
    }
  }

  lemma ExtSaysSo(p: Plan, node: Node)
    requires node.kind.ExtNode?
    ensures SaysSo(p, node, VisitNode(p, node))
  {
    AsksMean(p, node);
    WiredLeads(p.g, node.id, "noanswer");
    if VisitNode(p, node).Restart? {
      PortLeads(p, node, "noanswer", VisitNode(p, node).next, true);
    }
  }

  lemma ForwardSaysSo(p: Plan, node: Node)
    requires node.kind.ForwardNode?
    ensures SaysSo(p, node, VisitNode(p, node))
  {
    forall a ensures DialsTo(p, node, a) <==> ForwardAddress(p, node) == Some(a) {
      DialMeans(p, node, a);
    }
    WiredLeads(p.g, node.id, "noanswer");
    var address := ForwardAddress(p, node);
    if address.Some? {
      assert DialsTo(p, node, address.value);
      assert AnyCandidate(p, [Phone(address.value)]) <==> !Unreached(p, address.value) by {
        assert Phone(address.value) in [Phone(address.value)];
      }
    }
    if VisitNode(p, node).Restart? {
      PortLeads(p, node, "noanswer", VisitNode(p, node).next, true);
    }
  }

  lemma VisitSaysSo(p: Plan, node: Node)
    ensures SaysSo(p, node, VisitNode(p, node))
  {
    match node.kind
    case MatchNode => MatchSaysSo(p, node);
    case RejectNode => RejectSaysSo(p, node);
    case WaitNode => WaitSaysSo(p, node);
    case PlayNode => PromptSaysSo(p, node);
    case TtsNode => PromptSaysSo(p, node);
    case ExtNode => ExtSaysSo(p, node);
    case ForwardNode => ForwardSaysSo(p, node);
    case _ => AnswerSaysSo(p, node);
  }

  // ---------------------------------------------------------------------------
  // Paths
  // ---------------------------------------------------------------------------

  /** From the one to the other over the first edge of the port by which the node is left. */
  ghost predicate Passes(p: Plan, v: Visit, w: Visit) {
    v.step <= 50 && exists node, port, anew ::
      && IsNode(p.g, v.id, node) && LeftBy(p, node, port, anew) && LeadsTo(p.g, node.id, port, w.id)
      && w.step == if anew then 0 else v.step + 1
  }

  /** Here the walk is over: too many steps, no such node, or a node at which it stops. */
  ghost predicate EndsAt(p: Plan, v: Visit, stop: Stop) {
    if v.step > 50 || forall node :: !IsNode(p.g, v.id, node) then stop == Rejected("declined")
    else exists node :: IsNode(p.g, v.id, node) && Stops(p, node, stop)
  }

  /** A path from a node to where walks end in `stop`, of so many visits at most. */
  ghost predicate LeadsFrom(p: Plan, path: seq<Visit>, id: string, budget: nat, stop: Stop) {
    && path != [] && path[0] == Visit(id, 0) && (forall i | 0 <= i < |path| - 1 :: Passes(p, path[i], path[i + 1]))
    && EndsAt(p, path[|path| - 1], stop) && Visited(path) <= budget
  }

  lemma PassesByPort(p: Plan, node: Node, v: Visit, w: Visit)
    requires v.step <= 50 && SaysSo(p, node, VisitNode(p, node))
    requires forall n :: IsNode(p.g, v.id, n) <==> n == node
    ensures var m := VisitNode(p, node);
      Passes(p, v, w) <==> (m.Step? && w == Visit(m.next, v.step + 1)) || (m.Restart? && w == Visit(m.next, 0))
  {
    var m := VisitNode(p, node);
    if !m.Halt? {
      var port :| LeadsTo(p.g, node.id, port, m.next)
        && forall other, anew :: LeftBy(p, node, other, anew) <==> other == port && anew == m.Restart?;
      EdgeLeads(p.g, node.id, port, w.id);
      EdgeLeads(p.g, node.id, port, m.next);
      assert LeftBy(p, node, port, m.Restart?);
      assert IsNode(p.g, v.id, node);
    }
  }

  /** One visit of the walk, in terms of paths. */
  lemma VisitPasses(p: Plan, v: Visit, w: Visit, stop: Stop)
    ensures EndsAt(p, v, stop) <==> OverAt(MovesOf(p), TOO_FAR, v, stop)
    ensures Passes(p, v, w) <==> GoesTo(MovesOf(p), v, w)
  {
    var found := FindNode(p.g.nodes, v.id);
    forall node ensures IsNode(p.g, v.id, node) <==> found == Some(node) {
      NodeIsFound(p.g, v.id, node);
    }
    if v.step <= 50 && found.Some? {
      VisitSaysSo(p, found.value);
      assert IsNode(p.g, v.id, found.value);
      PassesByPort(p, found.value, v, w);
    }
  }

  lemma PathIsPath(p: Plan, path: seq<Visit>, id: string, budget: nat, stop: Stop)
    ensures LeadsFrom(p, path, id, budget, stop) <==> Leads(MovesOf(p), TOO_FAR, path, Visit(id, 0), budget, stop)
  {
    if path != [] {
      VisitPasses(p, path[|path| - 1], path[0], stop);
    }
    forall i | 0 <= i < |path| - 1
      ensures Passes(p, path[i], path[i + 1]) <==> GoesTo(MovesOf(p), path[i], path[i + 1]) {
      VisitPasses(p, path[i], path[i + 1], stop);
    }
  }

  /**
   A walk from a node ends in `stop` within so many visits if and only if a path of so many leads
   from the node to where walks end in `stop`.
   */
  lemma WalkIsPath(p: Plan, id: string, budget: nat, stop: Stop)
    ensures WalkFrom(p, id, budget) == Some(stop) <==> exists path :: LeadsFrom(p, path, id, budget, stop)
  {
    if WalkFrom(p, id, budget) == Some(stop) {
      var path := WalkHasPath(MovesOf(p), TOO_FAR, id, 0, budget, stop);
      PathIsPath(p, path, id, budget, stop);
    }
    if path :| LeadsFrom(p, path, id, budget, stop) {
      PathIsPath(p, path, id, budget, stop);
      PathIsWalked(MovesOf(p), TOO_FAR, path, Visit(id, 0), budget, stop);
    }
  }

  /** The id stands for a node that takes the call off the register to ring somebody. */
  ghost predicate TakesOff(p: Plan, id: string) {
    exists node :: IsNode(p.g, id, node) && (node.kind.ExtNode? || node.kind.ForwardNode?)
  }

  lemma RingsFirstMeans(p: Plan, id: string)
    ensures RingsFirst(p, id) <==> TakesOff(p, id)
  {
    var found := FindNode(p.g.nodes, id);
    forall node ensures IsNode(p.g, id, node) <==> found == Some(node) {
      NodeIsFound(p.g, id, node);
    }
  }

  /** Such a node is passed on the way. */
  ghost predicate PassesRinging(p: Plan, path: seq<Visit>) {
    exists i | 0 <= i < |path| - 1 :: TakesOff(p, path[i].id)
  }

  /** A walk puts the call back on the register exactly if it passes such a node: nobody was there. */
  lemma ReadmitsIff(p: Plan, path: seq<Visit>, id: string, budget: nat, stop: Stop)
    requires LeadsFrom(p, path, id, budget, stop)
    ensures Readmits(p, id, 0, budget) <==> PassesRinging(p, path)
  {
    PathIsPath(p, path, id, budget, stop);
    var marked := (node: string) => RingsFirst(p, node);
    LeavesMarkedIff(MovesOf(p), TOO_FAR, marked, path, Visit(id, 0), budget, stop);
    forall i | 0 <= i < |path| - 1 ensures marked(path[i].id) <==> TakesOff(p, path[i].id) {
      RingsFirstMeans(p, path[i].id);
    }
  }
}
