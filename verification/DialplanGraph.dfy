/**
 The dial plan an operator edits (cmd/pbx/dialplan_graph.go): nodes, edges leaving
 named ports, and node parameters, looked up by linear search.
 */
module DialplanGraph {
  import opened AsciiText
  import opened Options

  datatype Kind =
    | StartNode | MatchNode | ExtNode | IvrNode | RejectNode | ForwardNode
    | PlayNode | TtsNode | AnswerNode | GatherNode | WaitNode
    | UnknownNode(name: string)

  datatype Node = Node(id: string, kind: Kind, params: map<string, string>)

  datatype Edge = Edge(from: string, port: string, to: string)

  datatype Graph = Graph(nodes: seq<Node>, edges: seq<Edge>)

  const PORT_OUT := "out"
  const PORT_MATCH := "match"
  const PORT_NOMATCH := "nomatch"
  const PORT_NEXT := "next"
  const PORT_NOANSWER := "noanswer"
  const PORT_DEFAULT := "default"

  /** The first node with this id. */
  function FindNode(nodes: seq<Node>, id: string): (r: Option<Node>)
    ensures r.Some? ==> exists i | 0 <= i < |nodes| :: r == Some(nodes[i]) && IsFirst(nodes, id, i)
    ensures r.Some? ==> r.value in nodes && r.value.id == id
    ensures r.None? <==> forall i | 0 <= i < |nodes| :: nodes[i].id != id
  {
    if nodes == [] then None
    else if nodes[0].id == id then
      assert IsFirst(nodes, id, 0);
      Some(nodes[0])
    else
      assert forall i | 0 < i < |nodes| :: nodes[i] == nodes[1..][i - 1];
      assert forall i | 0 <= i < |nodes| - 1 :: IsFirst(nodes[1..], id, i) ==> IsFirst(nodes, id, i + 1);
      FindNode(nodes[1..], id)
  }

  predicate IsFirst(nodes: seq<Node>, id: string, i: nat)
    requires i < |nodes|
  {
    nodes[i].id == id && forall j | 0 <= j < i :: nodes[j].id != id
  }

  predicate Leaves(e: Edge, from: string, port: string) {
    e.from == from && e.port == port
  }

  predicate HasEdge(edges: seq<Edge>, from: string, port: string) {
    exists i | 0 <= i < |edges| :: Leaves(edges[i], from, port)
  }

  /** The target of the first edge that leaves the node through the port, or the empty id. */
  function EdgeTo(edges: seq<Edge>, from: string, port: string): (to: string)
    ensures HasEdge(edges, from, port) ==>
      exists i | 0 <= i < |edges| :: Leaves(edges[i], from, port) && edges[i].to == to && forall j | 0 <= j < i ::
        !Leaves(edges[j], from, port)
    ensures !HasEdge(edges, from, port) ==> to == ""
  {
    if edges == [] then ""
    else if Leaves(edges[0], from, port) then edges[0].to
    else
      EdgeToSkips(edges, from, port);
      EdgeTo(edges[1..], from, port)
  }

  lemma EdgeToSkips(edges: seq<Edge>, from: string, port: string)
    requires edges != [] && !Leaves(edges[0], from, port)
    ensures HasEdge(edges, from, port) == HasEdge(edges[1..], from, port)
  {
    if i :| 0 <= i < |edges| && Leaves(edges[i], from, port) {
      assert Leaves(edges[1..][i - 1], from, port);
    }
  }

  /** A parameter, or the default when it is missing or empty. */
  function Param(n: Node, key: string, default: string): string {
    if key in n.params && n.params[key] != "" then n.params[key] else default
  }

  /** The first node labelled as the start, if there is one. */
  function StartOf(nodes: seq<Node>): Option<Node> {
    if nodes == [] then None
    else if nodes[0].kind.StartNode? then Some(nodes[0])
    else StartOf(nodes[1..])
  }

  predicate IsDigit(c: char) {
    '0' <= c <= '9'
  }

  predicate AllDigits(s: string) {
    forall i | 0 <= i < |s| :: IsDigit(s[i])
  }

  function DigitsValue(s: string): nat
    requires AllDigits(s)
  {
    if s == "" then 0
    else
      assert IsDigit(s[|s| - 1]);
      DigitsValue(s[..|s| - 1]) * 10 + (s[|s| - 1] - '0') as nat
  }

  /** strconv.Atoi on 64 bits after trimming, or the default when that fails. */
  function AtoiDefault(s: string, default: int): int {
    var t := Trim(s);
    var negative := t != "" && t[0] == '-';
    var body := if t != "" && (t[0] == '-' || t[0] == '+') then t[1..] else t;
    if body == "" || !AllDigits(body) then default
    else
      var size: int := DigitsValue(body);
      var v := if negative then -size else size;
      if -0x8000_0000_0000_0000 <= v < 0x8000_0000_0000_0000 then v else default
  }

  /** The parts between commas, trimmed, blank ones dropped. */
  function SplitCSV(s: string): seq<string> {
    SplitFrom(s, "")
  }

  function SplitFrom(s: string, part: string): seq<string> {
    if s == "" then Kept(part)
    else if s[0] == ',' then Kept(part) + SplitFrom(s[1..], "")
    else SplitFrom(s[1..], part + [s[0]])
  }

  function Kept(part: string): seq<string> {
    if Trim(part) == "" then [] else [Trim(part)]
  }

  // ---------------------------------------------------------------------------
  // What lists and numbers mean
  // ---------------------------------------------------------------------------

  /** From one comma to the next, or to an end of the text. */
  ghost predicate IsField(s: string, i: nat, j: nat) {
    && i <= j <= |s| && (forall k | i <= k < j :: s[k] != ',')
    && (i == 0 || s[i - 1] == ',') && (j == |s| || s[j] == ',')
  }

  ghost predicate HasField(s: string, part: string) {
    part != "" && exists i: nat, j: nat :: IsField(s, i, j) && Trim(s[i..j]) == part
  }

  /** The parts of a list are what stands between its commas, without surrounding blanks, where anything does. */
  lemma ListHasFields(s: string, part: string)
    ensures part in SplitCSV(s) <==> HasField(s, part)
  {
    SplitFromHasFields(s, "", part);
    assert "" + s == s;
  }

  lemma {:induction false} SplitFromHasFields(s: string, before: string, part: string)
    requires forall k | 0 <= k < |before| :: before[k] != ','
    ensures part in SplitFrom(s, before) <==> HasField(before + s, part)
    decreases |s|
  {
    if s == "" {
      assert before + s == before;
      LastField(before, part);
    } else if s[0] == ',' {
      SplitFromHasFields(s[1..], "", part);
      assert "" + s[1..] == s[1..];
      FieldsAfterComma(before, s, part);
    } else {
      SplitFromHasFields(s[1..], before + [s[0]], part);
      assert before + s == before + [s[0]] + s[1..];
    }
  }

  lemma LastField(s: string, part: string)
    requires forall k | 0 <= k < |s| :: s[k] != ','
    ensures part in Kept(s) <==> HasField(s, part)
  {
    assert IsField(s, 0, |s|) && s[0..|s|] == s;
    if HasField(s, part) {
      var i: nat, j: nat :| IsField(s, i, j) && Trim(s[i..j]) == part;
      assert i == 0 && j == |s|;
    }
  }

  lemma ShiftedField(all: string, rest: string, n: nat, i: nat, j: nat)
    requires 0 < n <= |all| && all[n..] == rest && all[n - 1] == ',' && i <= j <= |rest|
    ensures IsField(rest, i, j) <==> IsField(all, i + n, j + n)
    ensures rest[i..j] == all[i + n..j + n]
  {
    assert forall k | n <= k < |all| :: all[k] == rest[k - n];
  }

  /** The text ends its first field with this comma. */
  ghost predicate BeginsBefore(all: string, before: string, rest: string) {
    && all == before + "," + rest && forall k | 0 <= k < |before| :: before[k] != ','
  }

  lemma FieldBeforeOrAfter(all: string, before: string, rest: string, part: string)
    requires BeginsBefore(all, before, rest) && HasField(all, part)
    ensures part in Kept(before) || HasField(rest, part)
  {
    var n := |before| + 1;
    var i: nat, j: nat :| IsField(all, i, j) && Trim(all[i..j]) == part;
    assert all[n..] == rest && all[n - 1] == ',' && all[0..n - 1] == before;
    if i >= n {
      ShiftedField(all, rest, n, i - n, j - n);
    } else {
      assert forall k | 0 <= k < n - 1 :: all[k] == before[k];
      assert i == 0 && j == n - 1;
    }
  }

  lemma FieldBeforeIsField(all: string, before: string, rest: string, part: string)
    requires BeginsBefore(all, before, rest) && part in Kept(before)
    ensures HasField(all, part)
  {
    var n := |before| + 1;
    assert all[n - 1] == ',' && all[0..n - 1] == before;
    assert forall k | 0 <= k < n - 1 :: all[k] == before[k];
    assert IsField(all, 0, n - 1);
  }

  lemma FieldAfterIsField(all: string, before: string, rest: string, part: string)
    requires BeginsBefore(all, before, rest) && HasField(rest, part)
    ensures HasField(all, part)
  {
    var n := |before| + 1;
    assert all[n..] == rest && all[n - 1] == ',';
    var i: nat, j: nat :| IsField(rest, i, j) && Trim(rest[i..j]) == part;
    ShiftedField(all, rest, n, i, j);
  }

  lemma FieldsAfterComma(before: string, s: string, part: string)
    requires s != "" && s[0] == ',' && forall k | 0 <= k < |before| :: before[k] != ','
    ensures HasField(before + s, part) <==> part in Kept(before) || HasField(s[1..], part)
  {
    var all := before + s;
    assert all == before + "," + s[1..];
    if HasField(all, part) {
      FieldBeforeOrAfter(all, before, s[1..], part);
    }
    if part in Kept(before) {
      FieldBeforeIsField(all, before, s[1..], part);
    }
    if HasField(s[1..], part) {
      FieldAfterIsField(all, before, s[1..], part);
    }
  }

  /** A number written out. */
  function Numeral(n: nat): (r: string)
    ensures r != "" && AllDigits(r)
  {
    if n < 10 then [DIGITS[n]] else Numeral(n / 10) + [DIGITS[n % 10]]
  }

  function Signed(v: int): string {
    if v < 0 then "-" + Numeral(-v) else Numeral(v)
  }

  lemma {:induction false} NumeralReadsBack(n: nat)
    ensures DigitsValue(Numeral(n)) == n
  {
    var r := Numeral(n);
    if n < 10 {
      assert r[..0] == "";
    } else {
      NumeralReadsBack(n / 10);
      assert r[..|r| - 1] == Numeral(n / 10) && r[|r| - 1] == DIGITS[n % 10];
    }
  }

  lemma DigitsAreNoBlanks(s: string)
    requires s != "" && !IsSpace(s[0]) && !IsSpace(s[|s| - 1])
    ensures Trim(s) == s
  {
  }

  /** A number of 64 bits is read back from how it is written. */
  lemma NumberReadsBack(v: int, default: int)
    requires -0x8000_0000_0000_0000 <= v < 0x8000_0000_0000_0000
    ensures AtoiDefault(Signed(v), default) == v
  {
    var r := Numeral(if v < 0 then -v else v);
    NumeralReadsBack(if v < 0 then -v else v);
    assert IsDigit(r[0]) && IsDigit(r[|r| - 1]);
    DigitsAreNoBlanks(Signed(v));
    if v < 0 {
      assert Signed(v)[1..] == r;
    }
  }

  /** Digits, with or without a sign. */
  ghost predicate IsNumber(t: string) {
    exists digits :: digits != "" && AllDigits(digits) && (t == digits || t == "-" + digits || t == "+" + digits)
  }

  /** Whatever is no number reads as the default. */
  lemma NoNumberIsDefault(s: string, default: int)
    requires !IsNumber(Trim(s))
    ensures AtoiDefault(s, default) == default
  {
    var t := Trim(s);
    if t != "" {
      var body := if t[0] == '-' || t[0] == '+' then t[1..] else t;
      assert t == body || t == "-" + body || t == "+" + body;
      assert body != "" && AllDigits(body) ==> IsNumber(t);
    }
  }

  ghost predicate IsStartAt(nodes: seq<Node>, i: nat)
    requires i < |nodes|
  {
    nodes[i].kind.StartNode? && forall j | 0 <= j < i :: !nodes[j].kind.StartNode?
  }

  /** A call starts at the first start node, if there is any. */
  lemma {:induction false} StartIsFirst(nodes: seq<Node>)
    ensures match StartOf(nodes)
      case None => forall i | 0 <= i < |nodes| :: !nodes[i].kind.StartNode?
      case Some(node) => exists i | 0 <= i < |nodes| :: nodes[i] == node && IsStartAt(nodes, i)
  {
    if nodes != [] && !nodes[0].kind.StartNode? {
      StartIsFirst(nodes[1..]);
      assert forall i | 0 < i < |nodes| :: nodes[i] == nodes[1..][i - 1];
      if StartOf(nodes).Some? {
        var i :| 0 <= i < |nodes[1..]| && nodes[1..][i] == StartOf(nodes).value && IsStartAt(nodes[1..], i);
        assert IsStartAt(nodes, i + 1);
      }
    } else if nodes != [] {
      assert IsStartAt(nodes, 0);
    }
  }
}
