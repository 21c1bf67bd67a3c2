/**
 Collecting keys for a menu (cmd/pbx/dialplan_gather.go): every port wired out of a
 gather node is an accepted entry, `*` starts over, `#` submits, and an entry is
 submitted by itself as soon as it is a wired port or long enough.
 */
module Gather {
  import opened Options
  import opened DialplanGraph

  const KEYS := "dtmf"
  const SPEECH := "speech"
  const BOTH := "both"

  /** The gather fields of a call. */
  datatype Menu = Menu(
    active: bool,
    node: string,
    input: string,
    listening: bool,       // speech recognition runs on the leg
    digits: string,
    prompt: string,        // the prompt playing during collection, if any
    num: int,
    gen: nat)

  /** Whether the entry is due: it is a wired port, or it is long enough. */
  predicate Complete(g: Graph, m: Menu, entry: string) {
    HasEdge(g.edges, m.node, entry) || (m.num > 0 && |entry| >= m.num)
  }

  /** One key: the menu afterwards, and the value to submit, if any. */
  function Press(g: Graph, m: Menu, key: string): (Menu, Option<string>) {
    if !m.active || m.input == SPEECH then (m, None)
    else
      var quiet := m.(prompt := "");
      if key == "#" then (quiet, Some(m.digits))
      else if key == "*" then (quiet.(digits := ""), None)
      else
        var entry := m.digits + key;
        (quiet.(digits := entry), if Complete(g, m, entry) then Some(entry) else None)
  }

  /** Submitting: the menu is over. */
  function Closed(m: Menu): Menu {
    m.(active := false, node := "", digits := "", prompt := "", listening := false)
  }

  /** Where a submitted value leads: its own port, else the default port, else nowhere. */
  function Target(g: Graph, node: string, value: string): string {
    var to := EdgeTo(g.edges, node, value);
    if to != "" then to else EdgeTo(g.edges, node, PORT_DEFAULT)
  }

  /** The options of a gather node: the ports wired out of it, but for the default. */
  function GatherOptions(edges: seq<Edge>, node: string): (r: seq<string>)
    ensures forall port :: port in r <==> port != PORT_DEFAULT && HasEdge(edges, node, port)
  {
    if edges == [] then []
    else
      var rest := GatherOptions(edges[1..], node);
      OneMoreEdge(edges, node);
      if edges[0].from == node && edges[0].port != PORT_DEFAULT then [edges[0].port] + rest else rest
  }

  lemma OneMoreEdge(edges: seq<Edge>, node: string)
    requires edges != []
    ensures forall port :: HasEdge(edges, node, port) <==>
      Leaves(edges[0], node, port) || HasEdge(edges[1..], node, port)
  {
    forall port ensures HasEdge(edges, node, port) <==>
      Leaves(edges[0], node, port) || HasEdge(edges[1..], node, port) {
      if Leaves(edges[0], node, port) {
        assert HasEdge(edges, node, port);
      } else {
        EdgeToSkips(edges, node, port);
      }
    }
  }

  /**
   They are listed in the order of the edges, as often as they are wired: the list for two
   stretches of edges is the one after the other.
   */
  lemma {:induction false} OptionsInEdgeOrder(a: seq<Edge>, b: seq<Edge>, node: string)
    ensures GatherOptions(a + b, node) == GatherOptions(a, node) + GatherOptions(b, node)
    ensures forall e: Edge :: GatherOptions([e], node) == if e.from == node && e.port != PORT_DEFAULT then [e.port]
      else []
  {
    if a == [] {
      assert a + b == b;
    } else {
      assert (a + b)[0] == a[0] && (a + b)[1..] == a[1..] + b;
      OptionsInEdgeOrder(a[1..], b, node);
    }
  }

  /** A submission: after how many keys, and of what. */
  datatype Submission = Submission(keys: nat, value: string)

  /** Keys one after the other, up to the first submission. */
  function PressAll(g: Graph, m: Menu, keys: seq<string>): (Menu, Option<Submission>)
    decreases |keys|
  {
    if keys == [] then (m, None)
    else
      var (next, value) := Press(g, m, keys[0]);
      if value.Some? then (next, Some(Submission(1, value.value)))
      else
        var (last, later) := PressAll(g, next, keys[1..]);
        (last, if later.None? then None else Some(Submission(later.value.keys + 1, later.value.value)))
  }

  // ---------------------------------------------------------------------------
  // The same, said without the menu's state
  // ---------------------------------------------------------------------------

  /** What stands entered after the keys: those after the last `*`, behind what stood there before if there is none. */
  function Entered(before: string, keys: seq<string>): string
    decreases |keys|
  {
    if keys == [] then before
    else if keys[|keys| - 1] == "*" then ""
    else Entered(before, keys[..|keys| - 1]) + keys[|keys| - 1]
  }

  /** Whether the i-th key submits: it is `#`, or it is no `*` and completes what stands entered. */
  predicate Submits(g: Graph, m: Menu, keys: seq<string>, i: nat)
    requires i < |keys|
  {
    || keys[i] == "#"
    || (keys[i] != "*" && Complete(g, m, Entered(m.digits, keys[..i + 1])))
  }

  /** What the i-th key then submits. */
  function Submitted(m: Menu, keys: seq<string>, i: nat): string
    requires i < |keys|
  {
    if keys[i] == "#" then Entered(m.digits, keys[..i]) else Entered(m.digits, keys[..i + 1])
  }

  lemma {:induction false} EnteredCons(before: string, key: string, keys: seq<string>)
    ensures Entered(before, [key] + keys) == Entered(if key == "*" then "" else before + key, keys)
    decreases |keys|
  {
    var all := [key] + keys;
    if keys == [] {
      assert all == [key] && all[..0] == [];
    } else {
      var front := keys[..|keys| - 1];
      assert all[..|all| - 1] == [key] + front;
      EnteredCons(before, key, front);
    }
  }

  /** Submission in the run after the first key is submission in the whole run, one key later. */
  lemma SubmitsLater(g: Graph, m: Menu, keys: seq<string>, i: nat)
    requires m.active && m.input != SPEECH
    requires 0 < i < |keys| && keys[0] != "#"
    ensures Submits(g, Press(g, m, keys[0]).0, keys[1..], i - 1) == Submits(g, m, keys, i)
    ensures Submitted(Press(g, m, keys[0]).0, keys[1..], i - 1) == Submitted(m, keys, i)
  {
    var rest := keys[1..];
    EnteredCons(m.digits, keys[0], rest[..i]);
    assert keys[..i + 1] == [keys[0]] + rest[..i];
    EnteredCons(m.digits, keys[0], rest[..i - 1]);
    assert keys[..i] == [keys[0]] + rest[..i - 1];
  }

  lemma FirstKey(g: Graph, m: Menu, keys: seq<string>)
    requires m.active && m.input != SPEECH && keys != []
    ensures Press(g, m, keys[0]).1 == if Submits(g, m, keys, 0) then Some(Submitted(m, keys, 0)) else None
    ensures keys[0] != "#" ==> Press(g, m, keys[0]).0.digits == Entered(m.digits, keys[..1])
  {
    assert keys[..1] == [keys[0]] && keys[..0] == [];
    EnteredCons(m.digits, keys[0], []);
    assert [keys[0]] + [] == [keys[0]];
  }

  /**
   A run of keys submits at the first key that submits, what stands entered there;
   and if none does, what stands entered after all of them is kept.
   */
  lemma {:induction false} KeysSubmitFirst(g: Graph, m: Menu, keys: seq<string>)
    requires m.active && m.input != SPEECH
    ensures var (last, due) := PressAll(g, m, keys);
      match due
      case None =>
        && (forall i: nat | i < |keys| :: !Submits(g, m, keys, i))
        && last == m.(digits := Entered(m.digits, keys), prompt := if keys == [] then m.prompt else "")
      case Some(s) =>
        && 0 < s.keys <= |keys| && Submits(g, m, keys, s.keys - 1) && s.value == Submitted(m, keys, s.keys - 1)
        && (forall i: nat | i < s.keys - 1 :: !Submits(g, m, keys, i))
    decreases |keys|
  {
    if keys != [] {
      FirstKey(g, m, keys);
      var (next, value) := Press(g, m, keys[0]);
      if value.None? {
        var rest := keys[1..];
        KeysSubmitFirst(g, next, rest);
        assert keys == [keys[0]] + rest;
        EnteredCons(m.digits, keys[0], rest);
        forall i: nat | 0 < i < |keys|
          ensures Submits(g, next, rest, i - 1) == Submits(g, m, keys, i)
          ensures Submitted(next, rest, i - 1) == Submitted(m, keys, i)
        {
          SubmitsLater(g, m, keys, i);
        }
        var due := PressAll(g, m, keys).1;
        if due.None? {
          forall i: nat | i < |keys| ensures !Submits(g, m, keys, i) {
            if i > 0 {
              assert !Submits(g, next, rest, i - 1);
            }
          }
        } else {
          forall i: nat | i < due.value.keys - 1 ensures !Submits(g, m, keys, i) {
            if i > 0 {
              assert !Submits(g, next, rest, i - 1);
            }
          }
        }
      }
    }
  }

  // ---------------------------------------------------------------------------
  // Dialling an option
  // ---------------------------------------------------------------------------

  /** The keys of a string of digits, one press each. */
  function KeysOf(s: string): (keys: seq<string>)
    ensures |keys| == |s|
    ensures forall i | 0 <= i < |s| :: keys[i] == [s[i]]
  {
    seq(|s|, i requires 0 <= i < |s| => [s[i]])
  }

  lemma {:induction false} DialledIsEntered(s: string, i: nat)
    requires AllDigits(s) && i <= |s|
    ensures Entered("", KeysOf(s)[..i]) == s[..i]
    decreases i
  {
    var keys := KeysOf(s);
    if i > 0 {
      DialledIsEntered(s, i - 1);
      assert IsDigit(s[i - 1]) && keys[i - 1] == [s[i - 1]];
      assert keys[..i][..i - 1] == keys[..i - 1];
      assert s[..i] == s[..i - 1] + [s[i - 1]];
    }
  }

  /** Some shorter beginning of the option is an option itself. */
  predicate HasShorterOption(g: Graph, node: string, o: string) {
    exists k | 0 < k < |o| :: HasEdge(g.edges, node, o[..k])
  }

  /**
   Dialling a wired option made of digits submits that option if and only if no
   shorter beginning of it is an option and it is not longer than a digit limit.
   */
  lemma DiallingReachesOption(g: Graph, m: Menu, o: string)
    requires m.active && m.input != SPEECH && m.digits == ""
    requires o != "" && AllDigits(o) && HasEdge(g.edges, m.node, o)
    ensures PressAll(g, m, KeysOf(o)).1 == Some(Submission(|o|, o))
       <==> !HasShorterOption(g, m.node, o) && (m.num <= 0 || |o| <= m.num)
  {
    var keys := KeysOf(o);
    KeysSubmitFirst(g, m, keys);
    forall i: nat | i < |o|
      ensures Submits(g, m, keys, i) == Complete(g, m, o[..i + 1])
      ensures Submitted(m, keys, i) == o[..i + 1]
    {
      DialledKey(g, m, o, i);
    }
    assert o[..|o| - 1 + 1] == o;
    assert Submits(g, m, keys, |o| - 1);
    if HasShorterOption(g, m.node, o) {
      var k :| 0 < k < |o| && HasEdge(g.edges, m.node, o[..k]);
      assert Submits(g, m, keys, k - 1);
    } else if m.num > 0 && |o| > m.num {
      assert Submits(g, m, keys, m.num - 1);
    } else {
      forall i: nat | i < |o| - 1 ensures !Submits(g, m, keys, i) {
        assert !HasEdge(g.edges, m.node, o[..i + 1]);
      }
    }
  }

  /** Dialling a string of digits, the i-th key submits if and only if the beginning dialled so far is complete. */
  lemma DialledKey(g: Graph, m: Menu, o: string, i: nat)
    requires m.digits == "" && AllDigits(o) && i < |o|
    ensures Submits(g, m, KeysOf(o), i) == Complete(g, m, o[..i + 1])
    ensures Submitted(m, KeysOf(o), i) == o[..i + 1]
  {
    DialledIsEntered(o, i + 1);
    assert IsDigit(o[i]) && KeysOf(o)[i] == [o[i]];
  }

  /** A submitted option leads along the first edge wired from its port, unless that edge leads nowhere. */
  lemma OptionIsFollowed(g: Graph, node: string, o: string)
    requires HasEdge(g.edges, node, o)
    ensures exists i | 0 <= i < |g.edges| ::
      && Leaves(g.edges[i], node, o) && (forall j | 0 <= j < i :: !Leaves(g.edges[j], node, o))
      && (g.edges[i].to != "" ==> Target(g, node, o) == g.edges[i].to)
      && (g.edges[i].to == "" ==> Target(g, node, o) == Target(g, node, PORT_DEFAULT))
  {
    var to := EdgeTo(g.edges, node, o);
    var i :| 0 <= i < |g.edges| && Leaves(g.edges[i], node, o) && g.edges[i].to == to && forall j | 0 <= j < i ::
      !Leaves(g.edges[j], node, o);
  }
}
