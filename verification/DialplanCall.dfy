/**
 The call object of the dial plan (dpExec, cmd/pbx/dialplan_engine.go) with the
 handlers that update it, each against its function in DialplanExec.
 */
module DialplanCall {
  import opened AsciiText
  import opened Options
  import opened DialplanGraph
  import opened DialplanWalk
  import opened Gather
  import opened SpeechMatch
  import E = DialplanExec

  /** What a transcript is heard as: nothing until it is final, then the option it matches, if any does. */
  ghost predicate Recognised(text: string, isFinal: bool, options: seq<string>, heard: Option<string>) {
    if !isFinal || Trim(text) == "" then heard.None?
    else if heard.None? then NothingMatches(Normal(text), options)
    else exists k | 0 <= k < |options| :: heard.value == options[k] && IsAnswer(Normal(text), options, k)
  }

  method Recognise(text: string, isFinal: bool, options: seq<string>) returns (heard: Option<string>)
    ensures Recognised(text, isFinal, options, heard)
  {
    if !isFinal || Trim(text) == "" {
      return None;
    }
    var m := MatchSpeech(text, options);
    return if m.Hit? then Some(m.option) else None;
  }

  class Exec {
    var registered: bool
    var answered: bool
    var resumeNode: string
    var pendingID: string
    var nextNode: string
    var menu: Menu             // the gather fields
    // What the runtime and the server keep for the call.
    var timers: multiset<nat>
    var waits: multiset<string>
    var ringing: Option<string>
    ghost var asked: nat
    ghost var prompts: set<string>
    ghost var suspended: nat
    ghost var resumed: nat
    ghost var lost: bool

    ghost function View(): E.Call
      reads this
    {
      E.Call(registered, answered, resumeNode, pendingID, nextNode, menu, timers, waits, ringing, asked, prompts,
        suspended, resumed, lost)
    }

    /** At most one continuation is outstanding, and all that goes with it. */
    ghost predicate Valid()
      reads this
    {
      E.Inv(View())
    }

    constructor (answered: bool)
      ensures E.Ready(View()) && View() == E.NewCall(answered)
      ensures Valid()
    {
      registered, this.answered := true, answered;
      resumeNode, pendingID, nextNode := "", "", "";
      menu := Menu(false, "", "", false, "", "", 0, 0);
      timers, waits, ringing := multiset{}, multiset{}, None;
      asked, prompts, suspended, resumed, lost := 0, {}, 0, 0, false;
    }

    // -------------------------------------------------------------------------
    // Within a handler: the last continuation is used up, the next one not made
    // -------------------------------------------------------------------------

    method Answer(node: string, o: E.Outside)
      requires E.Ready(View()) && !answered && E.FreshPrompt(View(), o)
      modifies this
      ensures View() == E.Land(old(View()), Answering(node), o)
      ensures Valid()
    {
      E.LandKeeps(View(), Answering(node), o);
      resumeNode := node;
      asked, suspended := asked + 1, suspended + 1;
      if !o.answerOk {
        registered := false;
      }
    }

    method Open(node: string, input: string, num: int, hears: bool)
      requires E.Ready(View())
      modifies this
      ensures View() == E.Opened(old(View()), node, input, num, hears)
      ensures Valid()
    {
      E.OpenedKeeps(View(), node, input, num, hears);
      menu := menu.(active := true, node := node, input := input, digits := "", num := num, gen := menu.gen + 1);
      if hears {
        menu := menu.(listening := true);
      }
      timers := timers + multiset{menu.gen};
      suspended := suspended + 1;
    }

    method SetGatherPrompt(prompt: Option<string>)
      requires Valid()
      modifies this
      ensures View() == E.Prompted(old(View()), prompt)
      ensures Valid()
    {
      E.PromptedKeeps(View(), prompt);
      if prompt.Some? {
        menu := menu.(prompt := prompt.value);
        prompts := prompts + {prompt.value};
      }
    }

    method Gather(node: Node, o: E.Outside)
      requires E.Ready(View()) && answered
      modifies this
      ensures View() == E.Land(old(View()), Gathering(node), o)
      ensures Valid()
    {
      var input := Param(node, "input", KEYS);
      var num := AtoiDefault(Param(node, "num_digits", "0"), 0);
      Open(node.id, input, num, (input == SPEECH || input == BOTH) && o.sttOk);
      if Param(node, "text", "") != "" || Param(node, "url", "") != "" {
        SetGatherPrompt(o.prompt);
      }
    }

    method Suspend(id: string, next: string)
      modifies this`pendingID, this`nextNode
      ensures pendingID == id && nextNode == next
    {
      pendingID := id;
      nextNode := next;
    }

    method Play(node: string, next: string, o: E.Outside)
      requires E.Ready(View()) && answered && E.FreshPrompt(View(), o)
      modifies this
      ensures View() == E.Land(old(View()), Prompting(node, next), o)
      ensures Valid()
    {
      E.LandKeeps(View(), Prompting(node, next), o);
      if o.prompt.None? {
        registered := false;
      } else {
        Suspend(o.prompt.value, next);
        prompts := prompts + {o.prompt.value};
        suspended := suspended + 1;
      }
    }

    method Ring(node: string, resumes: bool, o: E.Outside)
      requires E.Ready(View()) && E.FreshPrompt(View(), o)
      modifies this
      ensures View() == E.Land(old(View()), Ringing(node, resumes), o)
      ensures Valid()
    {
      E.LandKeeps(View(), Ringing(node, resumes), o);
      registered := false;
      if resumes {
        ringing := Some(node);
        suspended := suspended + 1;
      }
    }

    method Wait(node: string, seconds: int, o: E.Outside)
      requires E.Ready(View()) && 0 < seconds <= 300 && E.FreshPrompt(View(), o)
      modifies this
      ensures View() == E.Land(old(View()), WaitingAt(node, seconds), o)
      ensures Valid()
    {
      E.LandKeeps(View(), WaitingAt(node, seconds), o);
      waits := waits + multiset{node};
      suspended := suspended + 1;
    }

    method Reject(stop: Stop, o: E.Outside)
      requires E.Ready(View()) && (stop.Rejected? || stop.HungUp? || stop.ToIvr?) && E.FreshPrompt(View(), o)
      modifies this
      ensures View() == E.Land(old(View()), stop, o)
      ensures Valid()
    {
      E.LandKeeps(View(), stop, o);
      registered := false;
    }

    /** Doing what the last node of a walk says. */
    method Land(stop: Stop, o: E.Outside)
      requires E.Ready(View()) && Fits(answered, stop) && E.FreshPrompt(View(), o)
      modifies this
      ensures View() == E.Land(old(View()), stop, o)
      ensures Valid()
    {
      match stop
      case Rejected(_) => Reject(stop, o);
      case HungUp => Reject(stop, o);
      case ToIvr => Reject(stop, o);
      case Answering(node) => Answer(node, o);
      case Gathering(node) => Gather(node, o);
      case WaitingAt(node, seconds) => Wait(node, seconds, o);
      case Prompting(node, next) => Play(node, next, o);
      case Ringing(node, resumes) => Ring(node, resumes, o);
    }

    method WalkOn(node: string, o: E.Outside)
      requires E.Ready(View()) && E.FreshPrompt(View(), o)
      modifies this
      ensures View() == E.WalkOn(old(View()), node, o)
      ensures Valid()
    {
      E.WalkOnKeeps(View(), node, o);
      var p := o.plan.(answered := answered);
      WalkStopFits(p, node, 0, o.budget);
      var stop := WalkFrom(p, node, o.budget);
      if stop.None? {
        lost := true;
      } else {
        if Readmits(p, node, 0, o.budget) {
          registered := true;
        }
        Land(stop.value, o);
      }
    }

    // -------------------------------------------------------------------------
    // The handlers
    // -------------------------------------------------------------------------

    /** A new inbound call: the walk from behind the start node, or a rejection. */
    method Begin(o: E.Outside)
      requires View() == E.NewCall(answered) && E.FreshPrompt(View(), o)
      modifies this
      ensures View() == E.Begin(old(answered), o)
      ensures Valid()
    {
      var start := StartOf(o.plan.g.nodes);
      if start.None? {
        registered := false;
      } else {
        WalkOn(EdgeTo(o.plan.g.edges, start.value.id, PORT_OUT), o);
      }
    }

    method OnConnected(o: E.Outside)
      requires Valid() && E.FreshPrompt(View(), o)
      modifies this
      ensures View() == E.OnConnected(old(View()), o)
      ensures Valid()
    {
      if !registered {
        return;
      }
      answered := true;
      var node := resumeNode;
      resumeNode := "";
      if node != "" {
        resumed := resumed + 1;
        assert View() == E.Resumed(old(View()).(answered := true, resumeNode := ""));
        WalkOn(node, o);
      }
    }

    method OnPromptFinished(id: string, o: E.Outside)
      requires Valid() && E.FreshPrompt(View(), o)
      modifies this
      ensures View() == E.OnPromptFinished(old(View()), id, o)
      ensures Valid()
    {
      if !registered {
        return;
      }
      if menu.active {
        if menu.prompt == id {
          menu := menu.(prompt := "");
        }
        return;
      }
      if pendingID == "" || pendingID != id {
        return;
      }
      var next := nextNode;
      pendingID := "";
      nextNode := "";
      resumed := resumed + 1;
      assert View() == E.Resumed(old(View()).(pendingID := "", nextNode := ""));
      WalkOn(next, o);
    }

    method Submit(value: string, o: E.Outside)
      requires E.CanSubmit(View()) && E.FreshPrompt(View(), o)
      modifies this
      ensures View() == E.Submit(old(View()), value, o)
      ensures Valid()
    {
      if !menu.active {
        return;
      }
      var node := menu.node;
      menu := menu.(active := false, node := "", digits := "", prompt := "", listening := false);
      resumed := resumed + 1;
      assert View() == E.Resumed(old(View()).(menu := Closed(old(View()).menu)));
      var target := EdgeTo(o.plan.g.edges, node, value);
      if target == "" {
        target := EdgeTo(o.plan.g.edges, node, PORT_DEFAULT);
      }
      assert target == Target(o.plan.g, node, value);
      if target == "" {
        registered := false;
      } else {
        WalkOn(target, o);
      }
    }

    /** What a key does to the entry, under the lock: the value to submit, if it is due. */
    method PressKey(g: Graph, digit: string) returns (value: Option<string>)
      requires menu.active && menu.input != SPEECH
      modifies this`menu
      ensures (menu, value) == Press(g, old(menu), digit)
    {
      value := None;
      menu := menu.(prompt := "");
      if digit == "#" {
        value := Some(menu.digits);
      } else if digit == "*" {
        menu := menu.(digits := "");
      } else {
        menu := menu.(digits := menu.digits + digit);
        if HasEdge(g.edges, menu.node, menu.digits) {
          value := Some(menu.digits);
        } else if menu.num > 0 && |menu.digits| >= menu.num {
          value := Some(menu.digits);
        }
      }
    }

    method OnDTMF(digit: string, o: E.Outside)
      requires Valid() && E.FreshPrompt(View(), o)
      modifies this
      ensures View() == E.OnKey(old(View()), digit, o)
      ensures Valid()
    {
      if !registered || !menu.active || menu.input == SPEECH {
        return;
      }
      E.PressKeeps(View(), o.plan.g, digit);
      var value := PressKey(o.plan.g, digit);
      assert View() == old(View()).(menu := Press(o.plan.g, old(View()).menu, digit).0);
      if value.Some? {
        Submit(value.value, o);
      }
    }

    /** A transcript, in a menu that listens: the option it is matched to is submitted. */
    method OnSTT(text: string, isFinal: bool, o: E.Outside) returns (heard: Option<string>)
      requires Valid() && E.FreshPrompt(View(), o)
      modifies this
      ensures View() == E.OnHeard(old(View()), heard, o)
      ensures if old(E.Listens(View()))
        then Recognised(text, isFinal, GatherOptions(o.plan.g.edges, old(menu.node)), heard) else heard.None?
      ensures Valid()
    {
      if !registered || !menu.active || (menu.input != SPEECH && menu.input != BOTH) {
        return None;
      }
      heard := Recognise(text, isFinal, GatherOptions(o.plan.g.edges, menu.node));
      if heard.Some? {
        Submit(heard.value, o);
      }
    }

    method OnGatherTimeout(gen: nat, o: E.Outside)
      requires Valid() && E.FreshPrompt(View(), o)
      modifies this
      ensures View() == E.OnMenuTimeout(old(View()), gen, o)
      ensures Valid()
    {
      if gen !in timers {
        return;
      }
      E.ValidCanSubmit(View());
      E.MenuTimeoutKeeps(View(), gen, o);
      timers := timers - multiset{gen};
      assert View() == old(View()).(timers := old(timers) - multiset{gen});
      var expired := menu.active && menu.gen == gen;
      var digits := menu.digits;
      if expired {
        Submit(digits, o);
      }
    }

    method OnWaitOver(node: string, o: E.Outside)
      requires Valid() && E.FreshPrompt(View(), o)
      modifies this
      ensures View() == E.OnWaitOver(old(View()), node, o)
      ensures Valid()
    {
      if node !in waits {
        return;
      }
      waits := waits - multiset{node};
      resumed := resumed + 1;
      assert View() == E.Resumed(old(View()).(waits := old(waits) - multiset{node}));
      WalkOn(EdgeTo(o.plan.g.edges, node, PORT_NEXT), o);
    }

    method OnNoAnswer(o: E.Outside)
      requires Valid() && E.FreshPrompt(View(), o)
      modifies this
      ensures View() == E.OnNoAnswer(old(View()), o)
      ensures Valid()
    {
      if ringing.None? {
        return;
      }
      var node := ringing.value;
      ringing := None;
      registered := true;
      resumed := resumed + 1;
      assert View() == E.Resumed(old(View()).(ringing := None, registered := true));
      WalkOn(EdgeTo(o.plan.g.edges, node, PORT_NOANSWER), o);
    }

    method OnDisconnected()
      requires Valid()
      modifies this
      ensures View() == old(View()).(registered := false)
      ensures Valid()
    {
      registered := false;
    }
  }
}
