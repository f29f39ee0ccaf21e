/**
 * Whole runs of the router: any sequence of arrivals, deliveries, handled messages and deliveries that
 * return unhandled is a run of the delivery protocol.
 */
module RouterRuns {
  import opened Common
  import opened Delivery
  import opened Router

  datatype Act =
    | Arrive(m: Msg)                                // a producer publishes
    | Take(m: Msg)                                  // the broker delivers
    | Handle(m: Msg, routeOk: bool, dlqOk: bool)    // the message handler runs to its end
    | Return(m: Msg)                                // the connection is lost before the handler started

  predicate CanAct(b: Broker, act: Act) {
    match act
    case Arrive(_) => true
    case Take(m) => m in b.ready
    case Handle(m, _, _) => m in b.unacked
    case Return(m) => m in b.unacked
  }

  function Acted(to: Routing, b: Broker, act: Act): Broker {
    match act
    case Arrive(m) => b.(ready := Add(b.ready, m))
    case Take(m) => b.(ready := Drop(b.ready, m), unacked := Add(b.unacked, m))
    case Handle(m, routeOk, dlqOk) => Handled(to, b, m, routeOk, dlqOk)
    case Return(m) => b.(ready := Add(b.ready, m), unacked := Drop(b.unacked, m))
  }

  function After(to: Routing, acts: seq<Act>): Broker {
    if acts == [] then EMPTY.broker else Acted(to, After(to, Front(acts)), Last(acts))
  }

  predicate Possible(to: Routing, acts: seq<Act>) {
    acts == [] || (Possible(to, Front(acts)) && CanAct(After(to, Front(acts)), Last(acts)))
  }

  function StepsOf(to: Routing, act: Act): seq<Step> {
    match act
    case Arrive(m) => [Accept(m)]
    case Take(m) => [Deliver(m)]
    case Handle(m, routeOk, dlqOk) => HandlerSteps(to, m, routeOk, dlqOk)
    case Return(m) => [Crash(m, Delivered)]
  }

  function AllSteps(to: Routing, acts: seq<Act>): seq<Step> {
    if acts == [] then [] else AllSteps(to, Front(acts)) + StepsOf(to, Last(acts))
  }

  /** No handler is halfway: the deliveries in hand are the unacknowledged ones. */
  ghost predicate Quiet(s: State) {
    forall m :: InHand(s, m)
  }

  predicate InHand(s: State, m: Msg) {
    s.hands[(m, Delivered)] == s.broker.unacked[m]
  }

  function Finish(to: Routing, s: State, steps: seq<Step>): State
    requires 1 <= |steps| <= 2 && Enabled(to, s, steps[0])
    requires |steps| == 2 ==> Enabled(to, Apply(to, s, steps[0]), steps[1])
  {
    var s1 := Apply(to, s, steps[0]);
    if |steps| == 2 then Apply(to, s1, steps[1]) else s1
  }

  lemma {:induction false} HandleFinishes(to: Routing, s: State, m: Msg, routeOk: bool, dlqOk: bool)
    requires Quiet(s) && m in s.broker.unacked
    ensures var steps := HandlerSteps(to, m, routeOk, dlqOk);
            && Enabled(to, s, steps[0])
            && (|steps| == 2 ==> Enabled(to, Apply(to, s, steps[0]), steps[1]))
            && Finish(to, s, steps).broker == Handled(to, s.broker, m, routeOk, dlqOk)
            && Quiet(Finish(to, s, steps))
  {
    assert InHand(s, m);
    HandlerRefinesProtocol(to, s, m, routeOk, dlqOk);
    forall x
      ensures InHand(Finish(to, s, HandlerSteps(to, m, routeOk, dlqOk)), x)
    {
      assert InHand(s, x);
      HandleKeepsInHand(to, s, m, routeOk, dlqOk, x);
    }
  }

  lemma {:induction false} HandleKeepsInHand(to: Routing, s: State, m: Msg, routeOk: bool, dlqOk: bool, x: Msg)
    requires InHand(s, m) && InHand(s, x) && m in s.broker.unacked
    ensures var steps := HandlerSteps(to, m, routeOk, dlqOk);
            && Enabled(to, s, steps[0])
            && (|steps| == 2 ==> Enabled(to, Apply(to, s, steps[0]), steps[1]))
            && InHand(Finish(to, s, steps), x)
  {
    HandlerRefinesProtocol(to, s, m, routeOk, dlqOk);
    HandledInHand(to, s, m, routeOk, dlqOk, x);
    HandledUnacked(to, s.broker, m, routeOk, dlqOk, x);
  }

  lemma {:induction false} HandledUnacked(to: Routing, b: Broker, m: Msg, routeOk: bool, dlqOk: bool, x: Msg)
    requires m in b.unacked
    ensures Handled(to, b, m, routeOk, dlqOk).unacked[x] == b.unacked[x] - if x == m then 1 else 0
  {
  }

  /** Handling m takes m, and no other message, out of hand. */
  lemma {:induction false} HandledInHand(to: Routing, s: State, m: Msg, routeOk: bool, dlqOk: bool, x: Msg)
    requires (m, Delivered) in s.hands
    ensures var steps := HandlerSteps(to, m, routeOk, dlqOk);
            && Enabled(to, s, steps[0])
            && (|steps| == 2 ==> Enabled(to, Apply(to, s, steps[0]), steps[1]))
            && Finish(to, s, steps).hands[(x, Delivered)] == s.hands[(x, Delivered)] - if x == m then 1 else 0
  {
    HandlerRefinesProtocol(to, s, m, routeOk, dlqOk);
    var steps := HandlerSteps(to, m, routeOk, dlqOk);
    FirstStepInHand(to, s, steps[0], x);
    if |steps| == 2 {
      SecondStepInHand(to, Apply(to, s, steps[0]), steps[1], x);
    }
  }

  lemma {:induction false} FirstStepInHand(to: Routing, s: State, step: Step, x: Msg)
    requires Enabled(to, s, step) && (step.Reject? || step.Publish? || step.FailPublish? || step.DeadLetter?)
    ensures Apply(to, s, step).hands[(x, Delivered)] == s.hands[(x, Delivered)] - if x == step.m then 1 else 0
  {
  }

  lemma {:induction false} SecondStepInHand(to: Routing, s: State, step: Step, x: Msg)
    requires Enabled(to, s, step) && (step.Ack? || step.Requeue?)
    ensures Apply(to, s, step).hands[(x, Delivered)] == s.hands[(x, Delivered)]
  {
  }

  lemma {:induction false} ActFinishes(to: Routing, s: State, act: Act)
    requires Quiet(s) && CanAct(s.broker, act)
    ensures var steps := StepsOf(to, act);
            && Enabled(to, s, steps[0])
            && (|steps| == 2 ==> Enabled(to, Apply(to, s, steps[0]), steps[1]))
            && Finish(to, s, steps).broker == Acted(to, s.broker, act)
            && Quiet(Finish(to, s, steps))
  {
    if act.Handle? {
      HandleFinishes(to, s, act.m, act.routeOk, act.dlqOk);
    } else {
      assert InHand(s, act.m);
      var s' := Finish(to, s, StepsOf(to, act));
      forall x
        ensures InHand(s', x)
      {
        assert InHand(s, x);
      }
    }
  }

  lemma {:induction false} Extended(to: Routing, ss: seq<State>, steps: seq<Step>, step: Step)
    requires IsRun(to, ss, steps) && Enabled(to, Last(ss), step)
    ensures IsRun(to, ss + [Apply(to, Last(ss), step)], steps + [step])
  {
    var ss', steps' := ss + [Apply(to, Last(ss), step)], steps + [step];
    forall i | 0 <= i < |steps'|
      ensures Next(to, ss'[i], steps'[i], ss'[i + 1])
    {
      if i < |steps| {
        assert Next(to, ss[i], steps[i], ss[i + 1]);
      }
    }
  }

  lemma {:induction false} ActExtends(to: Routing, ss: seq<State>, before: seq<Step>, act: Act) returns (ss': seq<State>)
    requires IsRun(to, ss, before) && Quiet(Last(ss)) && CanAct(Last(ss).broker, act)
    ensures IsRun(to, ss', before + StepsOf(to, act))
    ensures Last(ss').broker == Acted(to, Last(ss).broker, act) && Quiet(Last(ss'))
  {
    ActFinishes(to, Last(ss), act);
    ss' := StepsExtend(to, ss, before, StepsOf(to, act));
  }

  lemma {:induction false} StepsExtend(to: Routing, ss: seq<State>, before: seq<Step>, steps: seq<Step>)
    returns (ss': seq<State>)
    requires IsRun(to, ss, before) && 1 <= |steps| <= 2 && Enabled(to, Last(ss), steps[0])
    requires |steps| == 2 ==> Enabled(to, Apply(to, Last(ss), steps[0]), steps[1])
    ensures IsRun(to, ss', before + steps) && Last(ss') == Finish(to, Last(ss), steps)
  {
    Extended(to, ss, before, steps[0]);
    ss' := ss + [Apply(to, Last(ss), steps[0])];
    if |steps| == 2 {
      Extended(to, ss', before + [steps[0]], steps[1]);
      ss' := ss' + [Apply(to, Last(ss'), steps[1])];
      assert before + [steps[0]] + [steps[1]] == before + steps;
    } else {
      assert before + [steps[0]] == before + steps;
    }
  }

  lemma {:induction false} EmptyRun(to: Routing)
    ensures IsRun(to, [EMPTY], []) && Quiet(EMPTY)
  {
  }

  /**
   * Whatever the order of arrivals, deliveries and handled messages, and whatever each publish comes
   * to, the protocol has a run of exactly the steps they consist of, which ends with the same broker.
   */
  lemma {:induction false} ActsAreARun(to: Routing, acts: seq<Act>) returns (ss: seq<State>)
    requires Possible(to, acts)
    ensures IsRun(to, ss, AllSteps(to, acts))
    ensures Last(ss).broker == After(to, acts) && Quiet(Last(ss))
  {
    if acts == [] {
      ss := [EMPTY];
      EmptyRun(to);
    } else {
      ss := ActsAreARun(to, Front(acts));
      ss := ActExtends(to, ss, AllSteps(to, Front(acts)), Last(acts));
    }
  }
}
