/**
 * The alert delivery protocol: tengen/routing/router.py and tengen/queue/rabbitmq_consumer.py over
 * a message broker. Each step is one broker interaction, so a consumer may crash between any two.
 * Route queues are assumed to be neither the alerts queue nor the dead-letter queue.
 */
module Delivery {
  import opened Common
  import opened RouteRegistry

  datatype Alert = Alert(id: string, payload: Payload)

  /** A body either deserializes to an alert or it does not. */
  datatype Msg = Malformed(body: string) | Wellformed(alert: Alert)

  datatype Reason = NoRouteMatched | PublishFailed

  /** What the broker holds: `unacked` are deliveries, `routed` are copies in the route queues. */
  datatype Broker = Broker(
    ready: multiset<Msg>, unacked: multiset<Msg>, routed: multiset<(string, Alert)>,
    dlq: multiset<(Alert, Reason)>, dropped: multiset<Msg>)

  /** How far the handling of a delivery has come. */
  datatype Stage = Delivered | Published | DeadLettered | DeadLetterFailed | PublishRaised

  /** The broker, the deliveries by stage, and what has happened so far. */
  datatype State = State(
    broker: Broker, hands: multiset<(Msg, Stage)>,
    accepted: multiset<Msg>, acked: multiset<Msg>, lost: multiset<Msg>,
    failures: multiset<Msg>, redelivered: multiset<(Msg, Stage)>)

  datatype Step =
    | Accept(m: Msg)                    // a producer publishes to the alerts queue
    | Deliver(m: Msg)                   // the broker hands a message to a consumer
    | Reject(m: Msg)                    // deserialization failed: nack without requeue
    | Publish(m: Msg)                   // the alert reached its route's queue
    | FailPublish(m: Msg, dlqOk: bool)  // the publish raised; a copy goes to the dead-letter queue
    | DeadLetter(m: Msg, dlqOk: bool)   // no route matched; a failed dead-letter publish is swallowed
    | Ack(m: Msg, stage: Stage)
    | Requeue(m: Msg)                   // the callback raised: nack with requeue
    | Crash(m: Msg, stage: Stage)       // the consumer dies and the delivery returns to the queue

  /** The queue an alert is routed to, if any. */
  type Routing = Alert -> Option<string>

  /** Routing by the first matching route of a registry. */
  function ByRegistry(routes: seq<Route>): Routing {
    (a: Alert) =>
      var k := FirstMatch(routes, a.payload);
      if k < |routes| then Some(routes[k].queue) else None
  }

  /** Alerts go to the queue of the first route that answers yes, and nowhere if none does. */
  lemma {:induction false} RegistryRouting(routes: seq<Route>, a: Alert)
    ensures forall k :: Picks(routes, a.payload, k) ==> ByRegistry(routes)(a) == Some(routes[k].queue)
    ensures NoneAnswers(routes, a.payload) ==> ByRegistry(routes)(a) == None
  {
    forall k | Picks(routes, a.payload, k)
      ensures FirstMatch(routes, a.payload) == k
    {
      FirstMatchIs(routes, a.payload, k);
    }
  }

  predicate Matched(to: Routing, m: Msg) {
    m.Wellformed? && to(m.alert).Some?
  }

  predicate Unmatched(to: Routing, m: Msg) {
    m.Wellformed? && to(m.alert).None?
  }

  predicate Enabled(to: Routing, s: State, step: Step) {
    match step
    case Accept(_) => true
    case Deliver(m) => m in s.broker.ready
    case Reject(m) => (m, Delivered) in s.hands && m.Malformed?
    case Publish(m) => (m, Delivered) in s.hands && Matched(to, m)
    case FailPublish(m, _) => (m, Delivered) in s.hands && Matched(to, m)
    case DeadLetter(m, _) => (m, Delivered) in s.hands && Unmatched(to, m)
    case Ack(m, stage) => (m, stage) in s.hands && stage in {Published, DeadLettered, DeadLetterFailed}
    case Requeue(m) => (m, PublishRaised) in s.hands
    case Crash(m, stage) => (m, stage) in s.hands
  }

  function Add<T(==)>(ms: multiset<T>, x: T): multiset<T>
  {
    ms[x := ms[x] + 1]
  }

  /** Removes one occurrence, if there is one. */
  function Drop<T(==)>(ms: multiset<T>, x: T): multiset<T>
  {
    if x in ms then ms[x := ms[x] - 1] else ms
  }

  function Apply(to: Routing, s: State, step: Step): State
    requires Enabled(to, s, step)
  {
    var b := s.broker;
    match step
    case Accept(m) =>
      s.(broker := b.(ready := Add(b.ready, m)), accepted := Add(s.accepted, m))
    case Deliver(m) =>
      s.(broker := b.(ready := Drop(b.ready, m), unacked := Add(b.unacked, m)),
         hands := Add(s.hands, (m, Delivered)))
    case Reject(m) =>
      s.(broker := b.(unacked := Drop(b.unacked, m), dropped := Add(b.dropped, m)),
         hands := Drop(s.hands, (m, Delivered)))
    case Publish(m) =>
      s.(broker := b.(routed := Add(b.routed, (to(m.alert).value, m.alert))),
         hands := Add(Drop(s.hands, (m, Delivered)), (m, Published)))
    case FailPublish(m, dlqOk) =>
      s.(broker := b.(dlq := if dlqOk then Add(b.dlq, (m.alert, PublishFailed)) else b.dlq),
         failures := Add(s.failures, m),
         hands := Add(Drop(s.hands, (m, Delivered)), (m, PublishRaised)))
    case DeadLetter(m, dlqOk) =>
      s.(broker := b.(dlq := if dlqOk then Add(b.dlq, (m.alert, NoRouteMatched)) else b.dlq),
         hands := Add(Drop(s.hands, (m, Delivered)), (m, if dlqOk then DeadLettered else DeadLetterFailed)))
    case Ack(m, stage) =>
      s.(broker := b.(unacked := Drop(b.unacked, m)), acked := Add(s.acked, m),
         lost := if stage == DeadLetterFailed then Add(s.lost, m) else s.lost,
         hands := Drop(s.hands, (m, stage)))
    case Requeue(m) =>
      s.(broker := b.(unacked := Drop(b.unacked, m), ready := Add(b.ready, m)),
         hands := Drop(s.hands, (m, PublishRaised)))
    case Crash(m, stage) =>
      s.(broker := b.(unacked := Drop(b.unacked, m), ready := Add(b.ready, m)),
         redelivered := Add(s.redelivered, (m, stage)), hands := Drop(s.hands, (m, stage)))
  }

  const EMPTY := State(Broker(multiset{}, multiset{}, multiset{}, multiset{}, multiset{}), multiset{},
                       multiset{}, multiset{}, multiset{}, multiset{}, multiset{})

  /** The states of a run: each follows from the one before by an enabled step. */
  predicate IsRun(to: Routing, ss: seq<State>, steps: seq<Step>) {
    && |ss| == |steps| + 1 && ss[0] == EMPTY
    && forall i :: 0 <= i < |steps| ==> Next(to, ss[i], steps[i], ss[i + 1])
  }

  predicate Next(to: Routing, s: State, step: Step, s': State) {
    Enabled(to, s, step) && s' == Apply(to, s, step)
  }

  /** What holds at the start and is kept by every step holds throughout a run. */
  lemma {:induction false} RunInduction(to: Routing, inv: State -> bool, ss: seq<State>, steps: seq<Step>, n: nat)
    requires IsRun(to, ss, steps) && n < |ss| && inv(EMPTY)
    requires forall s, step, s' :: inv(s) && Next(to, s, step, s') ==> inv(s')
    ensures inv(ss[n])
  {
    if n > 0 {
      RunInduction(to, inv, ss, steps, n - 1);
      assert Next(to, ss[n - 1], steps[n - 1], ss[n - 1 + 1]);
    }
  }

  // ---- Conservation, message by message -----------------------------------------------------

  /** How often one message occurs in each part of a state. */
  datatype Ledger = Ledger(
    accepted: nat, ready: nat, unacked: nat, dropped: nat, routed: nat, noRoute: nat, publishFailed: nat,
    delivered: nat, published: nat, deadLettered: nat, deadLetterFailed: nat, publishRaised: nat,
    acked: nat, lost: nat, failures: nat, republished: nat, redeadLettered: nat)
  {
    function InHand(): nat {
      delivered + published + deadLettered + deadLetterFailed + publishRaised
    }
  }

  /** The ledger of m; its routed copies are those in its own route's queue. */
  function LedgerOf(to: Routing, s: State, m: Msg): Ledger {
    var b := s.broker;
    Ledger(
      s.accepted[m], b.ready[m], b.unacked[m], b.dropped[m],
      if Matched(to, m) then b.routed[(to(m.alert).value, m.alert)] else 0,
      if m.Wellformed? then b.dlq[(m.alert, NoRouteMatched)] else 0,
      if m.Wellformed? then b.dlq[(m.alert, PublishFailed)] else 0,
      s.hands[(m, Delivered)], s.hands[(m, Published)], s.hands[(m, DeadLettered)],
      s.hands[(m, DeadLetterFailed)], s.hands[(m, PublishRaised)],
      s.acked[m], s.lost[m], s.failures[m], s.redelivered[(m, Published)], s.redelivered[(m, DeadLettered)])
  }

  predicate MalformedLaw(l: Ledger) {
    && l.unacked == l.delivered
    && l.accepted == l.ready + l.delivered + l.dropped
    && l.published == 0 && l.deadLettered == 0 && l.deadLetterFailed == 0 && l.publishRaised == 0
    && l.acked == 0 && l.lost == 0 && l.republished == 0 && l.redeadLettered == 0
  }

  /** A routable alert: every publication is acked, in hand, or was followed by a crash. */
  predicate MatchedLaw(l: Ledger) {
    && l.unacked == l.InHand()
    && l.accepted == l.ready + l.InHand() + l.acked
    && l.routed == l.acked + l.published + l.republished
    && l.publishFailed <= l.failures
    && l.noRoute == 0 && l.deadLettered == 0 && l.deadLetterFailed == 0 && l.redeadLettered == 0
    && l.lost == 0 && l.dropped == 0
  }

  /** An unroutable alert: every acked delivery left a dead letter or was lost. */
  predicate UnmatchedLaw(l: Ledger) {
    && l.unacked == l.InHand()
    && l.accepted == l.ready + l.InHand() + l.acked
    && l.noRoute + l.lost == l.acked + l.deadLettered + l.redeadLettered
    && l.publishFailed == 0 && l.published == 0 && l.publishRaised == 0 && l.republished == 0 && l.dropped == 0
  }

  predicate Balanced(to: Routing, s: State, m: Msg) {
    var l := LedgerOf(to, s, m);
    && (m.Malformed? ==> MalformedLaw(l))
    && (Matched(to, m) ==> MatchedLaw(l))
    && (Unmatched(to, m) ==> UnmatchedLaw(l))
  }

  /** Copies sit only in the queue of their alert's own route. */
  ghost predicate RoutedRight(to: Routing, s: State) {
    forall q, a :: (q, a) in s.broker.routed ==> to(a) == Some(q)
  }

  /** A step leaves the ledger of every message but its own alone. */
  lemma {:induction false} StepElsewhere(to: Routing, s: State, step: Step, x: Msg)
    requires Enabled(to, s, step) && step.m != x
    ensures LedgerOf(to, Apply(to, s, step), x) == LedgerOf(to, s, x)
  {
  }

  lemma {:induction false} StepBalances(to: Routing, s: State, step: Step, x: Msg)
    requires Enabled(to, s, step) && Balanced(to, s, x)
    ensures Balanced(to, Apply(to, s, step), x)
  {
    if step.m != x {
      StepElsewhere(to, s, step, x);
    } else {
      match step
      case Accept(m) => AcceptBalances(to, s, m);
      case Deliver(m) => DeliverBalances(to, s, m);
      case Reject(m) => RejectBalances(to, s, m);
      case Publish(m) => PublishBalances(to, s, m);
      case FailPublish(m, dlqOk) => FailPublishBalances(to, s, m, dlqOk);
      case DeadLetter(m, dlqOk) => DeadLetterBalances(to, s, m, dlqOk);
      case Ack(m, stage) => AckBalances(to, s, m, stage);
      case Requeue(m) => RequeueBalances(to, s, m);
      case Crash(m, stage) => CrashBalances(to, s, m, stage);
    }
  }

  lemma {:induction false} AcceptBalances(to: Routing, s: State, m: Msg)
    requires Enabled(to, s, Accept(m)) && Balanced(to, s, m)
    ensures Balanced(to, Apply(to, s, Accept(m)), m)
  {
  }

  lemma {:induction false} DeliverBalances(to: Routing, s: State, m: Msg)
    requires Enabled(to, s, Deliver(m)) && Balanced(to, s, m)
    ensures Balanced(to, Apply(to, s, Deliver(m)), m)
  {
  }

  lemma {:induction false} RejectBalances(to: Routing, s: State, m: Msg)
    requires Enabled(to, s, Reject(m)) && Balanced(to, s, m)
    ensures Balanced(to, Apply(to, s, Reject(m)), m)
  {
  }

  lemma {:induction false} PublishBalances(to: Routing, s: State, m: Msg)
    requires Enabled(to, s, Publish(m)) && Balanced(to, s, m)
    ensures Balanced(to, Apply(to, s, Publish(m)), m)
  {
  }

  lemma {:induction false} FailPublishBalances(to: Routing, s: State, m: Msg, dlqOk: bool)
    requires Enabled(to, s, FailPublish(m, dlqOk)) && Balanced(to, s, m)
    ensures Balanced(to, Apply(to, s, FailPublish(m, dlqOk)), m)
  {
  }

  lemma {:induction false} DeadLetterBalances(to: Routing, s: State, m: Msg, dlqOk: bool)
    requires Enabled(to, s, DeadLetter(m, dlqOk)) && Balanced(to, s, m)
    ensures Balanced(to, Apply(to, s, DeadLetter(m, dlqOk)), m)
  {
  }

  lemma {:induction false} AckBalances(to: Routing, s: State, m: Msg, stage: Stage)
    requires Enabled(to, s, Ack(m, stage)) && Balanced(to, s, m)
    ensures Balanced(to, Apply(to, s, Ack(m, stage)), m)
  {
    var l, l' := LedgerOf(to, s, m), LedgerOf(to, Apply(to, s, Ack(m, stage)), m);
    assert l'.delivered == if stage == Delivered then l.delivered - 1 else l.delivered;
    assert l'.published == if stage == Published then l.published - 1 else l.published;
    assert l'.deadLettered == if stage == DeadLettered then l.deadLettered - 1 else l.deadLettered;
    assert l'.deadLetterFailed == if stage == DeadLetterFailed then l.deadLetterFailed - 1 else l.deadLetterFailed;
    assert l'.publishRaised == if stage == PublishRaised then l.publishRaised - 1 else l.publishRaised;
    assert l'.InHand() == l.InHand() - 1;
  }

  lemma {:induction false} RequeueBalances(to: Routing, s: State, m: Msg)
    requires Enabled(to, s, Requeue(m)) && Balanced(to, s, m)
    ensures Balanced(to, Apply(to, s, Requeue(m)), m)
  {
  }

  lemma {:induction false} CrashBalances(to: Routing, s: State, m: Msg, stage: Stage)
    requires Enabled(to, s, Crash(m, stage)) && Balanced(to, s, m)
    ensures Balanced(to, Apply(to, s, Crash(m, stage)), m)
  {
    var l, l' := LedgerOf(to, s, m), LedgerOf(to, Apply(to, s, Crash(m, stage)), m);
    assert l'.delivered == if stage == Delivered then l.delivered - 1 else l.delivered;
    assert l'.published == if stage == Published then l.published - 1 else l.published;
    assert l'.deadLettered == if stage == DeadLettered then l.deadLettered - 1 else l.deadLettered;
    assert l'.deadLetterFailed == if stage == DeadLetterFailed then l.deadLetterFailed - 1 else l.deadLetterFailed;
    assert l'.publishRaised == if stage == PublishRaised then l.publishRaised - 1 else l.publishRaised;
    assert l'.InHand() == l.InHand() - 1;
  }

  lemma {:induction false} StepRoutesRight(to: Routing, s: State, step: Step)
    requires Enabled(to, s, step) && RoutedRight(to, s)
    ensures RoutedRight(to, Apply(to, s, step))
  {
  }

  ghost predicate Sound(to: Routing, s: State) {
    RoutedRight(to, s) && forall m :: Balanced(to, s, m)
  }

  lemma {:induction false} NextIsSound(to: Routing, s: State, step: Step, s': State)
    requires Next(to, s, step, s') && Sound(to, s)
    ensures Sound(to, s')
  {
    StepRoutesRight(to, s, step);
    forall m
      ensures Balanced(to, s', m)
    {
      StepBalances(to, s, step, m);
    }
  }

  /** Nothing has happened to the message yet. */
  predicate Blank(l: Ledger) {
    && l.accepted <= 0 && l.ready <= 0 && l.unacked <= 0 && l.dropped <= 0 && l.routed <= 0 && l.noRoute <= 0
    && l.publishFailed <= 0 && l.delivered <= 0 && l.published <= 0 && l.deadLettered <= 0
    && l.deadLetterFailed <= 0 && l.publishRaised <= 0 && l.acked <= 0 && l.lost <= 0 && l.failures <= 0
    && l.republished <= 0 && l.redeadLettered <= 0
  }

  lemma {:induction false} BlankBalances(to: Routing, s: State, m: Msg, l: Ledger)
    requires l == LedgerOf(to, s, m) && Blank(l)
    ensures Balanced(to, s, m)
  {
  }

  lemma {:induction false} StartIsBlank(to: Routing, m: Msg)
    ensures Blank(LedgerOf(to, EMPTY, m))
  {
    assert LedgerOf(to, EMPTY, m) == Ledger(0, 0, 0, 0, 0, 0, 0, 0, 0, 0, 0, 0, 0, 0, 0, 0, 0);
  }

  lemma {:induction false} RunIsSound(to: Routing, ss: seq<State>, steps: seq<Step>, n: nat)
    requires IsRun(to, ss, steps) && n < |ss|
    ensures Sound(to, ss[n])
  {
    forall m
      ensures Balanced(to, EMPTY, m)
    {
      StartIsBlank(to, m);
      BlankBalances(to, EMPTY, m, LedgerOf(to, EMPTY, m));
    }
    forall s, step, s' | Sound(to, s) && Next(to, s, step, s')
      ensures Sound(to, s')
    {
      NextIsSound(to, s, step, s');
    }
    RunInduction(to, s => Sound(to, s), ss, steps, n);
  }

  lemma {:induction false} RunBalances(to: Routing, ss: seq<State>, steps: seq<Step>, n: nat, m: Msg)
    requires IsRun(to, ss, steps) && n < |ss|
    ensures Balanced(to, ss[n], m) && RoutedRight(to, ss[n])
  {
    RunIsSound(to, ss, steps, n);
  }

  // ---- What the laws mean for a run ---------------------------------------------------------

  /** Every accepted message, plus every copy a crash duplicated, is accounted for exactly once. */
  lemma {:induction false} Conservation(to: Routing, ss: seq<State>, steps: seq<Step>, n: nat, m: Msg)
    requires IsRun(to, ss, steps) && n < |ss|
    ensures var l := LedgerOf(to, ss[n], m);
            l.accepted + l.republished + l.redeadLettered ==
            l.ready + (l.delivered + l.deadLetterFailed + l.publishRaised)
            + l.routed + l.noRoute + l.dropped + l.lost
    ensures forall q :: Matched(to, m) && q != to(m.alert).value ==> ss[n].broker.routed[(q, m.alert)] == 0
  {
    RunBalances(to, ss, steps, n, m);
    if m.Wellformed? && to(m.alert).None? {
      assert Unmatched(to, m);
    }
  }

  /** Only an unroutable alert whose dead-letter publish failed is ever acked without a trace. */
  lemma {:induction false} OnlyUnroutableIsLost(to: Routing, ss: seq<State>, steps: seq<Step>, n: nat, m: Msg)
    requires IsRun(to, ss, steps) && n < |ss| && m in ss[n].lost
    ensures Unmatched(to, m)
    ensures exists i :: 0 <= i < n && steps[i] == DeadLetter(m, false)
  {
    RunBalances(to, ss, steps, n, m);
    assert Matched(to, m) || Unmatched(to, m) || m.Malformed?;
    LostWasSwallowed(to, ss, steps, n, m);
  }

  lemma {:induction false} LostWasSwallowed(to: Routing, ss: seq<State>, steps: seq<Step>, n: nat, m: Msg)
    requires IsRun(to, ss, steps) && n < |ss|
    requires m in ss[n].lost || (m, DeadLetterFailed) in ss[n].hands
    ensures exists i :: 0 <= i < n && steps[i] == DeadLetter(m, false)
  {
    if n > 0 {
      assert Next(to, ss[n - 1], steps[n - 1], ss[n - 1 + 1]);
      SwallowsOrKeeps(to, ss[n - 1], steps[n - 1], m);
      if steps[n - 1] != DeadLetter(m, false) {
        LostWasSwallowed(to, ss, steps, n - 1, m);
      }
    }
  }

  /** Only a swallowed dead-letter failure puts a message on its way to being lost. */
  lemma {:induction false} SwallowsOrKeeps(to: Routing, s: State, step: Step, m: Msg)
    requires Enabled(to, s, step)
    requires m in Apply(to, s, step).lost || (m, DeadLetterFailed) in Apply(to, s, step).hands
    ensures step == DeadLetter(m, false) || m in s.lost || (m, DeadLetterFailed) in s.hands
  {
  }

  predicate CrashFree(steps: seq<Step>) {
    forall i :: 0 <= i < |steps| ==> !steps[i].Crash?
  }

  lemma {:induction false} NothingRedelivered(to: Routing, ss: seq<State>, steps: seq<Step>, n: nat)
    requires IsRun(to, ss, steps) && n < |ss| && CrashFree(steps)
    ensures ss[n].redelivered == multiset{}
  {
    if n > 0 {
      NothingRedelivered(to, ss, steps, n - 1);
      assert Next(to, ss[n - 1], steps[n - 1], ss[n - 1 + 1]);
    }
  }

  /**
   * A routable alert is never lost: the acked deliveries never outnumber the copies in its route's
   * queue, and without crashes they are exactly as many once no delivery of it is in hand. Copies
   * dead-lettered for a failed publish never outnumber the failed deliveries.
   */
  lemma {:induction false} RoutableIsDelivered(to: Routing, ss: seq<State>, steps: seq<Step>, n: nat, a: Alert)
    requires IsRun(to, ss, steps) && n < |ss| && to(a).Some?
    ensures ss[n].acked[Wellformed(a)] <= ss[n].broker.routed[(to(a).value, a)]
    ensures CrashFree(steps) && Wellformed(a) !in ss[n].broker.unacked ==>
              ss[n].acked[Wellformed(a)] == ss[n].broker.routed[(to(a).value, a)]
    ensures forall q :: Some(q) != to(a) ==> ss[n].broker.routed[(q, a)] == 0
    ensures ss[n].broker.dlq[(a, PublishFailed)] <= ss[n].failures[Wellformed(a)]
    ensures ss[n].lost[Wellformed(a)] == 0 && ss[n].broker.dlq[(a, NoRouteMatched)] == 0
  {
    var m := Wellformed(a);
    RunBalances(to, ss, steps, n, m);
    assert Matched(to, m);
    if CrashFree(steps) {
      NothingRedelivered(to, ss, steps, n);
    }
    forall q | Some(q) != to(a)
      ensures ss[n].broker.routed[(q, a)] == 0
    {
      assert (q, a) !in ss[n].broker.routed;
    }
  }

  /** The four steps in which an unroutable alert is lost. */
  lemma {:induction false} LosingSteps(to: Routing, a: Alert) returns (s1: State, s2: State, s3: State, s4: State)
    requires to(a).None?
    ensures var m := Wellformed(a);
            && Next(to, EMPTY, Accept(m), s1) && Next(to, s1, Deliver(m), s2)
            && Next(to, s2, DeadLetter(m, false), s3) && Next(to, s3, Ack(m, DeadLetterFailed), s4)
    ensures s4.broker == EMPTY.broker && s4.accepted == multiset{Wellformed(a)}
  {
    var m := Wellformed(a);
    s1 := Apply(to, EMPTY, Accept(m));
    assert s1.broker.ready == multiset{m} && s1.hands == multiset{};
    s2 := Apply(to, s1, Deliver(m));
    assert s2.broker.ready == multiset{} && s2.broker.unacked == multiset{m} && s2.hands == multiset{(m, Delivered)};
    s3 := Apply(to, s2, DeadLetter(m, false));
    assert s3.hands == multiset{(m, DeadLetterFailed)};
    s4 := Apply(to, s3, Ack(m, DeadLetterFailed));
  }

  /** The swallowed dead-letter failure loses an alert: no unconditional guarantee is possible. */
  lemma {:induction false} LossHappens(to: Routing, a: Alert) returns (ss: seq<State>, steps: seq<Step>)
    requires to(a).None?
    ensures IsRun(to, ss, steps) && CrashFree(steps)
    ensures ss[|steps|].broker == EMPTY.broker && ss[|steps|].accepted == multiset{Wellformed(a)}
  {
    var m := Wellformed(a);
    var s1, s2, s3, s4 := LosingSteps(to, a);
    ss, steps := [EMPTY, s1, s2, s3, s4], [Accept(m), Deliver(m), DeadLetter(m, false), Ack(m, DeadLetterFailed)];
  }
}
