/**
 * The router and the message handler of its consumer, acting on the broker:
 * tengen/routing/router.py (_route_alert, _publish_to_dlq) and
 * tengen/queue/rabbitmq_consumer.py (_on_message). Whether a publish succeeds or raises is an input.
 */
module Router {
  import opened Common
  import opened RouteRegistry
  import opened Delivery

  /** The queues of the broker as the publisher and consumer channels see them. */
  class Channel {
    var ready: multiset<Msg>
    var unacked: multiset<Msg>
    var routed: multiset<(string, Alert)>
    var dlq: multiset<(Alert, Reason)>
    var dropped: multiset<Msg>

    ghost function Snapshot(): Broker
      reads this
    {
      Broker(ready, unacked, routed, dlq, dropped)
    }

    /** A publish either enqueues the copy or raises and enqueues nothing. */
    method PublishToQueue(queue: string, alert: Alert, ok: bool) returns (raised: bool)
      modifies this`routed
      ensures raised == !ok
      ensures routed == if ok then Add(old(routed), (queue, alert)) else old(routed)
    {
      if ok {
        routed := routed[(queue, alert) := routed[(queue, alert)] + 1];
      }
      raised := !ok;
    }

    method PublishDead(alert: Alert, reason: Reason, ok: bool) returns (raised: bool)
      modifies this`dlq
      ensures raised == !ok
      ensures dlq == if ok then Add(old(dlq), (alert, reason)) else old(dlq)
    {
      if ok {
        dlq := dlq[(alert, reason) := dlq[(alert, reason)] + 1];
      }
      raised := !ok;
    }

    method Ack(m: Msg)
      modifies this`unacked
      ensures Snapshot() == old(Snapshot()).(unacked := Drop(old(unacked), m))
    {
      unacked := Drop(unacked, m);
    }

    method Nack(m: Msg, requeue: bool)
      modifies this`unacked, this`ready, this`dropped
      ensures requeue ==>
                Snapshot() == old(Snapshot()).(unacked := Drop(old(unacked), m), ready := Add(old(ready), m))
      ensures !requeue ==>
                Snapshot() == old(Snapshot()).(unacked := Drop(old(unacked), m), dropped := Add(old(dropped), m))
    {
      unacked := Drop(unacked, m);
      if requeue {
        ready := ready[m := ready[m] + 1];
      } else {
        dropped := dropped[m := dropped[m] + 1];
      }
    }
  }

  /** What routing an alert does to the broker. */
  function Routed(to: Routing, b: Broker, a: Alert, routeOk: bool, dlqOk: bool): Broker {
    if to(a).None? then b.(dlq := if dlqOk then Add(b.dlq, (a, NoRouteMatched)) else b.dlq)
    else if routeOk then b.(routed := Add(b.routed, (to(a).value, a)))
    else b.(dlq := if dlqOk then Add(b.dlq, (a, PublishFailed)) else b.dlq)
  }

  /** What handling one delivery to completion does to the broker. */
  function Handled(to: Routing, b: Broker, m: Msg, routeOk: bool, dlqOk: bool): Broker {
    if m.Malformed? then b.(unacked := Drop(b.unacked, m), dropped := Add(b.dropped, m))
    else
      var routed := Routed(to, b, m.alert, routeOk, dlqOk);
      if to(m.alert).Some? && !routeOk then routed.(unacked := Drop(b.unacked, m), ready := Add(b.ready, m))
      else routed.(unacked := Drop(b.unacked, m))
  }

  /**
   * What routing an alert does, in terms of the registered routes: a copy goes to the queue of the
   * first route that answers yes, or if that raised to the dead letters as publish_failed, and the
   * error is passed on; without such a route it goes to the dead letters as no_route_matched.
   */
  ghost predicate IsRouted(
      routes: seq<Route>, b: Broker, b': Broker, a: Alert, routeOk: bool, dlqOk: bool, raised: bool)
  {
    && b'.ready == b.ready && b'.unacked == b.unacked && b'.dropped == b.dropped
    && (forall k :: Picks(routes, a.payload, k) ==>
          if routeOk then !raised && b'.routed == Add(b.routed, (routes[k].queue, a)) && b'.dlq == b.dlq
          else raised && b'.routed == b.routed
               && b'.dlq == (if dlqOk then Add(b.dlq, (a, PublishFailed)) else b.dlq))
    && (NoneAnswers(routes, a.payload) ==>
          !raised && b'.routed == b.routed
          && b'.dlq == (if dlqOk then Add(b.dlq, (a, NoRouteMatched)) else b.dlq))
  }

  /**
   * What handling one delivery does, in terms of the registered routes: the delivery is settled; a
   * malformed one is dropped; an alert is copied to the queue of the first route that answers yes, or
   * requeued and dead-lettered if that publish raised, or dead-lettered as unroutable; nothing else changes.
   */
  ghost predicate IsHandled(routes: seq<Route>, b: Broker, b': Broker, m: Msg, routeOk: bool, dlqOk: bool) {
    && b'.unacked == Drop(b.unacked, m)
    && b'.dropped == (if m.Malformed? then Add(b.dropped, m) else b.dropped)
    && (m.Malformed? ==> b'.ready == b.ready && b'.routed == b.routed && b'.dlq == b.dlq)
    && (m.Wellformed? ==> forall k :: Picks(routes, m.alert.payload, k) ==>
          if routeOk
          then b'.routed == Add(b.routed, (routes[k].queue, m.alert)) && b'.ready == b.ready && b'.dlq == b.dlq
          else b'.routed == b.routed && b'.ready == Add(b.ready, m)
               && b'.dlq == (if dlqOk then Add(b.dlq, (m.alert, PublishFailed)) else b.dlq))
    && (m.Wellformed? && NoneAnswers(routes, m.alert.payload) ==>
          b'.routed == b.routed && b'.ready == b.ready
          && b'.dlq == (if dlqOk then Add(b.dlq, (m.alert, NoRouteMatched)) else b.dlq))
  }

  lemma {:induction false} HandledIs(routes: seq<Route>, b: Broker, m: Msg, routeOk: bool, dlqOk: bool)
    ensures IsHandled(routes, b, Handled(ByRegistry(routes), b, m, routeOk, dlqOk), m, routeOk, dlqOk)
  {
    if m.Wellformed? {
      RegistryRouting(routes, m.alert);
    }
  }

  class Router {
    const registry: RouteRegistry
    const channel: Channel

    constructor (registry: RouteRegistry, channel: Channel)
      ensures this.registry == registry && this.channel == channel
    {
      this.registry := registry;
      this.channel := channel;
    }

    /** A failed publish to the dead-letter queue is logged and swallowed. */
    method PublishToDlq(alert: Alert, reason: Reason, dlqOk: bool)
      modifies channel`dlq
      ensures channel.dlq == if dlqOk then Add(old(channel.dlq), (alert, reason)) else old(channel.dlq)
    {
      var raised := channel.PublishDead(alert, reason, dlqOk);
    }

    /** Raises exactly when the alert has a route and publishing to it raised. */
    method RouteAlert(alert: Alert, routeOk: bool, dlqOk: bool) returns (raised: bool)
      modifies channel`routed, channel`dlq
      ensures var to := ByRegistry(registry.routes);
              && raised == (to(alert).Some? && !routeOk)
              && channel.Snapshot() == Routed(to, old(channel.Snapshot()), alert, routeOk, dlqOk)
      ensures IsRouted(registry.routes, old(channel.Snapshot()), channel.Snapshot(), alert, routeOk, dlqOk, raised)
    {
      RegistryRouting(registry.routes, alert);
      var route := registry.Match(alert.payload);
      if route.None? {
        PublishToDlq(alert, NoRouteMatched, dlqOk);
        return false;
      }
      var failed := channel.PublishToQueue(route.value.queue, alert, routeOk);
      if failed {
        PublishToDlq(alert, PublishFailed, dlqOk);
        return true;
      }
      return false;
    }

    method OnMessage(m: Msg, routeOk: bool, dlqOk: bool)
      requires m in channel.unacked
      modifies channel
      ensures channel.Snapshot() == Handled(ByRegistry(registry.routes), old(channel.Snapshot()), m, routeOk, dlqOk)
      ensures IsHandled(registry.routes, old(channel.Snapshot()), channel.Snapshot(), m, routeOk, dlqOk)
    {
      HandledIs(registry.routes, channel.Snapshot(), m, routeOk, dlqOk);
      if m.Malformed? {
        channel.Nack(m, false);
        return;
      }
      var raised := RouteAlert(m.alert, routeOk, dlqOk);
      if raised {
        channel.Nack(m, true);
      } else {
        channel.Ack(m);
      }
    }
  }

  /** The protocol steps that make up the handling of one delivery. */
  function HandlerSteps(to: Routing, m: Msg, routeOk: bool, dlqOk: bool): seq<Step> {
    if m.Malformed? then [Reject(m)]
    else if to(m.alert).None? then
      [DeadLetter(m, dlqOk), Delivery.Ack(m, if dlqOk then DeadLettered else DeadLetterFailed)]
    else if routeOk then [Publish(m), Delivery.Ack(m, Published)]
    else [FailPublish(m, dlqOk), Requeue(m)]
  }

  /** The handler is a sequence of enabled protocol steps with the same effect on the broker. */
  lemma {:induction false} HandlerRefinesProtocol(to: Routing, s: State, m: Msg, routeOk: bool, dlqOk: bool)
    requires (m, Delivered) in s.hands
    ensures var steps := HandlerSteps(to, m, routeOk, dlqOk);
            && Enabled(to, s, steps[0])
            && var s1 := Apply(to, s, steps[0]);
            && (|steps| == 2 ==> Enabled(to, s1, steps[1]))
            && var s2 := if |steps| == 2 then Apply(to, s1, steps[1]) else s1;
            s2.broker == Handled(to, s.broker, m, routeOk, dlqOk)
  {
  }
}
