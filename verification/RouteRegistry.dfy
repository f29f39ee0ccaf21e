/** The ordered first-match route registry: tengen/routing/registry.py. */
module RouteRegistry {
  import opened Common

  type Payload = string

  /** What a matcher does with a payload; matchers must not raise, but the registry survives it. */
  datatype Answer = Yes | No | Raises

  datatype Route = Route(name: string, queue: string, matcher: Payload -> Answer)

  predicate DistinctNames(routes: seq<Route>) {
    forall i, j :: 0 <= i < j < |routes| ==> routes[i].name != routes[j].name
  }

  predicate HasName(routes: seq<Route>, name: string) {
    exists i :: 0 <= i < |routes| && routes[i].name == name
  }

  /** The index of the first route at or after `from` that answers yes, or |routes|. */
  function FirstMatch(routes: seq<Route>, payload: Payload, from: nat := 0): (k: nat)
    requires from <= |routes|
    ensures from <= k <= |routes|
    ensures forall j :: from <= j < k ==> routes[j].matcher(payload) != Yes
    ensures k < |routes| ==> routes[k].matcher(payload) == Yes
    decreases |routes| - from
  {
    if from == |routes| || routes[from].matcher(payload) == Yes then from
    else FirstMatch(routes, payload, from + 1)
  }

  lemma {:induction false} FirstMatchIs(routes: seq<Route>, payload: Payload, k: nat)
    requires k <= |routes| && (k < |routes| ==> routes[k].matcher(payload) == Yes)
    requires forall j :: 0 <= j < k ==> routes[j].matcher(payload) != Yes
    ensures FirstMatch(routes, payload) == k
  {
  }

  /** Route k answers yes to the payload and no earlier route does. */
  predicate Picks(routes: seq<Route>, payload: Payload, k: int) {
    0 <= k < |routes| && routes[k].matcher(payload) == Yes && forall j :: 0 <= j < k ==> routes[j].matcher(payload) != Yes
  }

  predicate NoneAnswers(routes: seq<Route>, payload: Payload) {
    forall j :: 0 <= j < |routes| ==> routes[j].matcher(payload) != Yes
  }

  class RouteRegistry {
    var routes: seq<Route>

    constructor ()
      ensures routes == []
    {
      routes := [];
    }

    /** A second route of the same name is refused and changes nothing. */
    method Register(route: Route) returns (r: Result<(), string>)
      requires DistinctNames(routes)
      modifies this
      ensures DistinctNames(routes)
      ensures r.Err? <==> HasName(old(routes), route.name)
      ensures routes == if r.Ok? then old(routes) + [route] else old(routes)
    {
      for i := 0 to |routes|
        invariant forall j :: 0 <= j < i ==> routes[j].name != route.name
        invariant routes == old(routes)
      {
        if routes[i].name == route.name {
          return Err(route.name);
        }
      }
      routes := routes + [route];
      return Ok(());
    }

    /** Scans in registration order; a raising matcher counts as a refusal. */
    method Match(payload: Payload) returns (r: Option<Route>)
      ensures r.Some? <==> FirstMatch(routes, payload) < |routes|
      ensures r.Some? ==> r.value == routes[FirstMatch(routes, payload)]
    {
      for i := 0 to |routes|
        invariant forall j :: 0 <= j < i ==> routes[j].matcher(payload) != Yes
      {
        var answer := routes[i].matcher(payload);
        var result := match answer case Yes => true case No => false case Raises => false;
        if result {
          FirstMatchIs(routes, payload, i);
          return Some(routes[i]);
        }
      }
      FirstMatchIs(routes, payload, |routes|);
      return None;
    }
  }

  /** Registering a route later never takes a payload away from a route registered earlier. */
  lemma {:induction false} LaterRoutesDoNotPreempt(routes: seq<Route>, route: Route, payload: Payload)
    ensures FirstMatch(routes + [route], payload) ==
            if FirstMatch(routes, payload) < |routes| || route.matcher(payload) == Yes then FirstMatch(routes, payload)
            else |routes| + 1
  {
    var k := FirstMatch(routes, payload);
    var all := routes + [route];
    if k < |routes| || route.matcher(payload) == Yes {
      FirstMatchIs(all, payload, k);
    } else {
      FirstMatchIs(all, payload, |routes| + 1);
    }
  }
}
