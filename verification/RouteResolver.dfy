/**
 * The hierarchical webhook resolver: tengen/n8n/route_resolver.py. The YAML parser is a parameter:
 * a load reads a document, and the file's modification time may or may not be readable.
 */
module RouteResolver {
  import opened Common
  import opened DottedPath

  datatype Node = Atom(value: int) | Text(text: string) | List(items: seq<Node>) | Map(fields: map<string, Node>)

  const DEFAULT := "_default"
  const WEBHOOK := "webhook"
  const DESCRIPTION := "description"

  /** What a webhook node offers. */
  datatype Hook = Hook(url: Node, description: Node)

  datatype RouteMatch = RouteMatch(webhook: Node, path: string, description: Node)

  datatype Answer = Found(route: RouteMatch) | NoRoute | NotAMapping | LoadFailed

  // ---- The rule: the first live candidate path --------------------------------------------------

  predicate IsHook(n: Node) {
    n.Map? && WEBHOOK in n.fields
  }

  function HookOf(n: Node): Hook
    requires IsHook(n)
  {
    Hook(n.fields[WEBHOOK], if DESCRIPTION in n.fields then n.fields[DESCRIPTION] else Text(""))
  }

  /** The webhook node that the keys lead to through mappings that are not webhook nodes themselves. */
  function Reached(n: Node, keys: seq<string>): Option<Hook>
    decreases |keys|
  {
    if keys == [] then (if IsHook(n) then Some(HookOf(n)) else None)
    else if n.Map? && !IsHook(n) && keys[0] in n.fields then Reached(n.fields[keys[0]], keys[1..])
    else None
  }

  /** The same from the top-level mapping, which may hold any key. */
  function Live(routes: map<string, Node>, keys: seq<string>): Option<Hook> {
    if keys != [] && keys[0] in routes then Reached(routes[keys[0]], keys[1..]) else None
  }

  /** Most specific first. */
  function Candidates(vendor: string, category: string, event: Option<string>): (paths: seq<seq<string>>)
    ensures forall i :: 0 <= i < |paths| ==> paths[i] != []
  {
    (if event.Some? && event.value != "" then [[vendor, category, event.value]] else [])
    + [[vendor, category, DEFAULT], [vendor, category], [vendor, DEFAULT], [vendor], [DEFAULT]]
  }

  function MatchAt(routes: map<string, Node>, keys: seq<string>): RouteMatch
    requires Live(routes, keys).Some?
  {
    var hook := Live(routes, keys).value;
    RouteMatch(hook.url, Dotted(keys), hook.description)
  }

  function FirstLive(routes: map<string, Node>, paths: seq<seq<string>>, from: nat := 0): Answer
    requires from <= |paths|
    decreases |paths| - from
  {
    if from == |paths| then NoRoute
    else if Live(routes, paths[from]).Some? then Found(MatchAt(routes, paths[from]))
    else FirstLive(routes, paths, from + 1)
  }

  function Resolved(routes: Node, vendor: string, category: string, event: Option<string>): Answer {
    if routes.Map? then FirstLive(routes.fields, Candidates(vendor, category, event)) else NotAMapping
  }

  lemma {:induction false} FirstLiveIs(routes: map<string, Node>, paths: seq<seq<string>>, from: nat) returns (k: nat)
    requires from <= |paths|
    ensures from <= k <= |paths|
    ensures forall i :: from <= i < k ==> Live(routes, paths[i]).None?
    ensures k < |paths| ==> Live(routes, paths[k]).Some?
    ensures FirstLive(routes, paths, from) == if k < |paths| then Found(MatchAt(routes, paths[k])) else NoRoute
    decreases |paths| - from
  {
    if from == |paths| || Live(routes, paths[from]).Some? {
      k := from;
    } else {
      k := FirstLiveIs(routes, paths, from + 1);
    }
  }

  /** Where paths of one, two and three keys lead, and how they are written. */
  lemma {:induction false} ShortPaths(routes: map<string, Node>, a: string, b: string, c: string)
    ensures Live(routes, [a]) == if a in routes then Reached(routes[a], []) else None
    ensures Live(routes, [a, b]) ==
            if a in routes && routes[a].Map? && !IsHook(routes[a]) && b in routes[a].fields
            then Reached(routes[a].fields[b], []) else None
    ensures Live(routes, [a, b, c]) ==
            if a in routes && routes[a].Map? && !IsHook(routes[a]) && b in routes[a].fields
               && routes[a].fields[b].Map? && !IsHook(routes[a].fields[b]) && c in routes[a].fields[b].fields
            then Reached(routes[a].fields[b].fields[c], []) else None
    ensures Dotted([a]) == a && Dotted([a, b]) == a + "." + b && Dotted([a, b, c]) == a + "." + b + "." + c
  {
    assert [a][1..] == [] && [b][1..] == [] && [c][1..] == [];
    assert [a, b][1..] == [b] && [b, c][1..] == [c] && [a, b, c][1..] == [b, c];
    if a in routes && routes[a].Map? && !IsHook(routes[a]) && b in routes[a].fields {
      assert Reached(routes[a], [b, c]) == Reached(routes[a].fields[b], [c]);
    }
    assert Suffix([c]) == "." + c && Suffix([b]) == "." + b;
    assert Suffix([b, c]) == "." + b + ("." + c);
    assert Dotted([a, b, c]) == a + "." + b + "." + c;
  }

  function OrElse(first: Answer, second: Answer): Answer {
    if first.Found? then first else second
  }

  function Tried(routes: map<string, Node>, keys: seq<string>): Answer {
    if Live(routes, keys).Some? then Found(MatchAt(routes, keys)) else NoRoute
  }

  lemma {:induction false} CandidateSteps(routes: map<string, Node>, v: string, c: string, event: Option<string>)
    ensures Resolved(Map(routes), v, c, event) ==
            OrElse(if event.Some? && event.value != "" then Tried(routes, [v, c, event.value]) else NoRoute,
                   OrElse(Tried(routes, [v, c, DEFAULT]),
                          OrElse(Tried(routes, [v, c]),
                                 OrElse(Tried(routes, [v, DEFAULT]),
                                        OrElse(Tried(routes, [v]), Tried(routes, [DEFAULT]))))))
  {
    var paths := Candidates(v, c, event);
    var n := |paths|;
    assert paths[n - 1] == [DEFAULT] && paths[n - 2] == [v] && paths[n - 3] == [v, DEFAULT];
    assert paths[n - 4] == [v, c] && paths[n - 5] == [v, c, DEFAULT];
    assert FirstLive(routes, paths, n - 1) == OrElse(Tried(routes, [DEFAULT]), FirstLive(routes, paths, n));
    assert FirstLive(routes, paths, n - 2) == OrElse(Tried(routes, [v]), FirstLive(routes, paths, n - 1));
    assert FirstLive(routes, paths, n - 3) == OrElse(Tried(routes, [v, DEFAULT]), FirstLive(routes, paths, n - 2));
    assert FirstLive(routes, paths, n - 4) == OrElse(Tried(routes, [v, c]), FirstLive(routes, paths, n - 3));
    assert FirstLive(routes, paths, n - 5) == OrElse(Tried(routes, [v, c, DEFAULT]), FirstLive(routes, paths, n - 4));
    if event.Some? && event.value != "" {
      assert paths[0] == [v, c, event.value];
      assert FirstLive(routes, paths, 0) == OrElse(Tried(routes, [v, c, event.value]), FirstLive(routes, paths, 1));
    }
  }

  predicate Truthy(n: Node) {
    n.Map? && n.fields != map[]
  }

  /** Walks from the most specific entry to the root default, one level of the tree at a time. */
  method Lookup(routes: map<string, Node>, vendor: string, category: string, event: Option<string>)
    returns (answer: Answer)
    ensures answer == Resolved(Map(routes), vendor, category, event)
    ensures IsAnswer(routes, Paths(vendor, category, event), answer)
  {
    RouteIsFirstLive(routes, vendor, category, event);
    CandidateSteps(routes, vendor, category, event);
    ShortPaths(routes, vendor, category, DEFAULT);
    ShortPaths(routes, vendor, DEFAULT, DEFAULT);
    ShortPaths(routes, DEFAULT, DEFAULT, DEFAULT);
    if event.Some? {
      ShortPaths(routes, vendor, category, event.value);
    }
    if vendor in routes && Truthy(routes[vendor]) && WEBHOOK !in routes[vendor].fields {
      var vendorNode := routes[vendor].fields;
      if category in vendorNode && Truthy(vendorNode[category]) && WEBHOOK !in vendorNode[category].fields {
        var catNode := vendorNode[category].fields;
        if event.Some? && event.value != "" {
          if event.value in catNode && Truthy(catNode[event.value]) && WEBHOOK in catNode[event.value].fields {
            return Found(Matched(catNode[event.value], vendor + "." + category + "." + event.value));
          }
        }
        if DEFAULT in catNode && Truthy(catNode[DEFAULT]) && WEBHOOK in catNode[DEFAULT].fields {
          return Found(Matched(catNode[DEFAULT], vendor + "." + category + "." + DEFAULT));
        }
      } else if category in vendorNode && Truthy(vendorNode[category]) && WEBHOOK in vendorNode[category].fields {
        return Found(Matched(vendorNode[category], vendor + "." + category));
      }
      if DEFAULT in vendorNode && Truthy(vendorNode[DEFAULT]) && WEBHOOK in vendorNode[DEFAULT].fields {
        return Found(Matched(vendorNode[DEFAULT], vendor + "." + DEFAULT));
      }
    } else if vendor in routes && Truthy(routes[vendor]) && WEBHOOK in routes[vendor].fields {
      return Found(Matched(routes[vendor], vendor));
    }
    if DEFAULT in routes && Truthy(routes[DEFAULT]) && WEBHOOK in routes[DEFAULT].fields {
      return Found(Matched(routes[DEFAULT], DEFAULT));
    }
    answer := NoRoute;
  }

  function Matched(n: Node, path: string): RouteMatch
    requires IsHook(n)
  {
    RouteMatch(HookOf(n).url, path, HookOf(n).description)
  }

  // ---- The answer, read off the tree --------------------------------------------------------------

  /** Following the keys from a mapping, through mappings without a webhook entry, leads to the node. */
  predicate Leads(fields: map<string, Node>, keys: seq<string>, n: Node)
    decreases |keys|
  {
    && keys != [] && keys[0] in fields
    && var next := fields[keys[0]];
       if |keys| == 1 then next == n
       else next.Map? && "webhook" !in next.fields && Leads(next.fields, keys[1..], n)
  }

  /** The keys lead to a mapping with a webhook entry. */
  predicate Offers(fields: map<string, Node>, keys: seq<string>, n: Node) {
    Leads(fields, keys, n) && n.Map? && "webhook" in n.fields
  }

  /** The route has the node's own webhook and description, and is written as the keys joined by dots. */
  predicate IsRouteTo(route: RouteMatch, keys: seq<string>, n: Node)
    requires keys != [] && n.Map? && "webhook" in n.fields
  {
    && route.webhook == n.fields["webhook"]
    && route.description == (if "description" in n.fields then n.fields["description"] else Text(""))
    && route.path == Dotted(keys)
  }

  /** The paths tried for a request, most specific first. */
  function Paths(vendor: string, category: string, event: Option<string>): seq<seq<string>> {
    var general := [[vendor, category, "_default"], [vendor, category], [vendor, "_default"], [vendor], ["_default"]];
    if event == None || event == Some("") then general else [[vendor, category, event.value]] + general
  }

  /** The answer is the route to the node that the first path with one offers, or that there is none. */
  ghost predicate IsAnswer(fields: map<string, Node>, paths: seq<seq<string>>, answer: Answer) {
    || (answer == NoRoute && forall i, n :: 0 <= i < |paths| ==> !Offers(fields, paths[i], n))
    || (answer.Found? && exists k, n ::
          && 0 <= k < |paths| && Offers(fields, paths[k], n) && paths[k] != [] && IsRouteTo(answer.route, paths[k], n)
          && forall i, m :: 0 <= i < k ==> !Offers(fields, paths[i], m))
  }

  /** A node that a path offers is what the path reaches. */
  lemma {:induction false} OfferedIsLive(fields: map<string, Node>, keys: seq<string>, n: Node)
    requires Offers(fields, keys, n)
    ensures Live(fields, keys) == Some(HookOf(n))
    decreases |keys|
  {
    var next := fields[keys[0]];
    if |keys| > 1 {
      OfferedIsLive(next.fields, keys[1..], n);
    }
  }

  lemma {:induction false} LiveIsOffered(fields: map<string, Node>, keys: seq<string>) returns (n: Node)
    requires Live(fields, keys).Some?
    ensures Offers(fields, keys, n)
    decreases |keys|
  {
    n := fields[keys[0]];
    if |keys| > 1 {
      n := LiveIsOffered(n.fields, keys[1..]);
    }
  }

  /** The answer, for every tree and request, is the one read off the tree. */
  lemma {:induction false} RouteIsFirstLive(
      routes: map<string, Node>, vendor: string, category: string, event: Option<string>)
    ensures IsAnswer(routes, Paths(vendor, category, event), Resolved(Map(routes), vendor, category, event))
  {
    var paths := Paths(vendor, category, event);
    assert paths == Candidates(vendor, category, event);
    var k := FirstLiveIs(routes, paths, 0);
    forall i, n | 0 <= i < k
      ensures !Offers(routes, paths[i], n)
    {
      if Offers(routes, paths[i], n) {
        OfferedIsLive(routes, paths[i], n);
      }
    }
    if k < |paths| {
      var n := LiveIsOffered(routes, paths[k]);
      OfferedIsLive(routes, paths[k], n);
      assert IsRouteTo(MatchAt(routes, paths[k]), paths[k], n);
    }
  }

  // ---- The resolver and its cache -----------------------------------------------------------------

  /** What opening and parsing the file gives; a document without a routes key has an empty mapping. */
  datatype Doc = Unreadable | Parsed(routes: Node)

  datatype Cache = Cache(routes: Node, mtime: real)

  /** Logging the number of routes fails for a value without a length. */
  predicate HasLength(n: Node) {
    !n.Atom?
  }

  predicate LoadRaises(read: Doc, stat: Option<real>) {
    read.Unreadable? || stat.None? || !HasLength(read.routes)
  }

  /** The routes are replaced before the modification time is read. */
  function Loaded(c: Cache, read: Doc, stat: Option<real>): Cache {
    if read.Unreadable? then c
    else if stat.None? then c.(routes := read.routes)
    else Cache(read.routes, stat.value)
  }

  predicate Reloads(c: Cache, stat: Option<real>) {
    stat.Some? && stat.value != c.mtime
  }

  function Refreshed(c: Cache, stat: Option<real>, read: Doc, statAfter: Option<real>): Cache {
    if Reloads(c, stat) then Loaded(c, read, statAfter) else c
  }

  class RouteResolver {
    var routes: Node
    var mtime: real

    ghost function View(): Cache
      reads this
    {
      Cache(routes, mtime)
    }

    /** The initial load follows; when it raises there is no resolver. */
    constructor ()
      ensures View() == Cache(Map(map[]), 0.0)
    {
      routes, mtime := Map(map[]), 0.0;
    }

    method Load(read: Doc, stat: Option<real>) returns (raised: bool)
      modifies this
      ensures View() == Loaded(old(View()), read, stat)
      ensures raised == LoadRaises(read, stat)
      ensures raised <==> read == Unreadable || stat == None || read.routes.Atom?
      ensures routes == (if read == Unreadable then old(routes) else read.routes)
      ensures mtime == (if read == Unreadable || stat == None then old(mtime) else stat.value)
    {
      if read.Unreadable? {
        return true;
      }
      routes := read.routes;
      if stat.None? {
        return true;
      }
      mtime := stat.value;
      raised := !HasLength(routes);
    }

    method ReloadIfChanged(stat: Option<real>, read: Doc, statAfter: Option<real>) returns (raised: bool)
      modifies this
      ensures View() == Refreshed(old(View()), stat, read, statAfter)
      ensures raised == (Reloads(old(View()), stat) && LoadRaises(read, statAfter))
      ensures stat == None || stat == Some(old(mtime)) ==> !raised && routes == old(routes) && mtime == old(mtime)
      ensures stat.Some? && stat.value != old(mtime) && read.Parsed? ==> routes == read.routes
    {
      raised := false;
      if stat.Some? && stat.value != mtime {
        raised := Load(read, statAfter);
      }
    }

    method Resolve(vendor: string, category: string, event: Option<string>,
                   stat: Option<real>, read: Doc, statAfter: Option<real>) returns (answer: Answer)
      modifies this
      ensures View() == Refreshed(old(View()), stat, read, statAfter)
      ensures answer == if Reloads(old(View()), stat) && LoadRaises(read, statAfter) then LoadFailed
                        else Resolved(routes, vendor, category, event)
      ensures answer != LoadFailed && routes.Map? ==>
                IsAnswer(routes.fields, Paths(vendor, category, event), answer)
      ensures answer == NotAMapping <==> !(Reloads(old(View()), stat) && LoadRaises(read, statAfter)) && !routes.Map?
    {
      var failed := ReloadIfChanged(stat, read, statAfter);
      if failed {
        return LoadFailed;
      }
      if !routes.Map? {
        return NotAMapping;
      }
      answer := Lookup(routes.fields, vendor, category, event);
    }
  }

  // ---- What the rule gives --------------------------------------------------------------------

  /** When names hold no dots, following the route path from the root leads to the node that was returned. */
  lemma {:induction false} PathLeadsToWebhook(
      routes: map<string, Node>, vendor: string, category: string, event: Option<string>)
    requires NoDot(vendor) && NoDot(category) && (event.Some? ==> NoDot(event.value))
    ensures var answer := Resolved(Map(routes), vendor, category, event);
            answer.Found? ==>
              exists n :: Offers(routes, Split(answer.route.path), n) && IsRouteTo(answer.route, Split(answer.route.path), n)
  {
    var paths, answer := Paths(vendor, category, event), Resolved(Map(routes), vendor, category, event);
    RouteIsFirstLive(routes, vendor, category, event);
    if answer.Found? {
      var k, n :| 0 <= k < |paths| && Offers(routes, paths[k], n) && paths[k] != [] && IsRouteTo(answer.route, paths[k], n);
      SplitDotted(paths[k]);
    }
  }

  lemma {:induction false} LongerThanAll(keys: set<string>) returns (unused: string)
    ensures forall k :: k in keys ==> |k| < |unused|
    decreases |keys|
  {
    if keys == {} {
      unused := "other";
    } else {
      var k :| k in keys;
      var longer := LongerThanAll(keys - {k});
      unused := longer + k + "other";
    }
  }

  /** Every request is routed, whatever it asks for, exactly when the root default is a webhook. */
  lemma {:induction false} TotalExactly(routes: map<string, Node>)
    ensures (forall v, c, e :: Resolved(Map(routes), v, c, e).Found?) <==> Live(routes, [DEFAULT]).Some?
  {
    if Live(routes, [DEFAULT]).Some? {
      forall v, c, e
        ensures Resolved(Map(routes), v, c, e).Found?
      {
        CandidateSteps(routes, v, c, e);
      }
    } else {
      var v := LongerThanAll(routes.Keys);
      assert v !in routes;
      CandidateSteps(routes, v, "", None);
      assert !Resolved(Map(routes), v, "", None).Found?;
    }
  }

  // ---- Edits --------------------------------------------------------------------------------------

  function FieldsOf(n: Node): map<string, Node> {
    if n.Map? then n.fields else map[]
  }

  /** Puts a node at a path, making mappings on the way, or removes what is there. */
  function Edited(fields: map<string, Node>, path: seq<string>, value: Option<Node>): map<string, Node>
    requires path != []
    decreases |path|
  {
    if |path| == 1 then (if value.Some? then fields[path[0] := value.value] else fields - {path[0]})
    else
      var below := if path[0] in fields then FieldsOf(fields[path[0]]) else map[];
      fields[path[0] := Map(Edited(below, path[1..], value))]
  }

  /**
   * Whether an edit below a node on a candidate path, of which these keys remain, reaches anything
   * that resolving looks at: a webhook entry of a node on the way, the next node on the way, or the
   * webhook and description of the last one.
   */
  predicate TouchesBelow(path: seq<string>, rest: seq<string>)
    requires path != []
    decreases |path|
  {
    || path[0] == WEBHOOK
    || (if rest == [] then path[0] == DESCRIPTION
        else path[0] == rest[0] && (|path| == 1 || TouchesBelow(path[1..], rest[1..])))
  }

  predicate Touches(path: seq<string>, candidate: seq<string>)
    requires path != [] && candidate != []
  {
    path[0] == candidate[0] && (|path| == 1 || TouchesBelow(path[1..], candidate[1..]))
  }

  lemma {:induction false} ReachedUnaffected(n: Node, path: seq<string>, value: Option<Node>, rest: seq<string>)
    requires path != [] && !TouchesBelow(path, rest)
    ensures Reached(Map(Edited(FieldsOf(n), path, value)), rest) == Reached(n, rest)
    decreases |path|
  {
    var fields := FieldsOf(n);
    var n' := Map(Edited(fields, path, value));
    assert forall k :: k != path[0] ==> (k in n'.fields <==> k in fields) && (k in fields ==> n'.fields[k] == fields[k]);
    assert IsHook(n') <==> IsHook(n);
    if rest != [] && rest[0] == path[0] {
      var below := if path[0] in fields then fields[path[0]] else Map(map[]);
      ReachedUnaffected(below, path[1..], value, rest[1..]);
      assert n'.fields[path[0]] == Map(Edited(FieldsOf(below), path[1..], value));
      if path[0] !in fields {
        assert Reached(below, rest[1..]) == None;
      }
    }
  }

  lemma {:induction false} LiveUnaffected(
      routes: map<string, Node>, path: seq<string>, value: Option<Node>, candidate: seq<string>)
    requires path != [] && candidate != [] && !Touches(path, candidate)
    ensures Live(Edited(routes, path, value), candidate) == Live(routes, candidate)
  {
    if path[0] == candidate[0] {
      var below := if path[0] in routes then routes[path[0]] else Map(map[]);
      ReachedUnaffected(below, path[1..], value, candidate[1..]);
      assert Edited(routes, path, value)[path[0]] == Map(Edited(FieldsOf(below), path[1..], value));
    }
  }

  lemma {:induction false} SameLiveSameAnswer(
      routes: map<string, Node>, routes': map<string, Node>, paths: seq<seq<string>>, from: nat)
    requires from <= |paths| && forall i :: 0 <= i < |paths| ==> Live(routes', paths[i]) == Live(routes, paths[i])
    ensures FirstLive(routes', paths, from) == FirstLive(routes, paths, from)
    decreases |paths| - from
  {
    if from < |paths| {
      SameLiveSameAnswer(routes, routes', paths, from + 1);
    }
  }

  /** An edit that touches no candidate path of a request leaves its route as it was. */
  lemma {:induction false} EditsElsewhereKeepRoute(
      routes: map<string, Node>, path: seq<string>, value: Option<Node>,
      vendor: string, category: string, event: Option<string>)
    requires path != []
    requires var paths := Candidates(vendor, category, event);
             forall i :: 0 <= i < |paths| ==> !Touches(path, paths[i])
    ensures Resolved(Map(Edited(routes, path, value)), vendor, category, event) ==
            Resolved(Map(routes), vendor, category, event)
  {
    var paths := Candidates(vendor, category, event);
    forall i | 0 <= i < |paths|
      ensures Live(Edited(routes, path, value), paths[i]) == Live(routes, paths[i])
    {
      LiveUnaffected(routes, path, value, paths[i]);
    }
    SameLiveSameAnswer(routes, Edited(routes, path, value), paths, 0);
  }
}
