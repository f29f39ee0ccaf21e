/** Every run of triage over one incident store, with an environment that edits stored incidents. */
module TriageRuns {
  import opened Common
  import opened TriageScore
  import opened Triage

  datatype World = World(store: seq<Incident>, now: int, seen: seq<Event>)

  predicate Ordered(c: Clock) {
    c.cutoff <= c.created <= c.stamp
  }

  /** One pass of the triage agent, no earlier than anything before it, with a fresh uuid. */
  predicate Arrives(w: World, a: Arrival, w': World) {
    && Ordered(a.clock) && w.now <= a.clock.cutoff && FreshId(w.store, a.uuid)
    && w' == World(Pass(w.store, a), a.clock.stamp, w.seen + [a.event])
  }

  /** An edit keeps id, events and timestamps, and never revives a suppressed or closed incident. */
  predicate Edited(inc: Incident, inc': Incident) {
    && inc'.id == inc.id && inc'.events == inc.events
    && inc'.created == inc.created && inc'.updated == inc.updated
    && (Dead(inc) ==> Dead(inc'))
  }

  predicate Edits(w: World, w': World) {
    && |w'.store| == |w.store| && w'.now == w.now && w'.seen == w.seen
    && forall i :: 0 <= i < |w.store| ==> Edited(w.store[i], w'.store[i])
  }

  ghost predicate Next(w: World, w': World) {
    Edits(w, w') || exists a :: Arrives(w, a, w')
  }

  ghost predicate IsRun(ws: seq<World>) {
    && ws != [] && ws[0].store == [] && ws[0].seen == []
    && forall i :: 0 <= i < |ws| - 1 ==> Next(ws[i], ws[i + 1])
  }

  // ---- The invariant ------------------------------------------------------------------------

  predicate Live(inc: Incident, now: int) {
    !Dead(inc) && inc.updated.Instant? && inc.updated.at >= now - WINDOW
  }

  predicate Homogeneous(inc: Incident) {
    inc.events != [] && forall i :: 0 <= i < |inc.events| ==> SameKey(inc.events[0], inc.events[i])
  }

  predicate Sound(inc: Incident, now: int) {
    Homogeneous(inc) && inc.updated.Instant? && inc.updated.at <= now
  }

  predicate AtMostOneLive(store: seq<Incident>, now: int)
    requires forall i :: 0 <= i < |store| ==> store[i].events != []
  {
    forall i, j :: 0 <= i < j < |store| && Live(store[i], now) && Live(store[j], now) ==>
      !SameKey(store[i].events[0], store[j].events[0])
  }

  /** All events held by the store, each incident counted once. */
  function EventsOf(store: seq<Incident>): multiset<Event> {
    if store == [] then multiset{} else EventsOf(Front(store)) + multiset(Last(store).events)
  }

  predicate Inv(w: World) {
    && DistinctIds(w.store)
    && (forall i :: 0 <= i < |w.store| ==> Sound(w.store[i], w.now))
    && AtMostOneLive(w.store, w.now)
    && EventsOf(w.store) == multiset(w.seen)
  }

  lemma {:induction false} EventsOfUpdate(store: seq<Incident>, k: nat, inc: Incident, e: Event)
    requires k < |store| && inc.events == store[k].events + [e]
    ensures EventsOf(store[k := inc]) == EventsOf(store) + multiset{e}
  {
    var store' := store[k := inc];
    if k == |store| - 1 {
      assert Front(store') == Front(store);
    } else {
      assert Front(store') == Front(store)[k := inc];
      EventsOfUpdate(Front(store), k, inc, e);
    }
  }

  lemma {:induction false} EventsOfEdits(store: seq<Incident>, store': seq<Incident>)
    requires |store| == |store'|
    requires forall i :: 0 <= i < |store| ==> store'[i].events == store[i].events
    ensures EventsOf(store) == EventsOf(store')
  {
    if store != [] {
      EventsOfEdits(Front(store), Front(store'));
    }
  }

  lemma {:induction false} EventsOfAppend(store: seq<Incident>, inc: Incident)
    ensures EventsOf(store + [inc]) == EventsOf(store) + multiset(inc.events)
  {
    assert Front(store + [inc]) == store;
  }

  /** In a sound store a hit is exactly a live incident with the event's key. */
  lemma {:induction false} HitIsLive(inc: Incident, event: Event, now: int)
    requires inc.events != [] && inc.updated.Instant?
    ensures Hit(inc, event, now) <==> Live(inc, now) && SameKey(inc.events[0], event)
  {
  }

  lemma {:induction false} ArrivalKeepsInv(w: World, a: Arrival, w': World)
    requires Inv(w) && Arrives(w, a, w')
    ensures Inv(w')
    ensures Correlate(w.store, a.event, a.clock, a.uuid).Ok?
  {
    PassShape(w.store, a);
    var k := FirstHit(w.store, a.event, a.clock.cutoff);
    if k < |w.store| {
      HitIsLive(w.store[k], a.event, a.clock.cutoff);
      ExtendKeepsInv(w, w', a, k, Scored(Extended(w.store[k], a.event, a.clock)));
    } else {
      OpenKeepsInv(w, w', a, Scored(Opened(a.event, a.clock, a.uuid)));
    }
  }

  lemma {:induction false} ExtendKeepsInv(w: World, w': World, a: Arrival, k: nat, inc: Incident)
    requires Inv(w) && Ordered(a.clock) && w.now <= a.clock.cutoff
    requires k < |w.store| && Live(w.store[k], a.clock.cutoff) && SameKey(w.store[k].events[0], a.event)
    requires inc.id == w.store[k].id && inc.events == w.store[k].events + [a.event]
    requires inc.updated == Instant(a.clock.stamp)
    requires w' == World(w.store[k := inc], a.clock.stamp, w.seen + [a.event])
    ensures Inv(w')
  {
    EventsOfUpdate(w.store, k, inc, a.event);
    forall i, j | 0 <= i < j < |w'.store| && Live(w'.store[i], w'.now) && Live(w'.store[j], w'.now)
      ensures !SameKey(w'.store[i].events[0], w'.store[j].events[0])
    {
      assert Live(w.store[i], w.now) && Live(w.store[j], w.now);
    }
  }

  lemma {:induction false} OpenKeepsInv(w: World, w': World, a: Arrival, inc: Incident)
    requires Inv(w) && Ordered(a.clock) && w.now <= a.clock.cutoff && FreshId(w.store, a.uuid)
    requires FirstHit(w.store, a.event, a.clock.cutoff) == |w.store|
    requires inc.id == a.uuid && inc.events == [a.event] && inc.updated == Instant(a.clock.stamp)
    requires w' == World(w.store + [inc], a.clock.stamp, w.seen + [a.event])
    ensures Inv(w')
  {
    EventsOfAppend(w.store, inc);
    forall i, j | 0 <= i < j < |w'.store| && Live(w'.store[i], w'.now) && Live(w'.store[j], w'.now)
      ensures !SameKey(w'.store[i].events[0], w'.store[j].events[0])
    {
      assert Live(w.store[i], w.now);
      if j < |w.store| {
        assert Live(w.store[j], w.now);
      } else {
        HitIsLive(w.store[i], a.event, a.clock.cutoff);
        assert !Hit(w.store[i], a.event, a.clock.cutoff);
      }
    }
  }

  lemma {:induction false} EditKeepsInv(w: World, w': World)
    requires Inv(w) && Edits(w, w')
    ensures Inv(w')
  {
    EventsOfEdits(w.store, w'.store);
    forall i | 0 <= i < |w'.store|
      ensures Sound(w'.store[i], w'.now)
    {
      assert Edited(w.store[i], w'.store[i]);
    }
    forall i, j | 0 <= i < j < |w'.store| && Live(w'.store[i], w'.now) && Live(w'.store[j], w'.now)
      ensures !SameKey(w'.store[i].events[0], w'.store[j].events[0])
    {
      assert Edited(w.store[i], w'.store[i]) && Edited(w.store[j], w'.store[j]);
      assert Live(w.store[i], w.now) && Live(w.store[j], w.now);
    }
    forall i, j | 0 <= i < j < |w'.store|
      ensures w'.store[i].id != w'.store[j].id
    {
      assert Edited(w.store[i], w'.store[i]) && Edited(w.store[j], w'.store[j]);
    }
  }

  /**
   * In every reachable state ids are distinct, every incident is homogeneous in key, at most one
   * incident per key is live, and the incidents hold every arrived event exactly once.
   */
  lemma {:induction false} ReachableInv(ws: seq<World>, n: nat)
    requires IsRun(ws) && n < |ws|
    ensures Inv(ws[n])
  {
    if n > 0 {
      ReachableInv(ws, n - 1);
      var w, w' := ws[n - 1], ws[n];
      assert Next(w, ws[n - 1 + 1]);
      if Edits(w, w') {
        EditKeepsInv(w, w');
      } else {
        var a :| Arrives(w, a, w');
        ArrivalKeepsInv(w, a, w');
      }
    }
  }

  /** Reopening a closed incident is what the environment must not do: two live ones result. */
  lemma {:induction false} ReopeningBreaksUniqueness(e: Event, t: int)
    ensures var closed := Opened(e, Clock(t, t, t), "a").(status := Closed);
            var w := World([closed], t, [e]);
            var w' := World(Pass(w.store, Arrival(e, Clock(t, t, t), "b")), t, [e, e]);
            var reopened := w'.store[0 := Opened(e, Clock(t, t, t), "a")];
            Inv(w) && Inv(w') && !AtMostOneLive(reopened, t)
  {
    var c := Clock(t, t, t);
    var closed := Opened(e, c, "a").(status := Closed);
    var w := World([closed], t, [e]);
    var a := Arrival(e, c, "b");
    EventsOfAppend([], closed);
    assert [] + [closed] == [closed];
    ArrivalKeepsInv(w, a, World(Pass(w.store, a), t, w.seen + [e]));
    assert w.seen + [e] == [e, e];
    PassShape(w.store, a);
    assert FirstHit(w.store, e, t) == 1;
    var reopened := Pass(w.store, a)[0 := Opened(e, c, "a")];
    assert reopened[1] == Scored(Opened(e, c, "b"));
    assert Live(reopened[0], t) && Live(reopened[1], t);
  }
}
