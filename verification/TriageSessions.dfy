/**
 * Triage of an arrival sequence is an online sessionizer: per key, the incidents of the store are
 * the maximal runs of that key's arrivals without a gap longer than the correlation window.
 */
module TriageSessions {
  import opened Common
  import opened TriageScore
  import opened Triage
  import opened TriageRuns

  // ---- Sessions of one key's arrivals -------------------------------------------------------

  /** The next arrival is seen at most one window after the previous one was stored. */
  predicate Near(prev: Arrival, next: Arrival) {
    next.clock.cutoff - prev.clock.stamp <= WINDOW
  }

  /** ss cuts xs, in order, exactly at the gaps longer than the window. */
  predicate IsSessionization(xs: seq<Arrival>, ss: seq<seq<Arrival>>) {
    && Concat(ss) == xs
    && (forall i :: 0 <= i < |ss| ==> ss[i] != [])
    && (forall i, j :: 0 <= i < |ss| && 0 <= j < |ss[i]| - 1 ==> Near(ss[i][j], ss[i][j + 1]))
    && (forall i :: 0 <= i < |ss| - 1 ==> !Near(Last(ss[i]), ss[i + 1][0]))
  }

  function Sessions(xs: seq<Arrival>): (ss: seq<seq<Arrival>>)
    ensures xs != [] ==> ss != []
  {
    if xs == [] then []
    else
      var before := Sessions(Front(xs));
      if |xs| > 1 && Near(xs[|xs| - 2], Last(xs)) then Front(before) + [Last(before) + [Last(xs)]]
      else before + [[Last(xs)]]
  }

  /** The end of the last session is the end of the whole sequence. */
  lemma {:induction false} LastOfConcat(ss: seq<seq<Arrival>>)
    requires ss != [] && Last(ss) != []
    ensures Concat(ss) != [] && Last(Concat(ss)) == Last(Last(ss))
  {
  }

  lemma {:induction false} JoinLast(xs: seq<Arrival>, ss: seq<seq<Arrival>>, a: Arrival)
    requires IsSessionization(xs, ss) && xs != [] && Near(Last(xs), a)
    ensures ss != [] && IsSessionization(xs + [a], Front(ss) + [Last(ss) + [a]])
  {
    LastOfConcat(ss);
    var last := Last(ss) + [a];
    var ss' := Front(ss) + [last];
    ConcatSnoc(Front(ss), last);
    assert Concat(ss') == xs + [a];
    forall i, j | 0 <= i < |ss'| && 0 <= j < |ss'[i]| - 1
      ensures Near(ss'[i][j], ss'[i][j + 1])
    {
      if i < |ss| - 1 {
        assert ss'[i] == ss[i];
        assert Near(ss[i][j], ss[i][j + 1]);
      } else if j < |Last(ss)| - 1 {
        assert Near(ss[i][j], ss[i][j + 1]);
      }
    }
    forall i | 0 <= i < |ss'| - 1
      ensures !Near(Last(ss'[i]), ss'[i + 1][0])
    {
      assert !Near(Last(ss[i]), ss[i + 1][0]);
    }
  }

  lemma {:induction false} OpenNext(xs: seq<Arrival>, ss: seq<seq<Arrival>>, a: Arrival)
    requires IsSessionization(xs, ss) && (xs != [] ==> !Near(Last(xs), a))
    ensures IsSessionization(xs + [a], ss + [[a]])
  {
    ConcatSnoc(ss, [a]);
    if ss != [] {
      LastOfConcat(ss);
    }
    var ss' := ss + [[a]];
    forall i | 0 <= i < |ss'| - 1
      ensures !Near(Last(ss'[i]), ss'[i + 1][0])
    {
      if i < |ss| - 1 {
        assert !Near(Last(ss[i]), ss[i + 1][0]);
      }
    }
  }

  lemma {:induction false} SessionsSound(xs: seq<Arrival>)
    ensures IsSessionization(xs, Sessions(xs))
  {
    if xs != [] {
      SessionsSound(Front(xs));
      assert Front(xs) + [Last(xs)] == xs;
      if |xs| > 1 && Near(xs[|xs| - 2], Last(xs)) {
        JoinLast(Front(xs), Sessions(Front(xs)), Last(xs));
      } else {
        OpenNext(Front(xs), Sessions(Front(xs)), Last(xs));
      }
    }
  }

  /** Dropping the last arrival from a sessionization drops or shortens its last session. */
  lemma {:induction false} DropLast(xs: seq<Arrival>, ss: seq<seq<Arrival>>) returns (rest: seq<seq<Arrival>>)
    requires IsSessionization(xs, ss) && xs != []
    ensures IsSessionization(Front(xs), rest)
    ensures |xs| > 1 && Near(xs[|xs| - 2], Last(xs)) ==> rest != [] && ss == Front(rest) + [Last(rest) + [Last(xs)]]
    ensures !(|xs| > 1 && Near(xs[|xs| - 2], Last(xs))) ==> ss == rest + [[Last(xs)]]
  {
    if |Last(ss)| == 1 {
      DropSingle(xs, ss);
      rest := Front(ss);
    } else {
      rest := Front(ss) + [Front(Last(ss))];
      Shorten(xs, ss, rest);
    }
  }

  lemma {:induction false} DropSingle(xs: seq<Arrival>, ss: seq<seq<Arrival>>)
    requires IsSessionization(xs, ss) && xs != [] && |Last(ss)| == 1
    ensures IsSessionization(Front(xs), Front(ss)) && ss == Front(ss) + [[Last(xs)]]
    ensures |xs| > 1 ==> !Near(xs[|xs| - 2], Last(xs))
  {
    var rest := Front(ss);
    LastOfConcat(ss);
    assert Concat(rest) == Front(xs);
    if rest != [] {
      LastOfConcat(rest);
      assert !Near(Last(ss[|rest| - 1]), ss[|rest| - 1 + 1][0]);
    }
    assert forall i :: 0 <= i < |rest| ==> rest[i] == ss[i];
    assert Last(ss) == [Last(xs)];
    assert ss == rest + [Last(ss)];
  }

  lemma {:induction false} Shorten(xs: seq<Arrival>, ss: seq<seq<Arrival>>, rest: seq<seq<Arrival>>)
    requires IsSessionization(xs, ss) && xs != [] && |Last(ss)| > 1
    requires rest == Front(ss) + [Front(Last(ss))]
    ensures IsSessionization(Front(xs), rest) && ss == Front(rest) + [Last(rest) + [Last(xs)]]
    ensures |xs| > 1 && Near(xs[|xs| - 2], Last(xs))
  {
    var last := Last(ss);
    LastOfConcat(ss);
    ConcatSnoc(Front(ss), Front(last));
    assert Concat(rest) == Front(xs);
    LastOfConcat(rest);
    assert Near(last[|last| - 2], last[|last| - 2 + 1]);
    assert last == Front(last) + [Last(xs)];
    assert Front(rest) == Front(ss);
    ShortenedRest(ss, rest);
  }

  lemma {:induction false} ShortenedRest(ss: seq<seq<Arrival>>, rest: seq<seq<Arrival>>)
    requires IsSessionization(Concat(ss), ss) && ss != [] && |Last(ss)| > 1
    requires rest == Front(ss) + [Front(Last(ss))]
    ensures IsSessionization(Concat(rest), rest)
  {
    forall i, j | 0 <= i < |rest| && 0 <= j < |rest[i]| - 1
      ensures Near(rest[i][j], rest[i][j + 1])
    {
      assert Near(ss[i][j], ss[i][j + 1]);
    }
    forall i | 0 <= i < |rest| - 1
      ensures !Near(Last(rest[i]), rest[i + 1][0])
    {
      assert !Near(Last(ss[i]), ss[i + 1][0]);
    }
  }

  /** The sessionization of a sequence of arrivals is unique. */
  lemma {:induction false} SessionsUnique(xs: seq<Arrival>, ss: seq<seq<Arrival>>)
    requires IsSessionization(xs, ss)
    ensures ss == Sessions(xs)
    decreases |xs|
  {
    if xs == [] {
      if ss != [] {
        LastOfConcat(ss);
      }
    } else {
      var rest := DropLast(xs, ss);
      SessionsUnique(Front(xs), rest);
    }
  }

  // ---- Arrivals and incidents of one key ----------------------------------------------------

  datatype Key = Key(identity: string, source: SourceType)

  function KeyOf(e: Event): Key {
    Key(e.identity, e.source)
  }

  function ArrivalsOf(arrivals: seq<Arrival>, key: Key): seq<Arrival> {
    if arrivals == [] then []
    else
      var before := ArrivalsOf(Front(arrivals), key);
      if KeyOf(Last(arrivals).event) == key then before + [Last(arrivals)] else before
  }

  predicate Has(inc: Incident, key: Key) {
    inc.events != [] && KeyOf(inc.events[0]) == key
  }

  /** The incidents of one key, in the order they were opened. */
  function IncidentsOf(store: seq<Incident>, key: Key): seq<Incident> {
    if store == [] then []
    else
      var before := IncidentsOf(Front(store), key);
      if Has(Last(store), key) then before + [Last(store)] else before
  }

  function EventsIn(session: seq<Arrival>): (es: seq<Event>)
    ensures |es| == |session|
  {
    seq(|session|, i requires 0 <= i < |session| => session[i].event)
  }

  lemma {:induction false} IncidentsOfAppend(store: seq<Incident>, inc: Incident, key: Key)
    ensures IncidentsOf(store + [inc], key) ==
            if Has(inc, key) then IncidentsOf(store, key) + [inc] else IncidentsOf(store, key)
  {
    assert Front(store + [inc]) == store;
  }

  lemma {:induction false} IncidentsOfUpdate(store: seq<Incident>, k: nat, inc: Incident, key: Key) returns (r: nat)
    requires k < |store| && Has(inc, key) == Has(store[k], key)
    ensures !Has(inc, key) ==> IncidentsOf(store[k := inc], key) == IncidentsOf(store, key)
    ensures Has(inc, key) ==>
              && r < |IncidentsOf(store, key)| && IncidentsOf(store, key)[r] == store[k]
              && IncidentsOf(store[k := inc], key) == IncidentsOf(store, key)[r := inc]
  {
    var store' := store[k := inc];
    if k == |store| - 1 {
      assert Front(store') == Front(store);
      r := |IncidentsOf(Front(store), key)|;
    } else {
      assert Front(store') == Front(store)[k := inc];
      r := IncidentsOfUpdate(Front(store), k, inc, key);
    }
  }

  lemma {:induction false} IncidentsOfIn(store: seq<Incident>, key: Key, i: nat)
    requires i < |IncidentsOf(store, key)|
    ensures IncidentsOf(store, key)[i] in store && Has(IncidentsOf(store, key)[i], key)
  {
    if i < |IncidentsOf(Front(store), key)| {
      IncidentsOfIn(Front(store), key, i);
      assert IncidentsOf(store, key)[i] in Front(store);
    }
  }

  // ---- Folding the triage pass over an arrival sequence -------------------------------------

  /** Clocks never run backwards and uuids never repeat. */
  predicate WellTimed(arrivals: seq<Arrival>) {
    && (forall i :: 0 <= i < |arrivals| ==> Ordered(arrivals[i].clock))
    && (forall i, j :: 0 <= i < j < |arrivals| ==> arrivals[i].clock.stamp <= arrivals[j].clock.cutoff)
    && (forall i, j :: 0 <= i < j < |arrivals| ==> arrivals[i].uuid != arrivals[j].uuid)
  }

  function Run(arrivals: seq<Arrival>): seq<Incident> {
    if arrivals == [] then [] else Pass(Run(Front(arrivals)), Last(arrivals))
  }

  function WorldAfter(arrivals: seq<Arrival>): World {
    World(Run(arrivals),
          if arrivals == [] then 0 else Last(arrivals).clock.stamp,
          EventsIn(arrivals))
  }

  predicate IdsFrom(store: seq<Incident>, arrivals: seq<Arrival>) {
    forall i :: 0 <= i < |store| ==> IsUuidOf(store[i].id, arrivals)
  }

  predicate IsUuidOf(id: string, arrivals: seq<Arrival>) {
    exists j :: 0 <= j < |arrivals| && arrivals[j].uuid == id
  }

  lemma {:induction false} RunIsSound(arrivals: seq<Arrival>)
    requires WellTimed(arrivals)
    ensures Inv(WorldAfter(arrivals)) && IdsFrom(Run(arrivals), arrivals)
  {
    if arrivals != [] {
      var before, a := Front(arrivals), Last(arrivals);
      RunIsSound(before);
      assert arrivals == before + [a];
      AtArrival(before, a);
      StepIsSound(before, a);
    }
  }

  lemma {:induction false} StepIsSound(before: seq<Arrival>, a: Arrival)
    requires WellTimed(before + [a]) && IdsFrom(Run(before), before)
    requires Inv(World(Run(before), a.clock.cutoff, EventsIn(before)))
    ensures FreshId(Run(before), a.uuid)
    ensures Inv(WorldAfter(before + [a])) && IdsFrom(Run(before + [a]), before + [a])
  {
    var all := before + [a];
    assert Front(all) == before && Last(all) == a;
    var w := World(Run(before), a.clock.cutoff, EventsIn(before));
    StillFresh(w.store, before, a);
    assert EventsIn(all) == EventsIn(before) + [a.event];
    assert Ordered(all[|before|].clock);
    assert Arrives(w, a, WorldAfter(all));
    ArrivalKeepsInv(w, a, WorldAfter(all));
    NewIds(w.store, before, a);
  }

  lemma {:induction false} StillFresh(store: seq<Incident>, before: seq<Arrival>, a: Arrival)
    requires WellTimed(before + [a]) && IdsFrom(store, before)
    ensures FreshId(store, a.uuid)
  {
    var all := before + [a];
    forall i | 0 <= i < |store|
      ensures store[i].id != a.uuid
    {
      assert IsUuidOf(store[i].id, before);
      var j :| 0 <= j < |before| && before[j].uuid == store[i].id;
      assert all[j].uuid != all[|before|].uuid;
    }
  }

  lemma {:induction false} NewIds(store: seq<Incident>, before: seq<Arrival>, a: Arrival)
    requires DistinctIds(store) && FreshId(store, a.uuid) && Timed(store) && IdsFrom(store, before)
    ensures IdsFrom(Pass(store, a), before + [a])
  {
    PassShape(store, a);
    var store' := Pass(store, a);
    var all := before + [a];
    assert FirstHit(store, a.event, a.clock.cutoff) <= |store|;
    forall i | 0 <= i < |store'|
      ensures IsUuidOf(store'[i].id, all)
    {
      if i < |store| {
        assert store'[i].id == store[i].id && IsUuidOf(store[i].id, before);
        var j :| 0 <= j < |before| && before[j].uuid == store[i].id;
        assert all[j].uuid == store'[i].id;
      } else {
        assert all[|before|].uuid == store'[i].id;
      }
    }
  }

  /** Time passing between two passes keeps the invariant. */
  lemma {:induction false} AtArrival(before: seq<Arrival>, a: Arrival)
    requires WellTimed(before + [a]) && Inv(WorldAfter(before))
    ensures Inv(World(Run(before), a.clock.cutoff, EventsIn(before)))
  {
    var all := before + [a];
    if before != [] {
      assert all[|before| - 1].clock.stamp <= all[|before|].clock.cutoff;
      LaterIsSound(WorldAfter(before), a.clock.cutoff);
    }
  }

  lemma {:induction false} LaterIsSound(w: World, later: int)
    requires Inv(w) && w.now <= later
    ensures Inv(w.(now := later))
  {
    forall i, j | 0 <= i < j < |w.store| && Live(w.store[i], later) && Live(w.store[j], later)
      ensures !SameKey(w.store[i].events[0], w.store[j].events[0])
    {
      assert Live(w.store[i], w.now) && Live(w.store[j], w.now);
    }
  }

  // ---- The refinement -----------------------------------------------------------------------

  /** An incident stands for a session: same events, stamped when its last event was stored. */
  predicate StandsFor(inc: Incident, session: seq<Arrival>) {
    && session != [] && inc.events == EventsIn(session)
    && !Dead(inc) && inc.updated == Instant(Last(session).clock.stamp)
  }

  /** The incidents stand for the sessions one by one, and all but the last have left the window. */
  predicate Mirrors(incs: seq<Incident>, ss: seq<seq<Arrival>>, lastSeen: int) {
    && |incs| == |ss|
    && (forall i :: 0 <= i < |ss| ==> StandsFor(incs[i], ss[i]))
    && (forall i :: 0 <= i < |ss| - 1 ==> Last(ss[i]).clock.stamp < lastSeen - WINDOW)
  }

  function LastCutoff(mine: seq<Arrival>): int {
    if mine == [] then 0 else Last(mine).clock.cutoff
  }

  predicate KeyInv(store: seq<Incident>, arrivals: seq<Arrival>, key: Key) {
    var mine := ArrivalsOf(arrivals, key);
    Mirrors(IncidentsOf(store, key), Sessions(mine), LastCutoff(mine))
  }

  lemma {:induction false} ArrivalsOfSnoc(before: seq<Arrival>, a: Arrival, key: Key)
    ensures ArrivalsOf(before + [a], key) ==
            if KeyOf(a.event) == key then ArrivalsOf(before, key) + [a] else ArrivalsOf(before, key)
  {
    assert Front(before + [a]) == before;
  }

  lemma {:induction false} ArrivalsOfIn(arrivals: seq<Arrival>, key: Key)
    requires ArrivalsOf(arrivals, key) != []
    ensures Last(ArrivalsOf(arrivals, key)) in arrivals
  {
    if KeyOf(Last(arrivals).event) != key {
      ArrivalsOfIn(Front(arrivals), key);
    }
  }

  /** The last arrival of a key precedes the next arrival. */
  lemma {:induction false} LastPrecedes(before: seq<Arrival>, a: Arrival, key: Key)
    requires WellTimed(before + [a]) && ArrivalsOf(before, key) != []
    ensures var last := Last(ArrivalsOf(before, key));
            last.clock.cutoff <= last.clock.stamp <= a.clock.cutoff
  {
    ArrivalsOfIn(before, key);
    var all := before + [a];
    var p :| 0 <= p < |before| && before[p] == Last(ArrivalsOf(before, key));
    assert Ordered(all[p].clock) && all[p].clock.stamp <= all[|before|].clock.cutoff;
  }

  /** The last session ends with the last arrival. */
  lemma {:induction false} SessionsEnd(mine: seq<Arrival>)
    requires mine != []
    ensures Sessions(mine) != [] && Last(Sessions(mine)) != [] && Last(Last(Sessions(mine))) == Last(mine)
  {
    SessionsSound(mine);
    LastOfConcat(Sessions(mine));
  }

  lemma {:induction false} SessionsSnoc(mine: seq<Arrival>, a: Arrival)
    ensures mine != [] && Near(Last(mine), a) ==>
              Sessions(mine + [a]) == Front(Sessions(mine)) + [Last(Sessions(mine)) + [a]]
    ensures mine == [] || !Near(Last(mine), a) ==> Sessions(mine + [a]) == Sessions(mine) + [[a]]
  {
    assert Front(mine + [a]) == mine;
  }

  /** A live incident among the mirrors of a key's sessions is the last one, and the gap is short. */
  lemma {:induction false} LiveMirrorIsLast(incs: seq<Incident>, mine: seq<Arrival>, r: nat, a: Arrival)
    requires Mirrors(incs, Sessions(mine), LastCutoff(mine)) && r < |incs| && Live(incs[r], a.clock.cutoff)
    requires mine != [] ==> Last(mine).clock.cutoff <= a.clock.cutoff
    ensures mine != [] && r == |Sessions(mine)| - 1 && Near(Last(mine), a)
  {
    SessionsEnd(mine);
    assert StandsFor(incs[r], Sessions(mine)[r]);
  }

  lemma {:induction false} MirrorsJoin(incs: seq<Incident>, mine: seq<Arrival>, a: Arrival, inc: Incident)
    requires Mirrors(incs, Sessions(mine), LastCutoff(mine)) && mine != [] && incs != []
    requires Last(mine).clock.cutoff <= a.clock.cutoff && Near(Last(mine), a)
    requires inc.events == Last(incs).events + [a.event] && inc.updated == Instant(a.clock.stamp) && !Dead(inc)
    ensures Mirrors(incs[|incs| - 1 := inc], Sessions(mine + [a]), a.clock.cutoff)
  {
    var ss := Sessions(mine);
    SessionsSnoc(mine, a);
    var ss' := Sessions(mine + [a]);
    assert StandsFor(Last(incs), Last(ss));
    assert Last(ss') == Last(ss) + [a];
    assert EventsIn(Last(ss) + [a]) == EventsIn(Last(ss)) + [a.event];
    forall i | 0 <= i < |ss'|
      ensures StandsFor(incs[|incs| - 1 := inc][i], ss'[i])
    {
      if i < |ss| - 1 {
        assert StandsFor(incs[i], ss[i]);
      }
    }
    forall i | 0 <= i < |ss'| - 1
      ensures Last(ss'[i]).clock.stamp < a.clock.cutoff - WINDOW
    {
      assert ss'[i] == ss[i];
    }
  }

  lemma {:induction false} MirrorsOpen(incs: seq<Incident>, mine: seq<Arrival>, a: Arrival, inc: Incident)
    requires Mirrors(incs, Sessions(mine), LastCutoff(mine))
    requires mine != [] ==> Last(mine).clock.cutoff <= a.clock.cutoff && !Near(Last(mine), a)
    requires inc.events == [a.event] && inc.updated == Instant(a.clock.stamp) && !Dead(inc)
    ensures Mirrors(incs + [inc], Sessions(mine + [a]), a.clock.cutoff)
  {
    var ss := Sessions(mine);
    SessionsSnoc(mine, a);
    var ss' := Sessions(mine + [a]);
    assert ss' == ss + [[a]];
    assert EventsIn([a]) == [a.event];
    if mine != [] {
      SessionsEnd(mine);
    }
    forall i | 0 <= i < |ss'|
      ensures StandsFor((incs + [inc])[i], ss'[i])
    {
      if i < |ss| {
        assert StandsFor(incs[i], ss[i]);
      }
    }
    forall i | 0 <= i < |ss'| - 1
      ensures Last(ss'[i]).clock.stamp < a.clock.cutoff - WINDOW
    {
      assert ss'[i] == ss[i];
    }
  }

  lemma {:induction false} OtherKey(store: seq<Incident>, before: seq<Arrival>, a: Arrival, key: Key)
    requires Inv(World(store, a.clock.cutoff, EventsIn(before))) && FreshId(store, a.uuid)
    requires KeyOf(a.event) != key && KeyInv(store, before, key)
    ensures KeyInv(Pass(store, a), before + [a], key)
  {
    ArrivalsOfSnoc(before, a, key);
    PassShape(store, a);
    var k := FirstHit(store, a.event, a.clock.cutoff);
    if k < |store| {
      HitIsLive(store[k], a.event, a.clock.cutoff);
      var inc := Scored(Extended(store[k], a.event, a.clock));
      assert inc.events[0] == store[k].events[0];
      var r := IncidentsOfUpdate(store, k, inc, key);
    } else {
      IncidentsOfAppend(store, Scored(Opened(a.event, a.clock, a.uuid)), key);
    }
  }

  lemma {:induction false} LiveMirrorJoins(incs: seq<Incident>, mine: seq<Arrival>, r: nat, a: Arrival, inc: Incident)
    requires Mirrors(incs, Sessions(mine), LastCutoff(mine)) && r < |incs| && Live(incs[r], a.clock.cutoff)
    requires mine != [] ==> Last(mine).clock.cutoff <= a.clock.cutoff
    requires inc.events == incs[r].events + [a.event] && inc.updated == Instant(a.clock.stamp) && !Dead(inc)
    ensures Mirrors(incs[r := inc], Sessions(mine + [a]), a.clock.cutoff)
  {
    LiveMirrorIsLast(incs, mine, r, a);
    MirrorsJoin(incs, mine, a, inc);
  }

  lemma {:induction false} OwnKeyHit(store: seq<Incident>, before: seq<Arrival>, a: Arrival, k: nat, inc: Incident)
    requires KeyInv(store, before, KeyOf(a.event))
    requires var mine := ArrivalsOf(before, KeyOf(a.event)); mine != [] ==> Last(mine).clock.cutoff <= a.clock.cutoff
    requires k < |store| && Live(store[k], a.clock.cutoff) && Has(store[k], KeyOf(a.event))
    requires inc.events == store[k].events + [a.event] && inc.updated == Instant(a.clock.stamp) && !Dead(inc)
    ensures KeyInv(store[k := inc], before + [a], KeyOf(a.event))
  {
    var key := KeyOf(a.event);
    var mine := ArrivalsOf(before, key);
    ArrivalsOfSnoc(before, a, key);
    assert inc.events[0] == store[k].events[0];
    var r := IncidentsOfUpdate(store, k, inc, key);
    LiveMirrorJoins(IncidentsOf(store, key), mine, r, a, inc);
  }

  lemma {:induction false} OwnKeyMiss(store: seq<Incident>, before: seq<Arrival>, a: Arrival, inc: Incident)
    requires WellTimed(before + [a]) && KeyInv(store, before, KeyOf(a.event))
    requires FirstHit(store, a.event, a.clock.cutoff) == |store|
    requires inc.events == [a.event] && inc.updated == Instant(a.clock.stamp) && !Dead(inc)
    ensures KeyInv(store + [inc], before + [a], KeyOf(a.event))
  {
    var key := KeyOf(a.event);
    var mine := ArrivalsOf(before, key);
    ArrivalsOfSnoc(before, a, key);
    IncidentsOfAppend(store, inc, key);
    if mine != [] {
      LastPrecedes(before, a, key);
      NoHitMeansGap(store, mine, a);
    }
    MirrorsOpen(IncidentsOf(store, key), mine, a, inc);
  }

  lemma {:induction false} NoHitMeansGap(store: seq<Incident>, mine: seq<Arrival>, a: Arrival)
    requires Mirrors(IncidentsOf(store, KeyOf(a.event)), Sessions(mine), LastCutoff(mine)) && mine != []
    requires FirstHit(store, a.event, a.clock.cutoff) == |store|
    ensures !Near(Last(mine), a)
  {
    SessionsEnd(mine);
    var incs := IncidentsOf(store, KeyOf(a.event));
    IncidentsOfIn(store, KeyOf(a.event), |incs| - 1);
    assert StandsFor(Last(incs), Last(Sessions(mine)));
    var i :| 0 <= i < |store| && store[i] == Last(incs);
    assert !Hit(store[i], a.event, a.clock.cutoff);
  }

  lemma {:induction false} RunMirrors(arrivals: seq<Arrival>, key: Key)
    requires WellTimed(arrivals)
    ensures KeyInv(Run(arrivals), arrivals, key)
  {
    if arrivals != [] {
      var before, a := Front(arrivals), Last(arrivals);
      RunMirrors(before, key);
      RunIsSound(before);
      assert arrivals == before + [a];
      AtArrival(before, a);
      StillFresh(Run(before), before, a);
      StepMirrors(Run(before), before, a, key);
    }
  }

  lemma {:induction false} StepMirrors(store: seq<Incident>, before: seq<Arrival>, a: Arrival, key: Key)
    requires WellTimed(before + [a]) && KeyInv(store, before, key)
    requires Inv(World(store, a.clock.cutoff, EventsIn(before))) && FreshId(store, a.uuid)
    ensures KeyInv(Pass(store, a), before + [a], key)
  {
    if KeyOf(a.event) != key {
      OtherKey(store, before, a, key);
    } else {
      PassShape(store, a);
      var k := FirstHit(store, a.event, a.clock.cutoff);
      if k < |store| {
        HitIsLive(store[k], a.event, a.clock.cutoff);
        if ArrivalsOf(before, key) != [] {
          LastPrecedes(before, a, key);
        }
        OwnKeyHit(store, before, a, k, Scored(Extended(store[k], a.event, a.clock)));
      } else {
        OwnKeyMiss(store, before, a, Scored(Opened(a.event, a.clock, a.uuid)));
      }
    }
  }

  /**
   * Sessionization: for every key, the incidents of the final store hold, in order, exactly the
   * events of the maximal runs of that key's arrivals.
   */
  lemma {:induction false} StoreIsSessionized(arrivals: seq<Arrival>, key: Key, ss: seq<seq<Arrival>>)
    requires WellTimed(arrivals) && IsSessionization(ArrivalsOf(arrivals, key), ss)
    ensures |IncidentsOf(Run(arrivals), key)| == |ss|
    ensures forall i :: 0 <= i < |ss| ==> IncidentsOf(Run(arrivals), key)[i].events == EventsIn(ss[i])
  {
    SessionsUnique(ArrivalsOf(arrivals, key), ss);
    RunMirrors(arrivals, key);
    forall i | 0 <= i < |ss|
      ensures IncidentsOf(Run(arrivals), key)[i].events == EventsIn(ss[i])
    {
      assert StandsFor(IncidentsOf(Run(arrivals), key)[i], ss[i]);
    }
  }

  /** Two events of one key make one incident exactly if at most 15 minutes, to the microsecond, lie between them. */
  lemma {:induction false} WindowBoundary(a: Arrival, b: Arrival)
    requires WellTimed([a, b]) && KeyOf(a.event) == KeyOf(b.event)
    ensures b.clock.cutoff - a.clock.stamp <= 900_000_000 ==>
              var incs := IncidentsOf(Run([a, b]), KeyOf(a.event));
              |incs| == 1 && incs[0].events == [a.event, b.event]
    ensures b.clock.cutoff - a.clock.stamp > 900_000_000 ==>
              var incs := IncidentsOf(Run([a, b]), KeyOf(a.event));
              |incs| == 2 && incs[0].events == [a.event] && incs[1].events == [b.event]
  {
    if b.clock.cutoff - a.clock.stamp <= 900_000_000 {
      PairJoins(a, b);
    } else {
      PairSplits(a, b);
    }
  }

  lemma {:induction false} PairJoins(a: Arrival, b: Arrival)
    requires WellTimed([a, b]) && KeyOf(a.event) == KeyOf(b.event) && Near(a, b)
    ensures var incs := IncidentsOf(Run([a, b]), KeyOf(a.event));
            |incs| == 1 && incs[0].events == [a.event, b.event]
  {
    var ss := [[a, b]];
    PairOfOneKey(a, b);
    NearPair(a, b);
    StoreIsSessionized([a, b], KeyOf(a.event), ss);
    assert EventsIn(ss[0]) == [a.event, b.event];
  }

  lemma {:induction false} PairSplits(a: Arrival, b: Arrival)
    requires WellTimed([a, b]) && KeyOf(a.event) == KeyOf(b.event) && !Near(a, b)
    ensures var incs := IncidentsOf(Run([a, b]), KeyOf(a.event));
            |incs| == 2 && incs[0].events == [a.event] && incs[1].events == [b.event]
  {
    var ss := [[a], [b]];
    PairOfOneKey(a, b);
    FarPair(a, b);
    StoreIsSessionized([a, b], KeyOf(a.event), ss);
    assert EventsIn(ss[0]) == [a.event] && EventsIn(ss[1]) == [b.event];
  }

  lemma {:induction false} PairOfOneKey(a: Arrival, b: Arrival)
    requires KeyOf(a.event) == KeyOf(b.event)
    ensures ArrivalsOf([a, b], KeyOf(a.event)) == [a, b]
  {
    ArrivalsOfSnoc([], a, KeyOf(a.event));
    ArrivalsOfSnoc([a], b, KeyOf(a.event));
    assert [] + [a] == [a] && [a] + [b] == [a, b];
  }

  lemma {:induction false} OneSession(a: Arrival)
    ensures IsSessionization([a], [[a]])
  {
    OpenNext([], [], a);
    assert [] + [a] == [a] && [] + [[a]] == [[a]];
  }

  lemma {:induction false} NearPair(a: Arrival, b: Arrival)
    requires Near(a, b)
    ensures IsSessionization([a, b], [[a, b]])
  {
    OneSession(a);
    var one := [[a]];
    JoinLast([a], one, b);
    assert Front(one) == [] && Last(one) == [a];
    assert [a] + [b] == [a, b];
    assert [] + [[a, b]] == [[a, b]];
  }

  lemma {:induction false} FarPair(a: Arrival, b: Arrival)
    requires !Near(a, b)
    ensures IsSessionization([a, b], [[a], [b]])
  {
    OneSession(a);
    OpenNext([a], [[a]], b);
    assert [[a]] + [[b]] == [[a], [b]];
    assert [a] + [b] == [a, b];
  }

  // ---- Suppression over a run ---------------------------------------------------------------

  lemma {:induction false} ScoreGrows(es: seq<Event>, es': seq<Event>)
    requires es != [] && es <= es'
    ensures Score(es) <= Score(es')
  {
    if |es| < |es'| {
      ScoreGrows(es, Front(es'));
      AppendLaw(Front(es'), Last(es'));
      assert Front(es') + [Last(es')] == es';
    } else {
      assert es == es';
    }
  }

  /** A homogeneous incident that passes still passes with more events and its new score. */
  lemma {:induction false} PassingGrows(inc: Incident, inc': Incident, rules: Rules)
    requires inc.events != [] && inc.events <= inc'.events && Homogeneous(inc')
    requires inc.score == Score(inc.events) && inc'.score == Score(inc'.events)
    requires Passes(inc, rules)
    ensures Passes(inc', rules)
  {
    var es, es' := inc.events, inc'.events;
    ScoreGrows(es, es');
    assert es[0] == es'[0];
    if InfoOnlyFew(es') {
      FewInfo(es, es');
    }
  }

  lemma {:induction false} FewInfo(es: seq<Event>, es': seq<Event>)
    requires es <= es' && InfoOnlyFew(es')
    ensures InfoOnlyFew(es)
  {
    forall i | 0 <= i < |es|
      ensures es[i].severity == Info
    {
      assert es[i] == es'[i];
    }
  }

  predicate ScoresWritten(store: seq<Incident>) {
    forall i :: 0 <= i < |store| ==> store[i].events != [] && store[i].score == Score(store[i].events)
  }

  /** Every incident keeps its place and id, and its events only get appended to. */
  predicate Extends(store: seq<Incident>, store': seq<Incident>) {
    && |store| <= |store'|
    && forall i :: 0 <= i < |store| ==> store'[i].id == store[i].id && store[i].events <= store'[i].events
  }

  lemma {:induction false} PassExtends(store: seq<Incident>, a: Arrival)
    requires DistinctIds(store) && FreshId(store, a.uuid) && Timed(store) && ScoresWritten(store)
    ensures ScoresWritten(Pass(store, a)) && Extends(store, Pass(store, a))
  {
    PassShape(store, a);
    assert FirstHit(store, a.event, a.clock.cutoff) <= |store|;
  }

  lemma {:induction false} ExtendsTransitive(s: seq<Incident>, t: seq<Incident>, u: seq<Incident>)
    requires Extends(s, t) && Extends(t, u)
    ensures Extends(s, u)
  {
  }

  lemma {:induction false} RunExtends(arrivals: seq<Arrival>, n: nat)
    requires WellTimed(arrivals) && n <= |arrivals|
    ensures ScoresWritten(Run(arrivals)) && Extends(Run(arrivals[..n]), Run(arrivals))
    decreases |arrivals|
  {
    if arrivals != [] {
      var before, a := Front(arrivals), Last(arrivals);
      assert arrivals == before + [a];
      RunExtends(before, if n < |arrivals| then n else n - 1);
      RunIsSound(before);
      StillFresh(Run(before), before, a);
      PassExtends(Run(before), a);
      if n < |arrivals| {
        assert before[..n] == arrivals[..n];
        ExtendsTransitive(Run(arrivals[..n]), Run(before), Run(arrivals));
      } else {
        assert arrivals[..n] == arrivals;
      }
    } else {
      assert arrivals[..n] == arrivals;
    }
  }

  /** An incident that check_suppression lets through is never suppressed later in the run. */
  lemma {:induction false} PassedStaysPassed(arrivals: seq<Arrival>, n: nat, i: nat, rules: Rules)
    requires WellTimed(arrivals) && n <= |arrivals| && i < |Run(arrivals[..n])|
    requires Passes(Run(arrivals[..n])[i], rules)
    ensures i < |Run(arrivals)| && Run(arrivals)[i].id == Run(arrivals[..n])[i].id
    ensures Passes(Run(arrivals)[i], rules)
  {
    RunExtends(arrivals, n);
    RunIsSound(arrivals);
    assert arrivals[..n][..n] == arrivals[..n];
    RunExtends(arrivals[..n], n);
    PassingGrows(Run(arrivals[..n])[i], Run(arrivals)[i], rules);
  }
}
