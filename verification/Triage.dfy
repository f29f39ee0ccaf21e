/**
 * Correlation and suppression: tengen/tools/triage_tools.py (correlate_event, check_suppression)
 * and the correlate, score, write back, check order of tengen/agents/triage.py.
 * Time is an integer number of microseconds; each call takes its clock readings as a parameter.
 */
module Triage {
  import opened Common
  import opened TriageScore

  const WINDOW: int := 15 * 60 * 1_000_000

  datatype Status = Open | Triaging | Contained | Closed | Suppressed

  /** What `datetime.fromisoformat` makes of a stored timestamp. */
  datatype Stamp = Instant(at: int) | Naive | Unparsable

  datatype Incident = Incident(
    id: string, events: seq<Event>, findings: seq<string>, status: Status, score: real,
    suppressed: bool, reason: string, created: Stamp, updated: Stamp, labels: map<string, string>)

  /** The successive clock readings of one call: the window cutoff, created_at and updated_at. */
  datatype Clock = Clock(cutoff: int, created: int, stamp: int)

  datatype TriageError = NaiveTimestamp

  predicate Dead(inc: Incident) {
    inc.suppressed || inc.status == Closed || inc.status == Suppressed
  }

  predicate SameKey(e: Event, f: Event) {
    e.identity == f.identity && e.source == f.source
  }

  /** Stops the scan: the incident matches, or comparing its naive timestamp raises. */
  predicate Hit(inc: Incident, event: Event, now: int) {
    && !Dead(inc)
    && inc.events != []
    && (inc.updated.Naive? ||
        (inc.updated.Instant? && inc.updated.at >= now - WINDOW && SameKey(inc.events[0], event)))
  }

  /** The index of the first hit at or after `from`, or |store|. */
  function FirstHit(store: seq<Incident>, event: Event, now: int, from: nat := 0): (k: nat)
    requires from <= |store|
    ensures from <= k <= |store|
    ensures forall j :: from <= j < k ==> !Hit(store[j], event, now)
    ensures k < |store| ==> Hit(store[k], event, now)
    decreases |store| - from
  {
    if from == |store| || Hit(store[from], event, now) then from else FirstHit(store, event, now, from + 1)
  }

  function Opened(event: Event, clock: Clock, uuid: string): Incident {
    Incident(uuid, [event], [], Open, 0.0, false, "", Instant(clock.created), Instant(clock.stamp), map[])
  }

  function Extended(inc: Incident, event: Event, clock: Clock): Incident {
    inc.(events := inc.events + [event], status := Triaging, updated := Instant(clock.stamp))
  }

  function Correlate(store: seq<Incident>, event: Event, clock: Clock, uuid: string): Result<Incident, TriageError> {
    var k := FirstHit(store, event, clock.cutoff);
    if k == |store| then Ok(Opened(event, clock, uuid))
    else if store[k].updated.Naive? then Err(NaiveTimestamp)
    else Ok(Extended(store[k], event, clock))
  }

  /** An incident that stops the scan: live, and either naively stamped or of the event's key and at most 15 minutes old. */
  predicate StopsScan(inc: Incident, event: Event, now: int) {
    && !inc.suppressed && inc.status in {Open, Triaging, Contained}
    && inc.events != []
    && (inc.updated == Naive ||
        (&& inc.updated.Instant? && now - inc.updated.at <= 900_000_000
         && inc.events[0].identity == event.identity && inc.events[0].source == event.source))
  }

  predicate IsFirstStop(store: seq<Incident>, event: Event, now: int, k: int) {
    && 0 <= k < |store| && StopsScan(store[k], event, now)
    && forall j :: 0 <= j < k ==> !StopsScan(store[j], event, now)
  }

  /** inc' is inc with the event appended, in triage and newly stamped; everything else is kept. */
  predicate IsExtension(inc: Incident, event: Event, clock: Clock, inc': Incident) {
    && inc'.id == inc.id && inc'.events == inc.events + [event] && inc'.findings == inc.findings
    && inc'.status == Triaging && inc'.suppressed == inc.suppressed && inc'.reason == inc.reason
    && inc'.created == inc.created && inc'.updated == Instant(clock.stamp) && inc'.labels == inc.labels
  }

  /** inc is a new, open incident with only the event. */
  predicate IsFresh(event: Event, clock: Clock, uuid: string, inc: Incident) {
    && inc.id == uuid && inc.events == [event] && inc.findings == [] && inc.status == Open
    && !inc.suppressed && inc.reason == "" && inc.created == Instant(clock.created)
    && inc.updated == Instant(clock.stamp) && inc.labels == map[]
  }

  method CorrelateEvent(event: Event, store: seq<Incident>, clock: Clock, uuid: string)
    returns (r: Result<Incident, TriageError>)
    ensures r == Correlate(store, event, clock, uuid)
    ensures forall k :: IsFirstStop(store, event, clock.cutoff, k) && store[k].updated.Naive? ==> r == Err(NaiveTimestamp)
    ensures forall k :: IsFirstStop(store, event, clock.cutoff, k) && !store[k].updated.Naive? ==>
              r.Ok? && IsExtension(store[k], event, clock, r.value) && r.value.score == store[k].score
    ensures (forall k :: 0 <= k < |store| ==> !StopsScan(store[k], event, clock.cutoff)) ==>
              r.Ok? && IsFresh(event, clock, uuid, r.value) && r.value.score == 0.0
  {
    HitsStopScans(store, event, clock.cutoff);
    var windowCutoff := clock.cutoff - WINDOW;
    for i := 0 to |store|
      invariant forall j :: 0 <= j < i ==> !Hit(store[j], event, clock.cutoff)
    {
      var incident := store[i];
      if incident.suppressed || incident.status == Closed || incident.status == Suppressed {
        continue;
      }
      if incident.events == [] {
        continue;
      }
      var first := incident.events[0];
      if incident.updated.Unparsable? {
        continue;
      }
      if incident.updated.Naive? {
        FirstHitIs(store, event, clock.cutoff, i);
        return Err(NaiveTimestamp);
      }
      if incident.updated.at < windowCutoff {
        continue;
      }
      if first.identity == event.identity && first.source == event.source {
        FirstHitIs(store, event, clock.cutoff, i);
        return Ok(incident.(events := incident.events + [event], status := Triaging,
                            updated := Instant(clock.stamp)));
      }
    }
    return Ok(Opened(event, clock, uuid));
  }

  lemma {:induction false} HitsStopScans(store: seq<Incident>, event: Event, now: int)
    ensures forall i :: 0 <= i < |store| ==> (Hit(store[i], event, now) <==> StopsScan(store[i], event, now))
  {
  }

  lemma {:induction false} FirstHitIs(store: seq<Incident>, event: Event, now: int, k: nat)
    requires k < |store| && Hit(store[k], event, now)
    requires forall j :: 0 <= j < k ==> !Hit(store[j], event, now)
    ensures FirstHit(store, event, now) == k
  {
  }

  // ---- Suppression --------------------------------------------------------------------------

  datatype Rules = Rules(minScore: Option<real>, knownGood: Option<seq<string>>)

  datatype Verdict = Passed | BelowThreshold(score: real, min: real) | KnownGood(identity: string) | InfoOnly

  function MinScore(rules: Rules): real {
    if rules.minScore.Some? then rules.minScore.value else 1.0
  }

  function KnownIdentities(rules: Rules): seq<string> {
    if rules.knownGood.Some? then rules.knownGood.value else []
  }

  predicate InfoOnlyFew(es: seq<Event>) {
    (forall i :: 0 <= i < |es| ==> es[i].severity == Info) && |es| < 3
  }

  predicate NoneKnown(es: seq<Event>, known: seq<string>) {
    forall i :: 0 <= i < |es| ==> es[i].identity !in known
  }

  /** An incident is let through exactly when none of the three rules fires. */
  predicate Passes(inc: Incident, rules: Rules) {
    && inc.score >= MinScore(rules)
    && NoneKnown(inc.events, KnownIdentities(rules))
    && !InfoOnlyFew(inc.events)
  }

  /** The rules name the identity as known to be good. */
  predicate Lists(rules: Rules, identity: string) {
    rules.knownGood.Some? && identity in rules.knownGood.value
  }

  /** The first event by such an identity. */
  predicate IsFirstKnown(es: seq<Event>, rules: Rules, k: int) {
    0 <= k < |es| && Lists(rules, es[k].identity) && forall j :: 0 <= j < k ==> !Lists(rules, es[j].identity)
  }

  /** The verdict names the first rule that fires, and the first known-good identity met. */
  method CheckSuppression(inc: Incident, rules: Rules) returns (v: Verdict)
    ensures v.Passed? <==> Passes(inc, rules)
    ensures var min := if rules.minScore == None then 1.0 else rules.minScore.value;
            && (inc.score < min ==> v == BelowThreshold(inc.score, min))
            && (forall k :: IsFirstKnown(inc.events, rules, k) && inc.score >= min ==>
                  v == KnownGood(inc.events[k].identity))
            && ((forall k :: 0 <= k < |inc.events| ==> !Lists(rules, inc.events[k].identity)) && inc.score >= min ==>
                  if |inc.events| <= 2 && (forall i :: 0 <= i < |inc.events| ==> inc.events[i].severity == Info)
                  then v == InfoOnly else v == Passed)
  {
    var minScore := MinScore(rules);
    if inc.score < minScore {
      return BelowThreshold(inc.score, minScore);
    }
    var known := KnownIdentities(rules);
    for i := 0 to |inc.events|
      invariant NoneKnown(inc.events[..i], known)
      invariant forall j :: 0 <= j < i ==> !Lists(rules, inc.events[j].identity)
    {
      assert inc.events[..i + 1] == inc.events[..i] + [inc.events[i]];
      if inc.events[i].identity in known {
        return KnownGood(inc.events[i].identity);
      }
    }
    assert inc.events[..|inc.events|] == inc.events;
    var allInfo := true;
    for i := 0 to |inc.events|
      invariant allInfo <==> forall j :: 0 <= j < i ==> inc.events[j].severity == Info
    {
      allInfo := allInfo && inc.events[i].severity == Info;
    }
    return if allInfo && |inc.events| < 3 then InfoOnly else Passed;
  }

  // ---- One pass of the triage agent ---------------------------------------------------------

  datatype Arrival = Arrival(event: Event, clock: Clock, uuid: string)

  function IndexOf(store: seq<Incident>, id: string, from: nat := 0): (k: nat)
    requires from <= |store|
    ensures from <= k <= |store|
    ensures forall j :: from <= j < k ==> store[j].id != id
    ensures k < |store| ==> store[k].id == id
    decreases |store| - from
  {
    if from == |store| || store[from].id == id then from else IndexOf(store, id, from + 1)
  }

  /** The returned incident replaces the store entry with its id, or is appended. */
  function Put(store: seq<Incident>, inc: Incident): seq<Incident> {
    var k := IndexOf(store, inc.id);
    if k < |store| then store[k := inc] else store + [inc]
  }

  function Scored(inc: Incident): Incident {
    inc.(score := Score(inc.events))
  }

  /** Correlate, score and write the score back; a raised error leaves the store as it was. */
  function Pass(store: seq<Incident>, a: Arrival): seq<Incident> {
    match Correlate(store, a.event, a.clock, a.uuid)
    case Ok(inc) => Put(store, Scored(inc))
    case Err(_) => store
  }

  predicate DistinctIds(store: seq<Incident>) {
    forall i, j :: 0 <= i < j < |store| ==> store[i].id != store[j].id
  }

  predicate FreshId(store: seq<Incident>, id: string) {
    forall i :: 0 <= i < |store| ==> store[i].id != id
  }

  predicate Timed(store: seq<Incident>) {
    forall i :: 0 <= i < |store| ==> store[i].updated.Instant?
  }

  /** A pass either extends the first hit in place or appends a new incident. */
  lemma {:induction false} PassShape(store: seq<Incident>, a: Arrival)
    requires DistinctIds(store) && FreshId(store, a.uuid) && Timed(store)
    ensures var k := FirstHit(store, a.event, a.clock.cutoff);
            k < |store| ==> Pass(store, a) == store[k := Scored(Extended(store[k], a.event, a.clock))]
    ensures FirstHit(store, a.event, a.clock.cutoff) == |store| ==>
              Pass(store, a) == store + [Scored(Opened(a.event, a.clock, a.uuid))]
  {
    var k := FirstHit(store, a.event, a.clock.cutoff);
    if k < |store| {
      assert Correlate(store, a.event, a.clock, a.uuid) == Ok(Extended(store[k], a.event, a.clock));
      assert IndexOf(store, store[k].id) == k;
    } else {
      assert Correlate(store, a.event, a.clock, a.uuid) == Ok(Opened(a.event, a.clock, a.uuid));
      assert IndexOf(store, a.uuid) == |store|;
    }
  }

  /**
   * A pass changes at most one incident: the first that stops the scan gets the event and its new
   * score in place, or a new scored incident is appended.
   */
  lemma {:induction false} PassEffect(store: seq<Incident>, a: Arrival)
    requires DistinctIds(store) && FreshId(store, a.uuid) && Timed(store)
    ensures forall k :: IsFirstStop(store, a.event, a.clock.cutoff, k) ==>
              var store' := Pass(store, a);
              && |store'| == |store| && (forall i :: 0 <= i < |store| && i != k ==> store'[i] == store[i])
              && IsExtension(store[k], a.event, a.clock, store'[k]) && store'[k].score == Score(store'[k].events)
    ensures (forall k :: 0 <= k < |store| ==> !StopsScan(store[k], a.event, a.clock.cutoff)) ==>
              var store' := Pass(store, a);
              && |store'| == |store| + 1 && store'[..|store|] == store
              && IsFresh(a.event, a.clock, a.uuid, store'[|store|]) && store'[|store|].score == Score([a.event])
  {
    HitsStopScans(store, a.event, a.clock.cutoff);
    PassShape(store, a);
    forall k | IsFirstStop(store, a.event, a.clock.cutoff, k)
      ensures FirstHit(store, a.event, a.clock.cutoff) == k
    {
      FirstHitIs(store, a.event, a.clock.cutoff, k);
    }
  }
}
