/**
 * The batching HEC client and the forwarder that acknowledges around it:
 * tengen/forwarder/splunk_client.py and tengen/forwarder/enriched_forwarder.py.
 * What the server answers to each post is an input.
 */
module Splunk {
  import opened Common
  import opened Json

  const MAX_RETRY_ATTEMPTS := 3
  const RETRY_BASE_DELAY := 1.0

  /** A Python value as it may stand in an event: what JSON has, and datetimes. */
  datatype Value = Plain(scalar: Scalar) | Instant(at: int) | Items(items: seq<Value>) | Record(slots: seq<Slot>)

  datatype Slot = Slot(key: string, value: Value)

  type Event = Value

  /** Whether json.dumps accepts the value: it raises on a datetime, however deep. */
  predicate Encodes(v: Value) {
    match v
    case Plain(_) => true
    case Instant(_) => false
    case Items(items) => forall i :: 0 <= i < |items| ==> Encodes(items[i])
    case Record(slots) => forall i :: 0 <= i < |slots| ==> Encodes(slots[i].value)
  }

  /** A JSON document as the Python value it is parsed into. */
  function Parsed(j: Json): Value {
    match j
    case Leaf(scalar) => Plain(scalar)
    case Arr(items) => Items(seq(|items|, i requires 0 <= i < |items| => Parsed(items[i])))
    case Obj(fields) =>
      Record(seq(|fields|, i requires 0 <= i < |fields| => Slot(fields[i].key, Parsed(fields[i].value))))
  }

  /** The JSON document that json.dumps writes. */
  function Dumped(v: Value): Json
    requires Encodes(v)
  {
    match v
    case Plain(scalar) => Leaf(scalar)
    case Items(items) => Arr(seq(|items|, i requires 0 <= i < |items| => Dumped(items[i])))
    case Record(slots) =>
      Obj(seq(|slots|, i requires 0 <= i < |slots| => Field(slots[i].key, Dumped(slots[i].value))))
  }

  /** What encodes is exactly what parsing JSON can give, and it is written as what it was parsed from. */
  lemma {:induction false} EncodesExactly(v: Value)
    ensures Encodes(v) <==> exists j :: v == Parsed(j)
  {
    if Encodes(v) {
      DumpedParses(v);
    }
    if j :| v == Parsed(j) {
      ParsedEncodes(j);
    }
  }

  lemma {:induction false} DumpedParses(v: Value)
    requires Encodes(v)
    ensures Parsed(Dumped(v)) == v
  {
    match v
    case Plain(_) =>
    case Items(items) =>
      forall i | 0 <= i < |items|
        ensures Parsed(Dumped(items[i])) == items[i]
      {
        DumpedParses(items[i]);
      }
    case Record(slots) =>
      forall i | 0 <= i < |slots|
        ensures Parsed(Dumped(slots[i].value)) == slots[i].value
      {
        DumpedParses(slots[i].value);
      }
  }

  lemma {:induction false} ParsedEncodes(j: Json)
    ensures Encodes(Parsed(j)) && Dumped(Parsed(j)) == j
  {
    match j
    case Leaf(_) =>
    case Arr(items) =>
      forall i | 0 <= i < |items|
        ensures Encodes(Parsed(items[i])) && Dumped(Parsed(items[i])) == items[i]
      {
        ParsedEncodes(items[i]);
      }
    case Obj(fields) =>
      forall i | 0 <= i < |fields|
        ensures Encodes(Parsed(fields[i].value)) && Dumped(Parsed(fields[i].value)) == fields[i].value
      {
        ParsedEncodes(fields[i].value);
      }
  }

  /** What one post comes to: a response, a RequestException, or an exception of another kind. */
  datatype Post = Status(code: int) | RequestFailed | OtherError

  datatype Fate = Delivered | Rejected(code: int) | Exhausted | Broken | Unencodable

  datatype Outcome = Outcome(fate: Fate, posts: nat, slept: real)

  datatype Batch = Batch(events: seq<Event>, outcome: Outcome)

  /** The events waiting to be sent, and every batch flushed so far. */
  datatype State = State(buffer: seq<Event>, batches: seq<Batch>)

  predicate Transient(p: Post) {
    p.RequestFailed? || (p.Status? && (p.code == 429 || p.code >= 500))
  }

  /** What a post that is not retried means for its batch. */
  function Verdict(p: Post): Fate
    requires !Transient(p)
  {
    match p
    case Status(code) => if code == 200 then Delivered else Rejected(code)
    case OtherError => Broken
  }

  // ---- Posting one batch ----------------------------------------------------------------------

  /** Posting from the given attempt on: a transient failure is followed by a sleep and a retry. */
  function Posting(answers: nat -> Post, attempt: nat := 0, delay: real := RETRY_BASE_DELAY): Outcome
    requires attempt <= MAX_RETRY_ATTEMPTS
    decreases MAX_RETRY_ATTEMPTS - attempt
  {
    if attempt == MAX_RETRY_ATTEMPTS then Outcome(Exhausted, 0, 0.0)
    else if Transient(answers(attempt)) then
      var rest := Posting(answers, attempt + 1, delay * 2.0);
      Outcome(rest.fate, rest.posts + 1, delay + rest.slept)
    else Outcome(Verdict(answers(attempt)), 1, 0.0)
  }

  function Doubled(delay: real, times: nat): real
    decreases times
  {
    if times == 0 then delay else Doubled(delay * 2.0, times - 1)
  }

  /** The number of posts of a batch that met a transient failure, each followed by a sleep. */
  function Sleeps(o: Outcome): int {
    if o.fate == Exhausted then o.posts else o.posts - 1
  }

  lemma {:induction false} PostingFrom(answers: nat -> Post, attempt: nat, delay: real)
    requires attempt <= MAX_RETRY_ATTEMPTS
    ensures var o := Posting(answers, attempt, delay);
            && o.posts <= MAX_RETRY_ATTEMPTS - attempt && 0 <= Sleeps(o)
            && (forall i :: attempt <= i < attempt + Sleeps(o) ==> Transient(answers(i)))
            && (o.fate == Exhausted ==> o.posts == MAX_RETRY_ATTEMPTS - attempt)
            && (o.fate != Exhausted ==>
                  o.posts > 0 && !Transient(answers(attempt + o.posts - 1))
                  && o.fate == Verdict(answers(attempt + o.posts - 1)))
            && o.slept == Doubled(delay, Sleeps(o)) - delay
    decreases MAX_RETRY_ATTEMPTS - attempt
  {
    if attempt < MAX_RETRY_ATTEMPTS && Transient(answers(attempt)) {
      PostingFrom(answers, attempt + 1, delay * 2.0);
    }
  }

  /**
   * A batch is posted one to three times; every post but the one that decides it met a transient
   * failure; it is delivered exactly if that one was answered 200; and the sleeps, which include
   * one after the last failed attempt, add up to 2^k - 1 seconds for k failures, at most 7.
   */
  lemma {:induction false} PostingLaw(answers: nat -> Post)
    ensures var o := Posting(answers);
            && 1 <= o.posts <= MAX_RETRY_ATTEMPTS
            && (forall i :: 0 <= i < o.posts - 1 ==> Transient(answers(i)))
            && (o.fate == Exhausted <==> forall i :: 0 <= i < MAX_RETRY_ATTEMPTS ==> Transient(answers(i)))
            && (o.fate != Exhausted ==> !Transient(answers(o.posts - 1)))
            && (o.fate == Delivered <==> answers(o.posts - 1) == Status(200))
            && o.slept == Doubled(RETRY_BASE_DELAY, Sleeps(o)) - RETRY_BASE_DELAY
            && 0.0 <= o.slept <= 7.0
  {
    PostingFrom(answers, 0, RETRY_BASE_DELAY);
    var o := Posting(answers);
    assert Doubled(1.0, 0) == 1.0 && Doubled(1.0, 1) == 2.0 && Doubled(1.0, 2) == 4.0;
    assert Doubled(1.0, 3) == Doubled(2.0, 2) == Doubled(4.0, 1) == 8.0;
    assert Sleeps(o) in {0, 1, 2, 3};
  }

  /** What the answers mean in so many words: 200 delivers; 429, 500 and above, and failed requests are retried. */
  lemma {:induction false} AnswersInWords(answers: nat -> Post)
    ensures answers(0) == Status(200) ==> Posting(answers) == Outcome(Delivered, 1, 0.0)
    ensures forall code :: answers(0) == Status(code) && code != 200 && code != 429 && code < 500 ==>
              Posting(answers) == Outcome(Rejected(code), 1, 0.0)
    ensures answers(0) == OtherError ==> Posting(answers) == Outcome(Broken, 1, 0.0)
    ensures Retried(answers(0)) && answers(1) == Status(200) ==> Posting(answers) == Outcome(Delivered, 2, 1.0)
    ensures Retried(answers(0)) && Retried(answers(1)) && answers(2) == Status(200) ==>
              Posting(answers) == Outcome(Delivered, 3, 3.0)
    ensures Retried(answers(0)) && Retried(answers(1)) && Retried(answers(2)) ==>
              Posting(answers) == Outcome(Exhausted, 3, 7.0)
  {
    assert Posting(answers, 3, 8.0) == Outcome(Exhausted, 0, 0.0);
    assert Retried(answers(2)) ==> Posting(answers, 2, 4.0) == Outcome(Exhausted, 1, 4.0);
    assert answers(2) == Status(200) ==> Posting(answers, 2, 4.0) == Outcome(Delivered, 1, 0.0);
    assert answers(1) == Status(200) ==> Posting(answers, 1, 2.0) == Outcome(Delivered, 1, 0.0);
  }

  predicate Retried(p: Post) {
    p == RequestFailed || p == Status(429) || (p.Status? && 500 <= p.code)
  }

  // ---- Batching -------------------------------------------------------------------------------

  predicate AllEncode(events: seq<Event>) {
    forall i :: 0 <= i < |events| ==> Encodes(events[i])
  }

  /** The buffer is emptied before the payload is encoded and posted. */
  function Flushed(s: State, answers: nat -> Post): State {
    if s.buffer == [] then s
    else State([], s.batches + [Batch(s.buffer, Fated(s.buffer, answers))])
  }

  function Fated(events: seq<Event>, answers: nat -> Post): Outcome {
    if AllEncode(events) then Posting(answers) else Outcome(Unencodable, 0, 0.0)
  }

  /** A batch is delivered exactly if it encodes and one of three tries is answered 200 after only transient failures. */
  lemma {:induction false} DeliveredExactly(events: seq<Event>, answers: nat -> Post)
    ensures Fated(events, answers).fate == Delivered <==>
            && AllEncode(events)
            && exists k :: 0 <= k < MAX_RETRY_ATTEMPTS && answers(k) == Status(200)
                           && forall i :: 0 <= i < k ==> Transient(answers(i))
  {
    PostingLaw(answers);
    var o := Posting(answers);
    if k :| 0 <= k < MAX_RETRY_ATTEMPTS && answers(k) == Status(200) && forall i :: 0 <= i < k ==> Transient(answers(i)) {
      assert !Transient(answers(k));
      assert k == o.posts - 1;
    }
  }

  function Sent(s: State, batchSize: int, event: Event, answers: nat -> Post): State {
    var appended := s.(buffer := s.buffer + [event]);
    if |appended.buffer| >= batchSize then Flushed(appended, answers) else appended
  }

  /** Whether the last batch of a state that just flushed raised. */
  predicate Raised(before: State, after: State) {
    |after.batches| > |before.batches| && Last(after.batches).outcome.fate != Delivered
  }

  class SplunkHECClient {
    const batchSize: int
    const index: string
    var buffer: seq<Event>
    ghost var batches: seq<Batch>

    ghost function View(): State
      reads this
    {
      State(buffer, batches)
    }

    /** A missing or zero batch size is taken from the environment. */
    constructor (given: Option<int>, environment: int, index: string)
      ensures batchSize == if given.Some? && given.value != 0 then given.value else environment
      ensures this.index == index
      ensures View() == State([], [])
    {
      batchSize := if given.Some? && given.value != 0 then given.value else environment;
      this.index := index;
      buffer, batches := [], [];
    }

    method Send(event: Event, answers: nat -> Post) returns (raised: bool)
      modifies this
      ensures View() == Sent(old(View()), batchSize, event, answers)
      ensures raised == Raised(old(View()), View())
    {
      buffer := buffer + [event];
      raised := false;
      if |buffer| >= batchSize {
        raised := Flush(answers);
      }
    }

    method Flush(answers: nat -> Post) returns (raised: bool)
      modifies this
      ensures View() == Flushed(old(View()), answers)
      ensures raised == Raised(old(View()), View())
    {
      if buffer == [] {
        return false;
      }
      var batch := buffer;
      buffer := [];
      var encoded := Encode(batch);
      if !encoded {
        batches := batches + [Batch(batch, Outcome(Unencodable, 0, 0.0))];
        return true;
      }
      var outcome := PostWithRetry(answers);
      batches := batches + [Batch(batch, outcome)];
      raised := outcome.fate != Delivered;
    }

    /** Encodes event by event; the first that json.dumps refuses raises. */
    method Encode(batch: seq<Event>) returns (ok: bool)
      ensures ok == AllEncode(batch)
    {
      for i := 0 to |batch|
        invariant AllEncode(batch[..i])
      {
        if !Encodes(batch[i]) {
          return false;
        }
      }
      ok := true;
    }

    method PostWithRetry(answers: nat -> Post) returns (outcome: Outcome)
      ensures outcome == Posting(answers)
    {
      var delay, slept := RETRY_BASE_DELAY, 0.0;
      for attempt := 0 to MAX_RETRY_ATTEMPTS
        invariant var rest := Posting(answers, attempt, delay);
                  Posting(answers) == Outcome(rest.fate, rest.posts + attempt, slept + rest.slept)
      {
        var p := answers(attempt);
        if !Transient(p) {
          return Outcome(Verdict(p), attempt + 1, slept);
        }
        slept := slept + delay;
        delay := delay * 2.0;
      }
      outcome := Outcome(Exhausted, MAX_RETRY_ATTEMPTS, slept);
    }

    method Close(answers: nat -> Post) returns (raised: bool)
      modifies this
      ensures View() == Flushed(old(View()), answers)
      ensures raised == Raised(old(View()), View())
    {
      raised := Flush(answers);
    }
  }

  // ---- The forwarder --------------------------------------------------------------------------

  /** The consumed alert; its payload and metadata are what the message body held. */
  datatype Alert = Alert(
    id: string, source: string, receivedAt: int, payload: Value, metadata: Value, alertId: string, severity: string,
    eventType: string, timestamp: string, accountId: string, region: string, projectId: string)

  function Text(s: string): Value {
    Plain(Str(s))
  }

  /** `alert.model_dump()`: every field under its name, the time of receipt as the datetime it is. */
  function Dump(a: Alert): Value {
    Record([
      Slot("id", Text(a.id)), Slot("source", Text(a.source)), Slot("received_at", Instant(a.receivedAt)),
      Slot("raw_payload", a.payload), Slot("metadata", a.metadata), Slot("alert_id", Text(a.alertId)),
      Slot("severity", Text(a.severity)), Slot("event_type", Text(a.eventType)), Slot("timestamp", Text(a.timestamp)),
      Slot("account_id", Text(a.accountId)), Slot("region", Text(a.region)), Slot("project_id", Text(a.projectId))
    ])
  }

  /** What the forwarder is handed: a model, by its dump, or anything else, by what parsing its text gives. */
  datatype Message = Model(dump: Value) | Other(parsed: Option<Value>)

  function ValueAt(slots: seq<Slot>, key: string, default: Value): Value {
    if slots == [] then default
    else if Last(slots).key == key then Last(slots).value
    else ValueAt(Front(slots), key, default)
  }

  /** The envelope around the data; it can be made only if the data is a mapping. */
  function Enveloped(data: Value, index: string, now: real): Option<Event> {
    if !data.Record? then None
    else
      Some(Record([
        Slot("time", Plain(Float(now))), Slot("host", Text("tengen")),
        Slot("source", ValueAt(data.slots, "runbook", Text("tengen"))),
        Slot("sourcetype", Text("tengen:enriched_alert")), Slot("index", Text(index)), Slot("event", data)
      ]))
  }

  /** The value under a key, if it occurs once. */
  predicate Holds(slots: seq<Slot>, key: string, value: Value) {
    exists i ::
      && 0 <= i < |slots| && slots[i] == Slot(key, value)
      && forall j :: 0 <= j < |slots| && j != i ==> slots[j].key != key
  }

  /** A look-up with a default finds the value under a key that occurs once, and the default if it does not occur. */
  lemma {:induction false} ValueAtFinds(slots: seq<Slot>, key: string, default: Value)
    ensures forall v :: Holds(slots, key, v) ==> ValueAt(slots, key, default) == v
    ensures (forall i :: 0 <= i < |slots| ==> slots[i].key != key) ==> ValueAt(slots, key, default) == default
  {
    forall v | Holds(slots, key, v)
      ensures ValueAt(slots, key, default) == v
    {
      ValueAtHolds(slots, key, default, v);
    }
    if forall i :: 0 <= i < |slots| ==> slots[i].key != key {
      ValueAtDefault(slots, key, default);
    }
  }

  /** The dump has each field of the alert once, under its own name. */
  lemma {:induction false} DumpHolds(a: Alert)
    ensures Dump(a).Record? && |Dump(a).slots| == 12
    ensures var s := Dump(a).slots;
            && Holds(s, "id", Text(a.id)) && Holds(s, "source", Text(a.source))
            && Holds(s, "received_at", Instant(a.receivedAt)) && Holds(s, "raw_payload", a.payload)
            && Holds(s, "metadata", a.metadata) && Holds(s, "alert_id", Text(a.alertId))
            && Holds(s, "severity", Text(a.severity)) && Holds(s, "event_type", Text(a.eventType))
            && Holds(s, "timestamp", Text(a.timestamp)) && Holds(s, "account_id", Text(a.accountId))
            && Holds(s, "region", Text(a.region)) && Holds(s, "project_id", Text(a.projectId))
  {
    var s := Dump(a).slots;
    DumpKeysDiffer(a);
    forall i | 0 <= i < |s|
      ensures Holds(s, s[i].key, s[i].value)
    {
      assert s[i] == Slot(s[i].key, s[i].value);
    }
    assert Holds(s, s[0].key, s[0].value) && Holds(s, s[1].key, s[1].value) && Holds(s, s[2].key, s[2].value);
    assert Holds(s, s[3].key, s[3].value) && Holds(s, s[4].key, s[4].value) && Holds(s, s[5].key, s[5].value);
    assert Holds(s, s[6].key, s[6].value) && Holds(s, s[7].key, s[7].value) && Holds(s, s[8].key, s[8].value);
    assert Holds(s, s[9].key, s[9].value) && Holds(s, s[10].key, s[10].value) && Holds(s, s[11].key, s[11].value);
  }

  lemma {:induction false} DumpKeysDiffer(a: Alert)
    ensures forall i, j :: 0 <= i < j < 12 ==> Dump(a).slots[i].key != Dump(a).slots[j].key
  {
    DumpKeyLengths(a);
    DumpKeyStarts(a);
  }

  lemma {:induction false} DumpKeyLengths(a: Alert)
    ensures forall i :: 0 <= i < 12 ==> |Dump(a).slots[i].key| == [2, 6, 11, 11, 8, 8, 8, 10, 9, 10, 6, 10][i]
  {
  }

  lemma {:induction false} DumpKeyStarts(a: Alert)
    ensures forall i :: 0 <= i < 12 ==> |Dump(a).slots[i].key| > 1 && Dump(a).slots[i].key[0] == "isrrmasetarp"[i]
    ensures Dump(a).slots[2].key[1] != Dump(a).slots[3].key[1]
  {
  }

  lemma {:induction false} KeysDiffer()
    ensures "time"[0] != "host"[0] && "time"[0] != "source"[0] && |"index"| != |"source"|
    ensures |"time"| == 4 && |"host"| == 4 && |"source"| == 6 && |"sourcetype"| == 10 && |"index"| == 5 && |"event"| == 5
    ensures "index"[0] != "event"[0]
  {
  }

  lemma {:induction false} ValueAtHolds(slots: seq<Slot>, key: string, default: Value, v: Value)
    requires Holds(slots, key, v)
    ensures ValueAt(slots, key, default) == v
  {
    var i :| 0 <= i < |slots| && slots[i] == Slot(key, v) && forall j :: 0 <= j < |slots| && j != i ==> slots[j].key != key;
    if i < |slots| - 1 {
      assert Front(slots)[i] == Slot(key, v);
      ValueAtHolds(Front(slots), key, default, v);
    }
  }

  lemma {:induction false} ValueAtDefault(slots: seq<Slot>, key: string, default: Value)
    requires forall i :: 0 <= i < |slots| ==> slots[i].key != key
    ensures ValueAt(slots, key, default) == default
  {
    if slots != [] {
      ValueAtDefault(Front(slots), key, default);
    }
  }

  function Built(m: Message, index: string, now: real): Option<Event> {
    match m
    case Model(dump) => Enveloped(dump, index, now)
    case Other(None) => None
    case Other(Some(data)) => Enveloped(data, index, now)
  }

  /**
   * The event built from a message carries its data as it is, once, under the fixed host and source type, the
   * client's index and the time; it cannot be built from text that does not parse or from data without fields.
   */
  lemma {:induction false} EnvelopeHolds(m: Message, data: Value, index: string, now: real)
    requires m == Model(data) || m == Other(Some(data))
    ensures Built(m, index, now).Some? <==> data.Record?
    ensures Built(Other(None), index, now).None?
    ensures data.Record? ==>
            var event := Built(m, index, now).value;
            && event.Record? && |event.slots| == 6
            && Holds(event.slots, "event", data) && Holds(event.slots, "index", Text(index))
            && Holds(event.slots, "time", Plain(Float(now))) && Holds(event.slots, "host", Text("tengen"))
            && Holds(event.slots, "sourcetype", Text("tengen:enriched_alert"))
            && Holds(event.slots, "source", ValueAt(data.slots, "runbook", Text("tengen")))
  {
    if data.Record? {
      var s := Built(m, index, now).value.slots;
      assert s[0].key == "time" && s[1].key == "host" && s[2].key == "source";
      assert s[3].key == "sourcetype" && s[4].key == "index" && s[5].key == "event";
      KeysDiffer();
    }
  }

  class EnrichedAlertForwarder {
    const splunk: SplunkHECClient

    constructor (splunk: SplunkHECClient)
      ensures this.splunk == splunk
    {
      this.splunk := splunk;
    }

    /** Nothing the client raises gets out, so the consumer acknowledges every message. */
    method Forward(m: Message, now: real, answers: nat -> Post) returns (acked: bool)
      modifies splunk
      ensures acked
      ensures splunk.View() ==
              var event := Built(m, splunk.index, now);
              if event.Some? then Sent(old(splunk.View()), splunk.batchSize, event.value, answers)
              else old(splunk.View())
    {
      var event := Built(m, splunk.index, now);
      if event.Some? {
        var _ := splunk.Send(event.value, answers);
      }
      acked := true;
    }
  }

  // ---- Runs -----------------------------------------------------------------------------------

  /** A call and how the server would answer the posts it may lead to. */
  datatype Op =
    | Send(event: Event, answers: nat -> Post)
    | Flush(answers: nat -> Post)
    | Forward(message: Message, index: string, now: real, answers: nat -> Post)

  /** The events a call hands to the client. */
  function Given(op: Op): seq<Event> {
    match op
    case Send(event, _) => [event]
    case Flush(_) => []
    case Forward(m, index, now, _) => if Built(m, index, now).Some? then [Built(m, index, now).value] else []
  }

  function Apply(s: State, batchSize: int, op: Op): State {
    match op
    case Send(event, answers) => Sent(s, batchSize, event, answers)
    case Flush(answers) => Flushed(s, answers)
    case Forward(m, index, now, answers) =>
      if Built(m, index, now).Some? then Sent(s, batchSize, Built(m, index, now).value, answers) else s
  }

  function Run(batchSize: int, ops: seq<Op>): State {
    if ops == [] then State([], []) else Apply(Run(batchSize, Front(ops)), batchSize, Last(ops))
  }

  function AllGiven(ops: seq<Op>): seq<Event> {
    if ops == [] then [] else AllGiven(Front(ops)) + Given(Last(ops))
  }

  /** The events of the batches, in the order they were flushed. */
  function Events(batches: seq<Batch>): seq<Event> {
    if batches == [] then [] else Events(Front(batches)) + Last(batches).events
  }

  /** The events of the batches that were answered 200, or of those that were not. */
  function EventsOf(batches: seq<Batch>, delivered: bool): seq<Event> {
    if batches == [] then []
    else EventsOf(Front(batches), delivered)
         + if (Last(batches).outcome.fate == Delivered) == delivered then Last(batches).events else []
  }

  /** A buffer reaches at most this many events before it is flushed. */
  function Capacity(batchSize: int): int {
    if batchSize < 1 then 1 else batchSize
  }

  lemma {:induction false} FlushKeepsOrder(s: State, answers: nat -> Post)
    ensures var s' := Flushed(s, answers); Events(s'.batches) + s'.buffer == Events(s.batches) + s.buffer
  {
    if s.buffer != [] {
      var s' := Flushed(s, answers);
      assert Front(s'.batches) == s.batches;
    }
  }

  lemma {:induction false} SendKeepsOrder(s: State, batchSize: int, event: Event, answers: nat -> Post)
    ensures var s' := Sent(s, batchSize, event, answers);
            Events(s'.batches) + s'.buffer == Events(s.batches) + s.buffer + [event]
  {
    FlushKeepsOrder(s.(buffer := s.buffer + [event]), answers);
    assert Events(s.batches) + (s.buffer + [event]) == Events(s.batches) + s.buffer + [event];
  }

  /** Conservation in order, for every batch size and every answer: nothing is lost track of. */
  lemma {:induction false} Conservation(batchSize: int, ops: seq<Op>)
    ensures var s := Run(batchSize, ops); AllGiven(ops) == Events(s.batches) + s.buffer
  {
    if ops != [] {
      var s := Run(batchSize, Front(ops));
      Conservation(batchSize, Front(ops));
      match Last(ops)
      case Send(event, answers) => SendKeepsOrder(s, batchSize, event, answers);
      case Flush(answers) => FlushKeepsOrder(s, answers);
      case Forward(m, index, now, answers) =>
        if Built(m, index, now).Some? {
          SendKeepsOrder(s, batchSize, Built(m, index, now).value, answers);
        }
    }
  }

  lemma {:induction false} EventsSplit(batches: seq<Batch>)
    ensures multiset(Events(batches)) == multiset(EventsOf(batches, true)) + multiset(EventsOf(batches, false))
  {
    if batches != [] {
      EventsSplit(Front(batches));
    }
  }

  /** Every event handed over is, once each, delivered, in a batch that raised, or still buffered. */
  lemma {:induction false} ThreeParts(batchSize: int, ops: seq<Op>)
    ensures var s := Run(batchSize, ops);
            multiset(AllGiven(ops)) ==
            multiset(EventsOf(s.batches, true)) + multiset(EventsOf(s.batches, false)) + multiset(s.buffer)
  {
    Conservation(batchSize, ops);
    EventsSplit(Run(batchSize, ops).batches);
  }

  /** What is true of every batch ever flushed. */
  predicate WellBatched(b: Batch, batchSize: int) {
    && 1 <= |b.events| <= Capacity(batchSize)
    && b.outcome.posts <= MAX_RETRY_ATTEMPTS
    && 0.0 <= b.outcome.slept <= 7.0
    && (b.outcome.posts == 0 <==> !AllEncode(b.events))
    && (b.outcome.fate == Unencodable <==> !AllEncode(b.events))
    && (b.outcome.fate == Exhausted ==> b.outcome.posts == MAX_RETRY_ATTEMPTS)
  }

  lemma {:induction false} FatedIsWellBatched(events: seq<Event>, batchSize: int, answers: nat -> Post)
    requires 1 <= |events| <= Capacity(batchSize)
    ensures WellBatched(Batch(events, Fated(events, answers)), batchSize)
  {
    PostingLaw(answers);
    PostingFrom(answers, 0, RETRY_BASE_DELAY);
  }

  /** Between calls the buffer is below the batch size, and every batch is within its bounds. */
  lemma {:induction false} BatchesAreBounded(batchSize: int, ops: seq<Op>)
    ensures |Run(batchSize, ops).buffer| < Capacity(batchSize)
    ensures forall i :: 0 <= i < |Run(batchSize, ops).batches| ==> WellBatched(Run(batchSize, ops).batches[i], batchSize)
  {
    if ops != [] {
      var s := Run(batchSize, Front(ops));
      BatchesAreBounded(batchSize, Front(ops));
      var full := s.buffer + Given(Last(ops));
      if full != [] {
        FatedIsWellBatched(full, batchSize, Last(ops).answers);
      }
    }
  }

  /** Without explicit flushes every batch is exactly full, so the calls fix how the events are cut. */
  lemma {:induction false} SendsFillBatches(batchSize: int, ops: seq<Op>)
    requires forall i :: 0 <= i < |ops| ==> !ops[i].Flush?
    ensures forall i :: 0 <= i < |Run(batchSize, ops).batches| ==>
              |Run(batchSize, ops).batches[i].events| == Capacity(batchSize)
  {
    if ops != [] {
      SendsFillBatches(batchSize, Front(ops));
      BatchesAreBounded(batchSize, Front(ops));
    }
  }

  // ---- What is never delivered ----------------------------------------------------------------

  /** One event that does not encode keeps its whole batch from being posted at all. */
  lemma {:induction false} PoisonedBatchIsNeverPosted(batchSize: int, ops: seq<Op>, k: nat, i: nat)
    requires k < |Run(batchSize, ops).batches| && i < |Run(batchSize, ops).batches[k].events|
    requires !Encodes(Run(batchSize, ops).batches[k].events[i])
    ensures Run(batchSize, ops).batches[k].outcome == Outcome(Unencodable, 0, 0.0)
  {
    if ops != [] {
      var s := Run(batchSize, Front(ops));
      if k < |s.batches| {
        PoisonedBatchIsNeverPosted(batchSize, Front(ops), k, i);
      }
    }
  }

  /** What the consumer hands to the forwarder. */
  ghost predicate FromConsumer(m: Message) {
    exists a: Alert :: m == Model(Dump(a))
  }

  /** An alert holds a datetime, so no event made from one encodes. */
  lemma {:induction false} AlertEventNeverEncodes(a: Alert, index: string, now: real)
    ensures Built(Model(Dump(a)), index, now).Some? && !Encodes(Built(Model(Dump(a)), index, now).value)
  {
    var data := Dump(a);
    assert data.slots[2].value == Instant(a.receivedAt);
    assert !Encodes(data.slots[2].value);
    assert !Encodes(data);
    var event := Built(Model(data), index, now).value;
    assert event.slots[5].value == data;
    assert !Encodes(event.slots[5].value);
  }

  ghost predicate ForwardsOrFlushes(op: Op) {
    op.Flush? || (op.Forward? && FromConsumer(op.message))
  }

  /** A forwarder fed by the alert consumer acknowledges every alert and delivers none of them. */
  lemma {:induction false} ForwardedAlertsAreNeverDelivered(batchSize: int, ops: seq<Op>)
    requires forall i :: 0 <= i < |ops| ==> ForwardsOrFlushes(ops[i])
    ensures EventsOf(Run(batchSize, ops).batches, true) == []
    ensures EventsOf(Run(batchSize, ops).batches, false) + Run(batchSize, ops).buffer == AllGiven(ops)
  {
    NoneEncode(batchSize, ops);
    NoneDelivered(Run(batchSize, ops).batches);
    Conservation(batchSize, ops);
  }

  lemma {:induction false} NoneEncode(batchSize: int, ops: seq<Op>)
    requires forall i :: 0 <= i < |ops| ==> ForwardsOrFlushes(ops[i])
    ensures forall i :: 0 <= i < |Run(batchSize, ops).buffer| ==> !Encodes(Run(batchSize, ops).buffer[i])
    ensures forall i :: 0 <= i < |Run(batchSize, ops).batches| ==> Run(batchSize, ops).batches[i].outcome.fate == Unencodable
  {
    if ops != [] {
      var op := Last(ops);
      NoneEncode(batchSize, Front(ops));
      assert ForwardsOrFlushes(op);
      if op.Forward? {
        var a :| op.message == Model(Dump(a));
        AlertEventNeverEncodes(a, op.index, op.now);
      }
      var full := Run(batchSize, Front(ops)).buffer + Given(op);
      assert full != [] ==> !Encodes(full[0]);
    }
  }

  lemma {:induction false} NoneDelivered(batches: seq<Batch>)
    requires forall i :: 0 <= i < |batches| ==> batches[i].outcome.fate == Unencodable
    ensures EventsOf(batches, true) == [] && EventsOf(batches, false) == Events(batches)
  {
    if batches != [] {
      NoneDelivered(Front(batches));
    }
  }
}
