/**
 * Counters with periodic persistence and restart recovery: tengen/dashboard/metrics_store.py.
 * Saves do not overlap and loads succeed; a save either commits all its rows or none.
 * A counter's label is whatever value the event carried: a text, or another value that prints as one.
 */
module Metrics {
  import opened Common

  const BUCKETS: set<string> := {
    "route_counts", "runbook_success", "runbook_error", "alert_ingested", "dlq_counts",
    "containment_executed", "normalization_counts"
  }

  /** A text, or a null, number or truth value, known by how it prints. */
  datatype Label = Text(text: string) | Other(shown: string)

  function Shown(l: Label): string {
    if l.Text? then l.text else l.shown
  }

  type Counters = map<string, map<Label, int>>

  /** The persisted table: key to value. */
  type Rows = map<string, int>

  // ---- The key codec ------------------------------------------------------------------------

  function Encode(bucket: string, name: string): string {
    bucket + ":" + name
  }

  function ColonIn(s: string, from: nat := 0): (k: nat)
    requires from <= |s|
    ensures from <= k <= |s|
    ensures forall i :: from <= i < k ==> s[i] != ':'
    ensures k < |s| ==> s[k] == ':'
    decreases |s| - from
  {
    if from == |s| || s[from] == ':' then from else ColonIn(s, from + 1)
  }

  /** `key.partition(":")`: without a colon the whole key is the bucket and the name is empty. */
  function BucketPart(key: string): string {
    key[..ColonIn(key)]
  }

  function NamePart(key: string): string {
    var k := ColonIn(key);
    if k < |key| then key[k + 1..] else ""
  }

  lemma {:induction false} ColonFree()
    ensures forall b :: b in BUCKETS ==> ':' !in b
  {
  }

  /** The codec round-trips for every name, with colons or empty. */
  lemma {:induction false} CodecRoundTrips(bucket: string, name: string)
    requires ':' !in bucket
    ensures BucketPart(Encode(bucket, name)) == bucket && NamePart(Encode(bucket, name)) == name
  {
    var key := Encode(bucket, name);
    assert key[|bucket|] == ':';
    assert forall i :: 0 <= i < |bucket| ==> key[i] == bucket[i];
    assert ColonIn(key) == |bucket|;
  }

  /** A key is decoded to its bucket and name by encoding them, unless it has no colon at all. */
  lemma {:induction false} DecodeEncodes(key: string)
    ensures ':' in key ==> Encode(BucketPart(key), NamePart(key)) == key
    ensures ':' !in key ==> BucketPart(key) == key && NamePart(key) == ""
  {
    var k := ColonIn(key);
    if k < |key| {
      assert key == key[..k] + [key[k]] + key[k + 1..];
    }
  }

  // ---- Counters -----------------------------------------------------------------------------

  predicate Valid(c: Counters) {
    c.Keys == BUCKETS
  }

  function NoCounts(): (c: Counters)
    ensures Valid(c)
  {
    map b | b in BUCKETS :: map[]
  }

  function ValueOf(c: Counters, bucket: string, name: Label): int {
    if bucket in c && name in c[bucket] then c[bucket][name] else 0
  }

  function Put(c: Counters, bucket: string, name: Label, value: int): (c': Counters)
    requires bucket in c
    ensures c'.Keys == c.Keys
  {
    c[bucket := c[bucket][name := value]]
  }

  function Incremented(c: Counters, bucket: string, name: Label, amount: int): (c': Counters)
    requires bucket in c
    ensures c'.Keys == c.Keys
  {
    Put(c, bucket, name, ValueOf(c, bucket, name) + amount)
  }

  /** One counter has grown by the amount, from zero if it was not there, and every other is as before. */
  ghost predicate GrewBy(c: Counters, c': Counters, bucket: string, name: Label, amount: int) {
    && c'.Keys == c.Keys
    && (forall b, l :: b in c && (b != bucket || l != name) ==>
          (l in c'[b] <==> l in c[b]) && (l in c[b] ==> c'[b][l] == c[b][l]))
    && (bucket in c ==>
          name in c'[bucket] && c'[bucket][name] == (if name in c[bucket] then c[bucket][name] + amount else amount))
  }

  lemma {:induction false} IncrementedGrew(c: Counters, bucket: string, name: Label, amount: int)
    requires bucket in c
    ensures GrewBy(c, Incremented(c, bucket, name, amount), bucket, name, amount)
  {
  }

  /** What an event holds where its label is looked up: nothing, a value, or a list or object. */
  datatype Tag = Missing | Value(name: Label) | Unhashable

  /** The counter bucket of a metric event; other events are ignored. */
  function BucketFor(event: string): (b: Option<string>)
    ensures b.Some? ==> b.value in BUCKETS
  {
    if event == "alert_ingested" then Some("alert_ingested")
    else if event == "route_matched" then Some("route_counts")
    else if event == "dlq_enqueued" then Some("dlq_counts")
    else if event == "runbook_success" then Some("runbook_success")
    else if event == "runbook_error" then Some("runbook_error")
    else if event == "containment_executed" then Some("containment_executed")
    else if event == "event_normalized" then Some("normalization_counts")
    else None
  }

  /** The events that are counted, and the bucket of each. */
  const EVENT_BUCKETS: set<(string, string)> := {
    ("alert_ingested", "alert_ingested"), ("route_matched", "route_counts"), ("dlq_enqueued", "dlq_counts"),
    ("runbook_success", "runbook_success"), ("runbook_error", "runbook_error"),
    ("containment_executed", "containment_executed"), ("event_normalized", "normalization_counts")
  }

  lemma {:induction false} EventsHaveBuckets(event: string)
    ensures forall bucket :: (event, bucket) in EVENT_BUCKETS <==> BucketFor(event) == Some(bucket)
  {
  }

  // ---- Saving and loading -------------------------------------------------------------------

  function KeyOf(bucket: string, name: Label): string {
    Encode(bucket, Shown(name))
  }

  /** The row is that of some counter. */
  ghost predicate IsRowOf(c: Counters, key: string, value: int) {
    exists b, l :: b in c && l in c[b] && KeyOf(b, l) == key && c[b][l] == value
  }

  /** A row for every counter; of two labels that print alike either may have come last. */
  ghost predicate IsSnapshot(rows: Rows, c: Counters) {
    && (forall b, l :: b in c && l in c[b] ==> KeyOf(b, l) in rows)
    && (forall key :: key in rows ==> IsRowOf(c, key, rows[key]))
  }

  /** Every row of the snapshot is inserted or replaces the row of its key. */
  function Saved(db: Rows, rows: Rows): Rows {
    db + rows
  }

  /** A row of an unknown bucket is skipped. */
  function LoadRow(c: Counters, key: string, value: int): (c': Counters)
    ensures c'.Keys == c.Keys
  {
    if BucketPart(key) in c then Put(c, BucketPart(key), Text(NamePart(key)), value) else c
  }

  function LoadRows(rows: seq<(string, int)>): (c: Counters)
    ensures Valid(c)
  {
    if rows == [] then NoCounts() else LoadRow(LoadRows(Front(rows)), Last(rows).0, Last(rows).1)
  }

  /** The rows of the table in some order. */
  ghost predicate Lists(rows: seq<(string, int)>, db: Rows) {
    && (forall i, j :: 0 <= i < j < |rows| ==> rows[i].0 != rows[j].0)
    && (forall i :: 0 <= i < |rows| ==> rows[i].0 in db && rows[i].1 == db[rows[i].0])
    && (forall key :: key in db ==> (key, db[key]) in rows)
  }

  class Database {
    var rows: Rows
  }

  class MetricsStore {
    var counters: Counters
    const db: Database

    /** A new process starts from what the table holds, in whatever order it is read. */
    constructor (db: Database, listed: seq<(string, int)>)
      requires Lists(listed, db.rows)
      ensures this.db == db && counters == LoadRows(listed)
    {
      this.db := db;
      counters := NoCounts();
      new;
      for i := 0 to |listed|
        invariant counters == LoadRows(listed[..i])
      {
        assert Front(listed[..i + 1]) == listed[..i];
        var bucket, name := BucketPart(listed[i].0), NamePart(listed[i].0);
        if bucket in counters {
          counters := counters[bucket := counters[bucket][Text(name) := listed[i].1]];
        }
      }
      assert listed[..|listed|] == listed;
    }

    method Increment(bucket: string, name: Label, amount: int)
      requires Valid(counters) && bucket in BUCKETS
      modifies this
      ensures counters == Incremented(old(counters), bucket, name, amount)
      ensures GrewBy(old(counters), counters, bucket, name, amount)
    {
      IncrementedGrew(counters, bucket, name, amount);
      var now := if name in counters[bucket] then counters[bucket][name] else 0;
      counters := counters[bucket := counters[bucket][name := now + amount]];
    }

    /**
     * Counts one in the event's bucket under its label, or under "unknown" without one. A list or an
     * object cannot be a label and raises; an event without a bucket is ignored before that.
     */
    method RecordEvent(event: string, tag: Tag) returns (raised: bool)
      requires Valid(counters)
      modifies this
      ensures raised == (BucketFor(event).Some? && tag.Unhashable?)
      ensures counters ==
              if BucketFor(event).None? || tag.Unhashable? then old(counters)
              else Incremented(old(counters), BucketFor(event).value, if tag.Value? then tag.name else Text("unknown"), 1)
      ensures forall bucket :: (event, bucket) in EVENT_BUCKETS && !tag.Unhashable? ==>
                GrewBy(old(counters), counters, bucket, if tag.Value? then tag.name else Text("unknown"), 1)
      ensures (forall bucket :: (event, bucket) !in EVENT_BUCKETS) || tag.Unhashable? ==> counters == old(counters)
    {
      EventsHaveBuckets(event);
      var bucket := BucketFor(event);
      raised := false;
      if bucket.Some? {
        if tag.Unhashable? {
          return true;
        }
        Increment(bucket.value, if tag.Value? then tag.name else Text("unknown"), 1);
      }
    }

    /** A failed save is logged and leaves the table as it was. */
    method SaveToDb(ok: bool) returns (rows: Rows)
      requires Valid(counters)
      modifies db
      ensures IsSnapshot(rows, counters)
      ensures db.rows == if ok then Saved(old(db.rows), rows) else old(db.rows)
    {
      rows := SnapshotRows();
      if ok {
        db.rows := db.rows + rows;
      }
    }

    method SnapshotRows() returns (rows: Rows)
      requires Valid(counters)
      ensures IsSnapshot(rows, counters)
    {
      rows := map[];
      var buckets := counters.Keys;
      while buckets != {}
        invariant buckets <= counters.Keys
        invariant forall b, l :: b in counters && b !in buckets && l in counters[b] ==> KeyOf(b, l) in rows
        invariant forall key :: key in rows ==> IsRowOf(counters, key, rows[key])
      {
        var b :| b in buckets;
        var labels := counters[b].Keys;
        while labels != {}
          invariant labels <= counters[b].Keys
          invariant forall a, l :: a in counters && a !in buckets && l in counters[a] ==> KeyOf(a, l) in rows
          invariant forall l :: l in counters[b] && l !in labels ==> KeyOf(b, l) in rows
          invariant forall key :: key in rows ==> IsRowOf(counters, key, rows[key])
        {
          var l :| l in labels;
          assert IsRowOf(counters, KeyOf(b, l), counters[b][l]);
          rows := rows[KeyOf(b, l) := counters[b][l]];
          labels := labels - {l};
        }
        buckets := buckets - {b};
      }
    }
  }

  /** Only one key decodes to a given bucket and name. */
  lemma {:induction false} OnlyKey(b: string, n: string)
    requires b in BUCKETS
    ensures ':' in Encode(b, n) && BucketPart(Encode(b, n)) == b && NamePart(Encode(b, n)) == n
    ensures forall key :: ':' in key && BucketPart(key) == b && NamePart(key) == n ==> key == Encode(b, n)
  {
    ColonFree();
    CodecRoundTrips(b, n);
    assert Encode(b, n)[|b|] == ':';
    forall key | ':' in key && BucketPart(key) == b && NamePart(key) == n
      ensures key == Encode(b, n)
    {
      DecodeEncodes(key);
    }
  }
}
