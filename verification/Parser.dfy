/**
 * Discovery and recording of unmapped fields: tengen/udm/parser.py.
 * The consumed paths, the suggestion heuristic, JSON text, the clock and the ids that the database
 * allocates are parameters.
 */
module Parser {
  import opened Common
  import opened Json
  import Flatten
  import FR = FieldRegistry

  datatype Observation = Observation(source: string, path: string, value: Scalar, suggested: string)

  datatype ParseResult = ParseResult(additional: Option<Dict>, unmapped: seq<Observation>)

  type Suggest = (string, Scalar) -> string

  /** The entries of a flattened payload that the normalizer does not consume. */
  function Unmapped(d: Dict, source: string, consumed: set<string>, suggest: Suggest): seq<Observation> {
    if d == [] then []
    else
      var before, x := Unmapped(d[..|d| - 1], source, consumed, suggest), d[|d| - 1];
      if x.path in consumed then before
      else before + [Observation(source, x.path, x.value, suggest(x.path, x.value))]
  }

  /** The registry calls that record the observations. */
  function Calls(obs: seq<Observation>, dump: Scalar -> string, clock: nat -> int, ids: nat -> nat): (calls: seq<FR.Call>)
    ensures |calls| == |obs|
  {
    seq(|obs|, i requires 0 <= i < |obs| =>
      FR.Observe(ids(i), FR.Key(obs[i].source, obs[i].path), Leaf(obs[i].value), dump(obs[i].value),
                 obs[i].suggested, clock(i)))
  }

  function Record(rows: FR.Table, calls: seq<FR.Call>): FR.Table {
    if calls == [] then rows else FR.Apply(Record(rows, calls[..|calls| - 1]), calls[|calls| - 1])
  }

  function Entries(obs: seq<Observation>): (es: seq<Entry>)
    ensures |es| == |obs|
  {
    seq(|obs|, i requires 0 <= i < |obs| => Entry(obs[i].path, obs[i].value))
  }

  class UDMParser {
    const registry: FR.FieldRegistry?

    constructor (registry: FR.FieldRegistry?)
      ensures this.registry == registry
    {
      this.registry := registry;
    }

    method DiscoverUnmapped(raw: Json, source: string, consumed: set<string>, suggest: Suggest)
      returns (obs: seq<Observation>)
      ensures obs == Unmapped(Collect(Flatten.Leaves(raw, "")), source, consumed, suggest)
    {
      obs := [];
      var d := Flatten.FlattenData(raw, "");
      for i := 0 to |d|
        invariant obs == Unmapped(d[..i], source, consumed, suggest)
      {
        assert d[..i + 1][..i] == d[..i];
        if d[i].path in consumed {
          continue;
        }
        obs := obs + [Observation(source, d[i].path, d[i].value, suggest(d[i].path, d[i].value))];
      }
      assert d[..|d|] == d;
    }

    /** Nothing unmapped leaves the event and the registry untouched. */
    method Parse(raw: Json, source: string, consumed: set<string>, suggest: Suggest,
                 dump: Scalar -> string, clock: nat -> int, ids: nat -> nat, record: bool)
      returns (r: ParseResult)
      modifies registry
      ensures r.unmapped == Unmapped(Collect(Flatten.Leaves(raw, "")), source, consumed, suggest)
      ensures r.additional == if r.unmapped == [] then None else Some(Entries(r.unmapped))
      ensures registry != null ==>
                registry.rows == if record then Record(old(registry.rows), Calls(r.unmapped, dump, clock, ids))
                                 else old(registry.rows)
    {
      var unmapped := DiscoverUnmapped(raw, source, consumed, suggest);
      var additional: Option<Dict> := None;
      if unmapped != [] {
        var stash: Dict := [];
        for i := 0 to |unmapped|
          invariant stash == Collect(Entries(unmapped[..i]))
          invariant registry != null ==> registry.rows == old(registry.rows)
        {
          UpdateSnoc([], Entries(unmapped[..i]), Entries(unmapped)[i]);
          assert Entries(unmapped[..i + 1]) == Entries(unmapped[..i]) + [Entries(unmapped)[i]];
          stash := Set(stash, unmapped[i].path, unmapped[i].value);
        }
        assert unmapped[..|unmapped|] == unmapped;
        UpdateKeepsDistinct([], Flatten.Leaves(raw, ""));
        UnmappedDiffer(Collect(Flatten.Leaves(raw, "")), source, consumed, suggest);
        CollectDistinct(Entries(unmapped));
        additional := Some(stash);
        if record && registry != null {
          RecordEach(unmapped, dump, clock, ids);
        }
      }
      r := ParseResult(additional, unmapped);
    }

    method RecordEach(obs: seq<Observation>, dump: Scalar -> string, clock: nat -> int, ids: nat -> nat)
      requires registry != null
      modifies registry
      ensures registry.rows == Record(old(registry.rows), Calls(obs, dump, clock, ids))
    {
      ghost var calls := Calls(obs, dump, clock, ids);
      for i := 0 to |obs|
        invariant registry.rows == Record(old(registry.rows), calls[..i])
      {
        assert calls[..i + 1][..i] == calls[..i];
        registry.Observe(ids(i), FR.Key(obs[i].source, obs[i].path), Leaf(obs[i].value), dump(obs[i].value),
                         obs[i].suggested, clock(i));
      }
      assert calls[..|obs|] == calls;
    }
  }

  // ---- The split of the leaves --------------------------------------------------------------

  predicate DistinctObservations(obs: seq<Observation>) {
    forall i, j :: 0 <= i < j < |obs| ==> obs[i].path != obs[j].path
  }

  predicate Observed(obs: seq<Observation>, path: string) {
    exists i :: 0 <= i < |obs| && obs[i].path == path
  }

  /** Entries are observed in their order, each unconsumed one with its path, value and suggestion. */
  lemma {:induction false} UnmappedSnoc(d: Dict, x: Entry, source: string, consumed: set<string>, suggest: Suggest)
    ensures Unmapped([], source, consumed, suggest) == []
    ensures Unmapped(d + [x], source, consumed, suggest) ==
            Unmapped(d, source, consumed, suggest)
            + if x.path in consumed then [] else [Observation(source, x.path, x.value, suggest(x.path, x.value))]
  {
    assert (d + [x])[..|d|] == d;
  }

  lemma {:induction false} ObservedIn(d: Dict, source: string, consumed: set<string>, suggest: Suggest, i: nat)
    returns (k: nat)
    requires i < |Unmapped(d, source, consumed, suggest)|
    ensures var o := Unmapped(d, source, consumed, suggest)[i];
            && k < |d| && d[k] == Entry(o.path, o.value) && o.path !in consumed
            && o.source == source && o.suggested == suggest(o.path, o.value)
    decreases |d|
  {
    var before := Unmapped(d[..|d| - 1], source, consumed, suggest);
    if i < |before| {
      k := ObservedIn(d[..|d| - 1], source, consumed, suggest, i);
    } else {
      k := |d| - 1;
    }
  }

  lemma {:induction false} UnmappedDiffer(d: Dict, source: string, consumed: set<string>, suggest: Suggest)
    requires DistinctPaths(d)
    ensures DistinctObservations(Unmapped(d, source, consumed, suggest))
    ensures DistinctPaths(Entries(Unmapped(d, source, consumed, suggest)))
    decreases |d|
  {
    if d != [] {
      var before := Unmapped(d[..|d| - 1], source, consumed, suggest);
      UnmappedDiffer(d[..|d| - 1], source, consumed, suggest);
      forall i | 0 <= i < |before|
        ensures before[i].path != d[|d| - 1].path
      {
        var k := ObservedIn(d[..|d| - 1], source, consumed, suggest, i);
      }
    }
  }

  lemma {:induction false} UnconsumedIsObserved(d: Dict, source: string, consumed: set<string>, suggest: Suggest, k: nat)
    returns (i: nat)
    requires k < |d| && d[k].path !in consumed
    ensures i < |Unmapped(d, source, consumed, suggest)|
    ensures Unmapped(d, source, consumed, suggest)[i] ==
            Observation(source, d[k].path, d[k].value, suggest(d[k].path, d[k].value))
    decreases |d|
  {
    if k == |d| - 1 {
      i := |Unmapped(d[..|d| - 1], source, consumed, suggest)|;
    } else {
      i := UnconsumedIsObserved(d[..|d| - 1], source, consumed, suggest, k);
    }
  }

  /**
   * Every flattened path of a payload is either consumed or observed and never both, each unmapped
   * path is observed once, and what is observed carries the flattened value.
   */
  lemma {:induction false} LeavesAreSplit(raw: Json, source: string, consumed: set<string>, suggest: Suggest, path: string)
    ensures var d := Collect(Flatten.Leaves(raw, ""));
            var obs := Unmapped(d, source, consumed, suggest);
            && DistinctObservations(obs)
            && (Observed(obs, path) <==> HasPath(d, path) && path !in consumed)
            && (forall i :: 0 <= i < |obs| ==> Entries(obs)[i] in d)
  {
    var d := Collect(Flatten.Leaves(raw, ""));
    var obs := Unmapped(d, source, consumed, suggest);
    UpdateKeepsDistinct([], Flatten.Leaves(raw, ""));
    UnmappedDiffer(d, source, consumed, suggest);
    if Observed(obs, path) {
      var i :| 0 <= i < |obs| && obs[i].path == path;
      var k := ObservedIn(d, source, consumed, suggest, i);
    }
    if HasPath(d, path) && path !in consumed {
      var k :| 0 <= k < |d| && d[k].path == path;
      var i := UnconsumedIsObserved(d, source, consumed, suggest, k);
    }
    forall i | 0 <= i < |obs|
      ensures Entries(obs)[i] in d
    {
      var k := ObservedIn(d, source, consumed, suggest, i);
    }
  }

  // ---- The effect of recording --------------------------------------------------------------

  function RowOf(rows: FR.Table, key: FR.Key): Option<FR.Row> {
    var k := FR.IndexOfKey(rows, key);
    if k < |rows| then Some(rows[k]) else None
  }

  function CountOf(rows: FR.Table, key: FR.Key): nat {
    var row := RowOf(rows, key);
    if row.Some? then row.value.count else 0
  }

  predicate Sights(calls: seq<FR.Call>, key: FR.Key) {
    exists i :: 0 <= i < |calls| && FR.Observes(calls[i], key)
  }

  predicate AllDistinctSightings(calls: seq<FR.Call>) {
    && (forall i :: 0 <= i < |calls| ==> calls[i].Observe?)
    && forall i, j :: 0 <= i < j < |calls| ==> calls[i].key != calls[j].key
  }

  lemma {:induction false} ObserveRow(rows: FR.Table, c: FR.Call, key: FR.Key)
    requires c.Observe?
    ensures c.key != key ==> RowOf(FR.Apply(rows, c), key) == RowOf(rows, key)
    ensures c.key == key ==> CountOf(FR.Apply(rows, c), key) == CountOf(rows, key) + 1
  {
    var rows' := FR.Apply(rows, c);
    assert forall i :: 0 <= i < |rows| ==> rows'[i].key == rows[i].key;
    assert |rows'| > |rows| ==> rows'[|rows|].key == c.key;
    var k, k' := FR.IndexOfKey(rows, key), FR.IndexOfKey(rows', key);
    if k < |rows| {
      assert k' == k;
    } else if c.key == key {
      assert k' == |rows|;
    } else {
      assert k' == |rows'|;
    }
  }

  /** Recording raises the count of each observed row by exactly one and touches no other row. */
  lemma {:induction false} RecordingCountsOnce(rows: FR.Table, calls: seq<FR.Call>, key: FR.Key)
    requires AllDistinctSightings(calls)
    ensures Sights(calls, key) ==> CountOf(Record(rows, calls), key) == CountOf(rows, key) + 1
    ensures !Sights(calls, key) ==> RowOf(Record(rows, calls), key) == RowOf(rows, key)
    decreases |calls|
  {
    if calls != [] {
      var before, c := calls[..|calls| - 1], calls[|calls| - 1];
      RecordingCountsOnce(rows, before, key);
      ObserveRow(Record(rows, before), c, key);
      if Sights(before, key) {
        var i :| 0 <= i < |before| && FR.Observes(before[i], key);
        assert FR.Observes(calls[i], key);
      }
      if FR.Observes(c, key) {
        assert Sights(calls, key);
      }
      if Sights(calls, key) && !FR.Observes(c, key) {
        var i :| 0 <= i < |calls| && FR.Observes(calls[i], key);
        assert FR.Observes(before[i], key);
      }
    }
  }

  /** After a recorded parse exactly the rows of the unmapped paths of this source were counted. */
  lemma {:induction false} ParseCountsUnmapped(rows: FR.Table, raw: Json, source: string, consumed: set<string>,
                                               suggest: Suggest, dump: Scalar -> string, clock: nat -> int,
                                               ids: nat -> nat, key: FR.Key)
    ensures var d := Collect(Flatten.Leaves(raw, ""));
            var rows' := Record(rows, Calls(Unmapped(d, source, consumed, suggest), dump, clock, ids));
            if key.source == source && HasPath(d, key.path) && key.path !in consumed
            then CountOf(rows', key) == CountOf(rows, key) + 1
            else RowOf(rows', key) == RowOf(rows, key)
  {
    var obs := Unmapped(Collect(Flatten.Leaves(raw, "")), source, consumed, suggest);
    var calls := Calls(obs, dump, clock, ids);
    LeavesAreSplit(raw, source, consumed, suggest, key.path);
    forall i | 0 <= i < |obs|
      ensures obs[i].source == source
    {
      var k := ObservedIn(Collect(Flatten.Leaves(raw, "")), source, consumed, suggest, i);
    }
    RecordingCountsOnce(rows, calls, key);
    if Observed(obs, key.path) && key.source == source {
      var i :| 0 <= i < |obs| && obs[i].path == key.path;
      assert FR.Observes(calls[i], key);
    }
    if Sights(calls, key) {
      var i :| 0 <= i < |calls| && FR.Observes(calls[i], key);
      assert obs[i].path == key.path;
    }
  }

  /** What a sighting leaves in the row of its key: a new row, or the known one counted and resampled. */
  predicate IsSighted(before: Option<FR.Row>, c: FR.Call, after: FR.Row)
    requires c.Observe?
  {
    && after.key == c.key && after.sample == FR.Sample(c.value, c.dumped) && after.lastSeen == c.now
    && (before.None? ==>
          && after.id == c.rowid && after.valueType == FR.ValueType(c.value) && after.suggested == c.suggested
          && after.count == 1 && after.status == "new" && after.notes == "" && after.firstSeen == c.now)
    && (before.Some? ==>
          && after.id == before.value.id && after.valueType == before.value.valueType
          && after.suggested == (if before.value.suggested == "" then c.suggested else before.value.suggested)
          && after.count == before.value.count + 1 && after.status == before.value.status
          && after.notes == before.value.notes && after.firstSeen == before.value.firstSeen)
  }

  lemma {:induction false} ObserveWrites(rows: FR.Table, c: FR.Call)
    requires c.Observe?
    ensures var after := RowOf(FR.Apply(rows, c), c.key);
            after.Some? && IsSighted(RowOf(rows, c.key), c, after.value)
  {
    var rows', k := FR.Apply(rows, c), FR.IndexOfKey(rows, c.key);
    assert forall i :: 0 <= i < |rows| ==> rows'[i].key == rows[i].key;
    assert rows'[k].key == c.key;
    assert FR.IndexOfKey(rows', c.key) == k;
  }

  lemma {:induction false} RecordingWrites(rows: FR.Table, calls: seq<FR.Call>, i: nat)
    requires AllDistinctSightings(calls) && i < |calls|
    ensures var after := RowOf(Record(rows, calls), calls[i].key);
            after.Some? && IsSighted(RowOf(rows, calls[i].key), calls[i], after.value)
    decreases |calls|
  {
    var before, last := calls[..|calls| - 1], calls[|calls| - 1];
    if i == |calls| - 1 {
      RecordingCountsOnce(rows, before, last.key);
      ObserveWrites(Record(rows, before), last);
    } else {
      RecordingWrites(rows, before, i);
      ObserveRow(Record(rows, before), last, calls[i].key);
    }
  }

  /**
   * A recorded parse writes each unmapped field to the row of its path: the row has the field's value
   * as its sample, and its type and suggestion if it is new or, for the suggestion, had none.
   */
  lemma {:induction false} ParseWritesUnmapped(
      rows: FR.Table, raw: Json, source: string, consumed: set<string>, suggest: Suggest, dump: Scalar -> string,
      clock: nat -> int, ids: nat -> nat, x: Entry) returns (i: nat)
    requires x in Collect(Flatten.Leaves(raw, "")) && x.path !in consumed
    ensures var d := Collect(Flatten.Leaves(raw, ""));
            var key := FR.Key(source, x.path);
            var after := RowOf(Record(rows, Calls(Unmapped(d, source, consumed, suggest), dump, clock, ids)), key);
            && after.Some?
            && IsSighted(RowOf(rows, key),
                         FR.Observe(ids(i), key, Leaf(x.value), dump(x.value), suggest(x.path, x.value), clock(i)),
                         after.value)
  {
    var d := Collect(Flatten.Leaves(raw, ""));
    var obs := Unmapped(d, source, consumed, suggest);
    var k :| 0 <= k < |d| && d[k] == x;
    i := UnconsumedIsObserved(d, source, consumed, suggest, k);
    CallsDiffer(raw, source, consumed, suggest, dump, clock, ids);
    RecordingWrites(rows, Calls(obs, dump, clock, ids), i);
  }

  lemma {:induction false} CallsDiffer(raw: Json, source: string, consumed: set<string>, suggest: Suggest,
                                       dump: Scalar -> string, clock: nat -> int, ids: nat -> nat)
    ensures AllDistinctSightings(
              Calls(Unmapped(Collect(Flatten.Leaves(raw, "")), source, consumed, suggest), dump, clock, ids))
  {
    UpdateKeepsDistinct([], Flatten.Leaves(raw, ""));
    UnmappedDiffer(Collect(Flatten.Leaves(raw, "")), source, consumed, suggest);
  }
}
