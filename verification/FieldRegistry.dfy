/**
 * The table of discovered fields: tengen/udm/field_registry.py.
 * One row per (source_type, raw_path). Every call carries its clock reading, and every sighting the
 * id the database has allocated for it, which is stored only if the sighting inserts a row.
 */
module FieldRegistry {
  import opened Common
  import opened Json

  /** A status is stored as text; these four are the named ones. */
  type Status = string

  const NEW: Status := "new"
  const APPROVED: Status := "approved"
  const PROMOTED: Status := "promoted"
  const IGNORED: Status := "ignored"

  datatype Key = Key(source: string, path: string)

  datatype Row = Row(
    id: nat, key: Key, suggested: string, valueType: string, sample: string,
    count: nat, status: Status, notes: string, firstSeen: int, lastSeen: int)

  type Table = seq<Row>

  function ValueType(value: Json): string {
    match value
    case Leaf(Bool(_)) => "bool"
    case Leaf(Int(_)) => "int"
    case Leaf(Float(_)) => "float"
    case Arr(_) => "list"
    case Obj(_) => "dict"
    case _ => "str"
  }

  const SAMPLE_LIMIT: nat := 512

  /** A string is sampled as it is, anything else by its JSON text. */
  function Sample(value: Json, dumped: string): string {
    var text := if value.Leaf? && value.value.Str? then value.value.s else dumped;
    if |text| <= SAMPLE_LIMIT then text else text[..SAMPLE_LIMIT]
  }

  /** The sample is the first 512 characters of a string value, or else of its JSON text, or all of a shorter one. */
  lemma {:induction false} SampleIsPrefix(value: Json, dumped: string)
    ensures var text := if value.Leaf? && value.value.Str? then value.value.s else dumped;
            Sample(value, dumped) <= text && (|text| <= 512 || |Sample(value, dumped)| == 512)
            && (|text| <= 512 ==> Sample(value, dumped) == text)
  {
  }

  /** The type name tells what the value is; null and strings share one. */
  lemma {:induction false} TypeNameTells(value: Json)
    ensures ValueType(value) == "bool" <==> value.Leaf? && value.value.Bool?
    ensures ValueType(value) == "int" <==> value.Leaf? && value.value.Int?
    ensures ValueType(value) == "float" <==> value.Leaf? && value.value.Float?
    ensures ValueType(value) == "list" <==> value.Arr?
    ensures ValueType(value) == "dict" <==> value.Obj?
    ensures ValueType(value) == "str" <==> value.Leaf? && (value.value.Str? || value.value.Null?)
  {
    var t := ValueType(value);
    assert t in {"bool", "int", "float", "list", "dict", "str"};
    assert "list"[0] != "bool"[0] && "dict"[0] != "bool"[0] && "list"[0] != "dict"[0] && "int"[0] != "str"[0];
  }

  function IndexOfKey(rows: Table, key: Key, from: nat := 0): (k: nat)
    requires from <= |rows|
    ensures from <= k <= |rows|
    ensures forall i :: from <= i < k ==> rows[i].key != key
    ensures k < |rows| ==> rows[k].key == key
    decreases |rows| - from
  {
    if from == |rows| || rows[from].key == key then from else IndexOfKey(rows, key, from + 1)
  }

  function IndexOfId(rows: Table, id: nat, from: nat := 0): (k: nat)
    requires from <= |rows|
    ensures from <= k <= |rows|
    ensures forall i :: from <= i < k ==> rows[i].id != id
    ensures k < |rows| ==> rows[k].id == id
    decreases |rows| - from
  {
    if from == |rows| || rows[from].id == id then from else IndexOfId(rows, id, from + 1)
  }

  datatype Call =
    | Observe(rowid: nat, key: Key, value: Json, dumped: string, suggested: string, now: int)
    | SetStatus(id: nat, status: Status, notes: Option<string>, now: int)
    | SetSuggested(id: nat, suggested: string, now: int)

  function Seen(row: Row, value: Json, dumped: string, suggested: string, now: int): Row {
    row.(count := row.count + 1, lastSeen := now, sample := Sample(value, dumped),
         suggested := if row.suggested == "" then suggested else row.suggested)
  }

  function NewRow(rowid: nat, key: Key, value: Json, dumped: string, suggested: string, now: int): Row {
    Row(rowid, key, suggested, ValueType(value), Sample(value, dumped), 1, NEW, "", now, now)
  }

  function Apply(rows: Table, call: Call): Table {
    match call
    case Observe(rowid, key, value, dumped, suggested, now) =>
      var k := IndexOfKey(rows, key);
      if k < |rows| then rows[k := Seen(rows[k], value, dumped, suggested, now)]
      else rows + [NewRow(rowid, key, value, dumped, suggested, now)]
    case SetStatus(id, status, notes, now) =>
      var k := IndexOfId(rows, id);
      if k == |rows| then rows
      else
        var row := rows[k].(status := status, lastSeen := now);
        rows[k := if notes.Some? then row.(notes := notes.value) else row]
    case SetSuggested(id, suggested, now) =>
      var k := IndexOfId(rows, id);
      if k == |rows| then rows else rows[k := rows[k].(suggested := suggested, lastSeen := now)]
  }

  class FieldRegistry {
    var rows: Table

    constructor ()
      ensures rows == []
    {
      rows := [];
    }

    /** Inserts a row for a new key; a known key is counted, resampled and keeps the rest, its id included. */
    method Observe(rowid: nat, key: Key, value: Json, dumped: string, suggested: string, now: int)
      modifies this
      ensures rows == Apply(old(rows), Call.Observe(rowid, key, value, dumped, suggested, now))
    {
      var k := IndexOfKey(rows, key);
      if k == |rows| {
        rows := rows + [Row(rowid, key, suggested, ValueType(value), Sample(value, dumped), 1, NEW, "", now, now)];
      } else {
        var row := rows[k];
        var kept := if row.suggested == "" then suggested else row.suggested;
        rows := rows[k := row.(count := row.count + 1, lastSeen := now, sample := Sample(value, dumped),
                               suggested := kept)];
      }
    }

    /** Reports whether a row has this id. */
    method SetStatus(id: nat, status: Status, notes: Option<string>, now: int) returns (found: bool)
      modifies this
      ensures rows == Apply(old(rows), Call.SetStatus(id, status, notes, now))
      ensures found <==> exists i :: 0 <= i < |old(rows)| && old(rows)[i].id == id
    {
      var k := IndexOfId(rows, id);
      found := k < |rows|;
      if found {
        var row := rows[k].(status := status, lastSeen := now);
        if notes.Some? {
          row := row.(notes := notes.value);
        }
        rows := rows[k := row];
      }
    }

    method SetSuggestedField(id: nat, suggested: string, now: int) returns (found: bool)
      modifies this
      ensures rows == Apply(old(rows), SetSuggested(id, suggested, now))
      ensures found <==> exists i :: 0 <= i < |old(rows)| && old(rows)[i].id == id
    {
      var k := IndexOfId(rows, id);
      found := k < |rows|;
      if found {
        rows := rows[k := rows[k].(suggested := suggested, lastSeen := now)];
      }
    }

    /** Totals by status and by source; a status outside the four named ones is in no named total. */
    method Summary() returns (r: Overview)
      ensures r.total == |rows|
      ensures forall s :: Tally(rows, s) == if s in r.byStatus then r.byStatus[s] else 0
      ensures forall s :: TallySource(rows, s) == if s in r.bySource then r.bySource[s] else 0
      ensures r.newRows == Tally(rows, NEW) && r.approved == Tally(rows, APPROVED)
      ensures r.promoted == Tally(rows, PROMOTED) && r.ignored == Tally(rows, IGNORED)
    {
      var byStatus: map<Status, nat>, bySource: map<string, nat> := map[], map[];
      for i := 0 to |rows|
        invariant forall s :: Tally(rows[..i], s) == if s in byStatus then byStatus[s] else 0
        invariant forall s :: TallySource(rows[..i], s) == if s in bySource then bySource[s] else 0
      {
        var status, source := rows[i].status, rows[i].key.source;
        assert rows[..i + 1][..i] == rows[..i];
        byStatus := byStatus[status := GroupOf(byStatus, status) + 1];
        bySource := bySource[source := GroupOf(bySource, source) + 1];
      }
      assert rows[..|rows|] == rows;
      r := Overview(|rows|, GroupOf(byStatus, NEW), GroupOf(byStatus, APPROVED), GroupOf(byStatus, PROMOTED),
                    GroupOf(byStatus, IGNORED), byStatus, bySource);
    }
  }

  datatype Overview = Overview(
    total: nat, newRows: nat, approved: nat, promoted: nat, ignored: nat,
    byStatus: map<Status, nat>, bySource: map<string, nat>)

  function GroupOf(groups: map<string, nat>, name: string): nat {
    if name in groups then groups[name] else 0
  }

  function Tally(rows: Table, s: Status): nat {
    if rows == [] then 0
    else Tally(rows[..|rows| - 1], s) + if rows[|rows| - 1].status == s then 1 else 0
  }

  function TallySource(rows: Table, source: string): nat {
    if rows == [] then 0
    else TallySource(rows[..|rows| - 1], source) + if rows[|rows| - 1].key.source == source then 1 else 0
  }

  function WithStatus(rows: Table, status: Status): set<int> {
    set i | 0 <= i < |rows| && rows[i].status == status
  }

  function WithSource(rows: Table, source: string): set<int> {
    set i | 0 <= i < |rows| && rows[i].key.source == source
  }

  /** A tally is the number of rows of its group. */
  lemma {:induction false} TallyCounts(rows: Table, status: Status)
    ensures Tally(rows, status) == |WithStatus(rows, status)|
  {
    if rows != [] {
      var n := |rows| - 1;
      TallyCounts(rows[..n], status);
      assert WithStatus(rows, status) == WithStatus(rows[..n], status) + if rows[n].status == status then {n} else {};
    }
  }

  lemma {:induction false} TallySourceCounts(rows: Table, source: string)
    ensures TallySource(rows, source) == |WithSource(rows, source)|
  {
    if rows != [] {
      var n := |rows| - 1;
      TallySourceCounts(rows[..n], source);
      assert WithSource(rows, source) == WithSource(rows[..n], source) + if rows[n].key.source == source then {n} else {};
    }
  }

  // ---- What a call history says about a key -------------------------------------------------

  function Run(h: seq<Call>): Table {
    if h == [] then [] else Apply(Run(Front(h)), Last(h))
  }

  predicate Observes(call: Call, key: Key) {
    call.Observe? && call.key == key
  }

  function Sightings(h: seq<Call>, key: Key): nat {
    if h == [] then 0 else Sightings(Front(h), key) + if Observes(Last(h), key) then 1 else 0
  }

  function FirstSighting(h: seq<Call>, key: Key): (c: Call)
    requires Sightings(h, key) > 0
    ensures Observes(c, key)
  {
    if Sightings(Front(h), key) > 0 then FirstSighting(Front(h), key) else Last(h)
  }

  function LastSighting(h: seq<Call>, key: Key): (c: Call)
    requires Sightings(h, key) > 0
    ensures Observes(c, key)
  {
    if Observes(Last(h), key) then Last(h) else LastSighting(Front(h), key)
  }

  /** The status set last on the row, from its first sighting on. */
  function StatusOf(h: seq<Call>, key: Key, id: nat): Status {
    if h == [] then NEW
    else if Last(h).SetStatus? && Last(h).id == id && Sightings(Front(h), key) > 0 then Last(h).status
    else StatusOf(Front(h), key, id)
  }

  function NotesOf(h: seq<Call>, key: Key, id: nat): string {
    if h == [] then ""
    else if Last(h).SetStatus? && Last(h).id == id && Last(h).notes.Some? && Sightings(Front(h), key) > 0
    then Last(h).notes.value
    else NotesOf(Front(h), key, id)
  }

  /** The suggestion set last, or else the first non-empty one that came with a sighting since. */
  function SuggestionOf(h: seq<Call>, key: Key, id: nat): string {
    if h == [] then ""
    else
      var before := SuggestionOf(Front(h), key, id);
      if Observes(Last(h), key) && before == "" then Last(h).suggested
      else if Last(h).SetSuggested? && Last(h).id == id && Sightings(Front(h), key) > 0 then Last(h).suggested
      else before
  }

  function LastTouch(h: seq<Call>, key: Key, id: nat): int
    requires Sightings(h, key) > 0
  {
    if Observes(Last(h), key) || (!Last(h).Observe? && Last(h).id == id && Sightings(Front(h), key) > 0) then Last(h).now
    else LastTouch(Front(h), key, id)
  }

  /** The id of a key is the one that came with its first sighting. */
  function IdOf(h: seq<Call>, key: Key): nat
    requires Sightings(h, key) > 0
  {
    FirstSighting(h, key).rowid
  }

  /** The row a call history calls for, field by field. */
  function Reading(h: seq<Call>, key: Key): Row
    requires Sightings(h, key) > 0
  {
    var first, last, id := FirstSighting(h, key), LastSighting(h, key), IdOf(h, key);
    Row(id, key, SuggestionOf(h, key, id), ValueType(first.value), Sample(last.value, last.dumped),
        Sightings(h, key), StatusOf(h, key, id), NotesOf(h, key, id), first.now, LastTouch(h, key, id))
  }

  /** The keys that were sighted, in order of their first sighting. */
  function Discovered(h: seq<Call>): seq<Key> {
    if h == [] then []
    else
      var before, c := Discovered(Front(h)), Last(h);
      if c.Observe? && Sightings(Front(h), c.key) == 0 then before + [c.key] else before
  }

  /** The database allocates an id larger than that of any row; other calls need none. */
  predicate Allocates(rows: Table, c: Call) {
    c.Observe? ==> forall i :: 0 <= i < |rows| ==> rows[i].id < c.rowid
  }

  ghost predicate Allocated(h: seq<Call>) {
    forall n :: 0 <= n < |h| ==> Allocates(Run(h[..n]), h[n])
  }

  predicate DistinctKeys(rows: Table) {
    forall i, j :: 0 <= i < j < |rows| ==> rows[i].key != rows[j].key
  }

  predicate IncreasingIds(rows: Table) {
    forall i, j :: 0 <= i < j < |rows| ==> rows[i].id < rows[j].id
  }

  predicate HasKey(rows: Table, key: Key) {
    exists i :: 0 <= i < |rows| && rows[i].key == key
  }

  predicate Reads(row: Row, h: seq<Call>) {
    Sightings(h, row.key) > 0 && row == Reading(h, row.key)
  }

  /** Every row of the table is the reading of its key; keys and ids identify rows. */
  predicate Mirrors(rows: Table, h: seq<Call>) {
    && DistinctKeys(rows) && IncreasingIds(rows)
    && forall i :: 0 <= i < |rows| ==> Reads(rows[i], h)
  }

  /** Before the first sighting of a key nothing is recorded for it. */
  lemma {:induction false} Unseen(h: seq<Call>, key: Key, id: nat)
    requires Sightings(h, key) == 0
    ensures StatusOf(h, key, id) == NEW && NotesOf(h, key, id) == "" && SuggestionOf(h, key, id) == ""
  {
    if h != [] {
      Unseen(Front(h), key, id);
    }
  }

  lemma {:induction false} ReadingOfOther(h: seq<Call>, c: Call, key: Key)
    requires Sightings(h, key) > 0 && !Observes(c, key) && (c.Observe? || c.id != IdOf(h, key))
    ensures Sightings(h + [c], key) > 0 && Reading(h + [c], key) == Reading(h, key)
  {
    assert Front(h + [c]) == h;
  }

  lemma {:induction false} ReadingOfSighting(h: seq<Call>, c: Call, key: Key)
    requires Sightings(h, key) > 0 && Observes(c, key)
    ensures Sightings(h + [c], key) > 0
    ensures Reading(h + [c], key) == Seen(Reading(h, key), c.value, c.dumped, c.suggested, c.now)
  {
    assert Front(h + [c]) == h;
  }

  lemma {:induction false} ReadingOfFirst(h: seq<Call>, c: Call, key: Key)
    requires Sightings(h, key) == 0 && Observes(c, key)
    ensures Sightings(h + [c], key) > 0
    ensures Reading(h + [c], key) == NewRow(c.rowid, key, c.value, c.dumped, c.suggested, c.now)
  {
    assert Front(h + [c]) == h;
    Unseen(h, key, c.rowid);
  }

  lemma {:induction false} ReadingOfSet(h: seq<Call>, c: Call, key: Key)
    requires Sightings(h, key) > 0 && !c.Observe? && c.id == IdOf(h, key)
    ensures Sightings(h + [c], key) > 0
    ensures var row := Reading(h, key);
            Reading(h + [c], key) ==
            if c.SetSuggested? then row.(suggested := c.suggested, lastSeen := c.now)
            else if c.notes.Some? then row.(status := c.status, lastSeen := c.now, notes := c.notes.value)
            else row.(status := c.status, lastSeen := c.now)
  {
    assert Front(h + [c]) == h;
  }

  lemma {:induction false} FirstMirrors(rows: Table, h: seq<Call>, c: Call)
    requires c.Observe? && Mirrors(rows, h) && Allocates(rows, c)
    requires !HasKey(rows, c.key) && Sightings(h, c.key) == 0
    ensures Mirrors(rows + [NewRow(c.rowid, c.key, c.value, c.dumped, c.suggested, c.now)], h + [c])
  {
    var rows' := rows + [NewRow(c.rowid, c.key, c.value, c.dumped, c.suggested, c.now)];
    forall i | 0 <= i < |rows'|
      ensures Reads(rows'[i], h + [c])
    {
      if i == |rows| {
        ReadingOfFirst(h, c, c.key);
      } else {
        ReadingOfOther(h, c, rows[i].key);
      }
    }
  }

  lemma {:induction false} AgainMirrors(rows: Table, h: seq<Call>, c: Call, k: nat)
    requires c.Observe? && Mirrors(rows, h) && k < |rows| && rows[k].key == c.key
    ensures Mirrors(rows[k := Seen(rows[k], c.value, c.dumped, c.suggested, c.now)], h + [c])
  {
    var rows' := rows[k := Seen(rows[k], c.value, c.dumped, c.suggested, c.now)];
    forall i | 0 <= i < |rows'|
      ensures Reads(rows'[i], h + [c])
    {
      if i == k {
        ReadingOfSighting(h, c, c.key);
      } else {
        ReadingOfOther(h, c, rows[i].key);
      }
    }
  }

  lemma {:induction false} ObserveMirrors(rows: Table, h: seq<Call>, c: Call)
    requires c.Observe? && Mirrors(rows, h) && Allocates(rows, c)
    requires HasKey(rows, c.key) <==> Sightings(h, c.key) > 0
    ensures Mirrors(Apply(rows, c), h + [c])
  {
    var k := IndexOfKey(rows, c.key);
    if k < |rows| {
      AgainMirrors(rows, h, c, k);
    } else {
      FirstMirrors(rows, h, c);
    }
  }

  lemma {:induction false} UnknownIdMirrors(rows: Table, h: seq<Call>, c: Call)
    requires !c.Observe? && Mirrors(rows, h) && IndexOfId(rows, c.id) == |rows|
    ensures Mirrors(rows, h + [c])
  {
    forall i | 0 <= i < |rows|
      ensures Reads(rows[i], h + [c])
    {
      ReadingOfOther(h, c, rows[i].key);
    }
  }

  lemma {:induction false} SetMirrors(rows: Table, h: seq<Call>, c: Call)
    requires !c.Observe? && Mirrors(rows, h)
    ensures Mirrors(Apply(rows, c), h + [c])
  {
    var k := IndexOfId(rows, c.id);
    if k == |rows| {
      UnknownIdMirrors(rows, h, c);
    } else {
      ReadingOfSet(h, c, rows[k].key);
      var row := Apply(rows, c)[k];
      assert Apply(rows, c) == rows[k := row];
      SetRowMirrors(rows, h, c, k, row);
    }
  }

  lemma {:induction false} SetRowMirrors(rows: Table, h: seq<Call>, c: Call, k: nat, row: Row)
    requires !c.Observe? && Mirrors(rows, h) && k < |rows| && c.id == rows[k].id
    requires row.key == rows[k].key && row.id == rows[k].id && Reads(row, h + [c])
    ensures Mirrors(rows[k := row], h + [c])
  {
    var rows' := rows[k := row];
    forall i | 0 <= i < |rows'|
      ensures Reads(rows'[i], h + [c])
    {
      if i != k {
        ReadingOfOther(h, c, rows[i].key);
      }
    }
  }

  lemma {:induction false} ApplyHasKey(rows: Table, c: Call, key: Key)
    ensures HasKey(Apply(rows, c), key) <==> HasKey(rows, key) || Observes(c, key)
  {
    var rows' := Apply(rows, c);
    forall i | 0 <= i < |rows|
      ensures rows'[i].key == rows[i].key
    {
    }
    if HasKey(rows, key) {
      var i :| 0 <= i < |rows| && rows[i].key == key;
      assert rows'[i].key == key;
    }
    if Observes(c, key) {
      assert rows'[IndexOfKey(rows, key)].key == key;
    }
    if HasKey(rows', key) {
      var i :| 0 <= i < |rows'| && rows'[i].key == key;
      if i < |rows| {
        assert rows[i].key == key;
      }
    }
  }

  lemma {:induction false} AllocatedFront(h: seq<Call>)
    requires Allocated(h) && h != []
    ensures Allocated(Front(h)) && Allocates(Run(Front(h)), Last(h))
  {
    assert Front(h) == h[..|h| - 1];
    forall n | 0 <= n < |Front(h)|
      ensures Allocates(Run(Front(h)[..n]), Front(h)[n])
    {
      assert Front(h)[..n] == h[..n];
    }
  }

  /** The table has rows for exactly the sighted keys. */
  ghost predicate RowsForSightings(rows: Table, h: seq<Call>) {
    forall key :: HasKey(rows, key) <==> Sightings(h, key) > 0
  }

  lemma {:induction false} CallMirrors(rows: Table, h: seq<Call>, c: Call)
    requires Mirrors(rows, h) && RowsForSightings(rows, h) && Allocates(rows, c)
    ensures Mirrors(Apply(rows, c), h + [c]) && RowsForSightings(Apply(rows, c), h + [c])
  {
    forall key
      ensures HasKey(Apply(rows, c), key) <==> Sightings(h + [c], key) > 0
    {
      ApplyHasKey(rows, c, key);
      assert Front(h + [c]) == h;
    }
    if c.Observe? {
      assert HasKey(rows, c.key) <==> Sightings(h, c.key) > 0;
      ObserveMirrors(rows, h, c);
    } else {
      SetMirrors(rows, h, c);
    }
  }

  /**
   * Under any interleaving of calls, whatever ids the database leaves out, the table is what the
   * history says: every row is read off the history, and a key has a row exactly if it was sighted.
   */
  lemma {:induction false} TableReadsHistory(h: seq<Call>)
    requires Allocated(h)
    ensures Mirrors(Run(h), h) && RowsForSightings(Run(h), h)
  {
    if h == [] {
      EmptyMirrors();
    } else {
      var before, c := Front(h), Last(h);
      assert h == before + [c];
      AllocatedFront(h);
      TableReadsHistory(before);
      CallMirrors(Run(before), before, c);
      RunSnoc(before, c);
    }
  }

  lemma {:induction false} EmptyMirrors()
    ensures Mirrors([], []) && RowsForSightings([], [])
  {
  }

  predicate HasKeys(rows: Table, keys: seq<Key>) {
    |rows| == |keys| && forall i :: 0 <= i < |rows| ==> rows[i].key == keys[i]
  }

  lemma {:induction false} ApplyKeepsKeys(rows: Table, keys: seq<Key>, c: Call)
    requires HasKeys(rows, keys)
    ensures HasKeys(Apply(rows, c), if c.Observe? && !HasKey(rows, c.key) then keys + [c.key] else keys)
  {
    if c.Observe? && IndexOfKey(rows, c.key) < |rows| {
      assert HasKey(rows, c.key);
    }
  }

  /** The keys of the table are the discovered ones, in order of first sighting. */
  lemma {:induction false} RowsInOrderOfDiscovery(h: seq<Call>)
    requires Allocated(h)
    ensures HasKeys(Run(h), Discovered(h))
  {
    if h != [] {
      var before, c := Front(h), Last(h);
      AllocatedFront(h);
      RowsInOrderOfDiscovery(before);
      ApplyKeepsKeys(Run(before), Discovered(before), c);
      if c.Observe? {
        KeySighted(before, c.key);
      }
    }
  }

  lemma {:induction false} KeySighted(h: seq<Call>, key: Key)
    requires Allocated(h)
    ensures HasKey(Run(h), key) <==> Sightings(h, key) > 0
  {
    TableReadsHistory(h);
  }

  /** How many sightings a history holds. */
  function AllSightings(h: seq<Call>): nat {
    if h == [] then 0 else AllSightings(Front(h)) + if Last(h).Observe? then 1 else 0
  }

  /** SQLite's sequence, which every sighting advances, whether it inserts a row or not. */
  ghost predicate Sequential(h: seq<Call>) {
    forall n :: 0 <= n < |h| && h[n].Observe? ==> h[n].rowid == AllSightings(h[..n]) + 1
  }

  lemma {:induction false} SequentialFront(h: seq<Call>)
    requires Sequential(h) && h != []
    ensures Sequential(Front(h)) && (Last(h).Observe? ==> Last(h).rowid == AllSightings(Front(h)) + 1)
  {
    assert Front(h) == h[..|h| - 1];
    forall n | 0 <= n < |Front(h)| && Front(h)[n].Observe?
      ensures Front(h)[n].rowid == AllSightings(Front(h)[..n]) + 1
    {
      assert Front(h)[..n] == h[..n];
    }
  }

  lemma {:induction false} IdsWithinSequence(h: seq<Call>)
    requires Sequential(h)
    ensures forall i :: 0 <= i < |Run(h)| ==> Run(h)[i].id <= AllSightings(h)
  {
    if h != [] {
      SequentialFront(h);
      IdsWithinSequence(Front(h));
    }
  }

  /** That sequence allocates ids as required, though repeated sightings leave gaps between them. */
  lemma {:induction false} SequentialIsAllocated(h: seq<Call>)
    requires Sequential(h)
    ensures Allocated(h)
  {
    if h != [] {
      SequentialFront(h);
      SequentialIsAllocated(Front(h));
      IdsWithinSequence(Front(h));
      assert Front(h) == h[..|h| - 1];
      forall n | 0 <= n < |h|
        ensures Allocates(Run(h[..n]), h[n])
      {
        if n < |h| - 1 {
          assert Front(h)[..n] == h[..n];
          assert Allocates(Run(Front(h)[..n]), Front(h)[n]);
        }
      }
    }
  }

  /** Rows are never deleted or renumbered, so after any history an id names one row. */
  lemma {:induction false} HistoryHasDistinctIds(h: seq<Call>)
    requires Allocated(h)
    ensures DistinctIds(Run(h))
  {
    TableReadsHistory(h);
  }

  /** Sighting x twice and then y leaves id 2 unused: a status set on id 2 reaches no row. */
  lemma {:induction false} RepeatedSightingSkipsId(x: Key, y: Key, v: Json, now: int) returns (h: seq<Call>)
    requires x != y
    ensures |h| == 4 && Sequential(h) && Observes(h[0], x) && Observes(h[1], x) && Observes(h[2], y)
    ensures h[3] == SetStatus(2, APPROVED, None, now)
    ensures |Run(h)| == 2 && Run(h)[1].key == y && Run(h)[1].id == 3 && Run(h)[1].status == NEW
  {
    var a, b := Observe(1, x, v, "", "", now), Observe(2, x, v, "", "", now);
    var c, d := Observe(3, y, v, "", "", now), SetStatus(2, APPROVED, None, now);
    h := [a, b, c, d];
    assert h[..0] == [] && h[..1] == [a] && h[..2] == [a] + [b] && h[..3] == [a] + [b] + [c];
    assert h == [a] + [b] + [c] + [d];
    SightingsSnoc([], a);
    SightingsSnoc([a], b);
    RunSnoc([], a);
    RunSnoc([a], b);
    RunSnoc([a] + [b], c);
    RunSnoc([a] + [b] + [c], d);
    var one := Run([a]);
    assert one == [NewRow(1, x, v, "", "", now)];
    var two := Run([a] + [b]);
    assert |two| == 1 && two[0].id == 1 && two[0].key == x;
    var three := Run([a] + [b] + [c]);
    assert |three| == 2 && three[0].id == 1 && three[1] == NewRow(3, y, v, "", "", now);
  }

  lemma {:induction false} RunSnoc(h: seq<Call>, c: Call)
    ensures Run(h + [c]) == Apply(Run(h), c)
  {
    assert Front(h + [c]) == h;
  }

  lemma {:induction false} SightingsSnoc(h: seq<Call>, c: Call)
    ensures AllSightings(h + [c]) == AllSightings(h) + if c.Observe? then 1 else 0
  {
    assert Front(h + [c]) == h;
  }

  predicate IsNamed(s: Status) {
    s == NEW || s == APPROVED || s == PROMOTED || s == IGNORED
  }

  /** The four named statuses account for every row exactly when no other status was ever stored. */
  lemma {:induction false} NamedStatusesCover(rows: Table)
    ensures var named := Tally(rows, NEW) + Tally(rows, APPROVED) + Tally(rows, PROMOTED) + Tally(rows, IGNORED);
            && named <= |rows|
            && (named == |rows| <==> forall i :: 0 <= i < |rows| ==> IsNamed(rows[i].status))
  {
    if rows != [] {
      var before := rows[..|rows| - 1];
      NamedStatusesCover(before);
      assert rows == before + [rows[|rows| - 1]];
      assert APPROVED[0] != PROMOTED[0];
    }
  }

  // ---- Listing ------------------------------------------------------------------------------

  predicate Ranks(a: Row, b: Row) {
    a.count > b.count || (a.count == b.count && a.lastSeen >= b.lastSeen)
  }

  predicate DistinctIds(rows: Table) {
    forall i, j :: 0 <= i < j < |rows| ==> rows[i].id != rows[j].id
  }

  /** What list_fields may return: the highest ranked rows in rank order, ties in any order. */
  ghost predicate IsListing(rows: Table, limit: nat, out: seq<Row>) {
    && |out| == (if |rows| <= limit then |rows| else limit)
    && DistinctIds(out) && (forall i :: 0 <= i < |out| ==> out[i] in rows)
    && (forall i, j :: 0 <= i < j < |out| ==> Ranks(out[i], out[j]))
    && (forall r, i :: r in rows && r !in out && 0 <= i < |out| ==> Ranks(out[i], r))
  }

  /** A row that the limit cuts off was seen no more often than any listed one, and if as often then no later. */
  lemma {:induction false} CutOffRanksLower(rows: Table, limit: nat, out: seq<Row>, cut: Row, i: nat)
    requires IsListing(rows, limit, out) && cut in rows && cut !in out && i < |out|
    ensures cut.count < out[i].count || (cut.count == out[i].count && cut.lastSeen <= out[i].lastSeen)
  {
  }

  /** A listing that is not cut short has every row. */
  lemma {:induction false} FullListing(rows: Table, limit: nat, out: seq<Row>, r: Row)
    requires DistinctIds(rows) && IsListing(rows, limit, out) && |rows| <= limit && r in rows
    ensures r in out
  {
    var ids := set i | 0 <= i < |rows| :: rows[i].id;
    var listed := set i | 0 <= i < |out| :: out[i].id;
    IdCount(rows);
    IdCount(out);
    assert listed <= ids by {
      forall i | 0 <= i < |out|
        ensures out[i].id in ids
      {
        var j :| 0 <= j < |rows| && rows[j] == out[i];
      }
    }
    assert |ids - listed| == |ids| - |listed|;
    assert listed == ids;
    var k :| 0 <= k < |rows| && rows[k] == r;
    assert r.id in listed;
    var i :| 0 <= i < |out| && out[i].id == r.id;
    var j :| 0 <= j < |rows| && rows[j] == out[i];
    assert j == k;
  }

  lemma {:induction false} IdCount(rows: Table)
    requires DistinctIds(rows)
    ensures |set i | 0 <= i < |rows| :: rows[i].id| == |rows|
  {
    var ids := set i | 0 <= i < |rows| :: rows[i].id;
    if rows != [] {
      var before := rows[..|rows| - 1];
      IdCount(before);
      var fewer := set i | 0 <= i < |before| :: before[i].id;
      assert ids == fewer + {rows[|rows| - 1].id};
      assert rows[|rows| - 1].id !in fewer;
    }
  }
}
