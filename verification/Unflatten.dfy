/**
 * Rebuilding a payload from its flattened form: an inverse of tengen/udm/mappings.py, flatten, and
 * exactly the payloads it is an inverse on.
 */
module Unflatten {
  import opened Common
  import opened DottedPath
  import opened Json
  import opened Flatten

  /** A leaf with the keys leading to it. */
  datatype Trail = Trail(segs: seq<string>, value: Scalar)

  // ---- Rebuilding ---------------------------------------------------------------------------

  function Parse(d: Dict): seq<Trail> {
    seq(|d|, i requires 0 <= i < |d| => Trail(Split(d[i].path), d[i].value))
  }

  predicate Pathed(ts: seq<Trail>) {
    forall i :: 0 <= i < |ts| ==> ts[i].segs != []
  }

  /** How many trails at the front start with this key. */
  function Span(ts: seq<Trail>, key: string, from: nat := 0): (n: nat)
    requires Pathed(ts) && from <= |ts|
    ensures from <= n <= |ts|
    ensures forall i :: from <= i < n ==> ts[i].segs[0] == key
    ensures n < |ts| ==> ts[n].segs[0] != key
    decreases |ts| - from
  {
    if from == |ts| || ts[from].segs[0] != key then from else Span(ts, key, from + 1)
  }

  function Tails(ts: seq<Trail>): (r: seq<Trail>)
    requires Pathed(ts)
    ensures |r| == |ts|
  {
    seq(|ts|, i requires 0 <= i < |ts| => Trail(ts[i].segs[1..], ts[i].value))
  }

  function Weight(ts: seq<Trail>): nat {
    if ts == [] then 0 else |ts[0].segs| + Weight(ts[1..])
  }

  lemma {:induction false} WeightSplits(ts: seq<Trail>, n: nat)
    requires n <= |ts|
    ensures Weight(ts) == Weight(ts[..n]) + Weight(ts[n..])
    decreases n
  {
    if n > 0 {
      WeightSplits(ts[1..], n - 1);
      assert ts[..n][1..] == ts[1..][..n - 1];
      assert ts[n..] == ts[1..][n - 1..];
    } else {
      assert ts[n..] == ts;
    }
  }

  lemma {:induction false} WeightOfTails(ts: seq<Trail>)
    requires Pathed(ts)
    ensures Weight(Tails(ts)) + |ts| == Weight(ts)
    decreases |ts|
  {
    if ts != [] {
      assert Tails(ts)[1..] == Tails(ts[1..]);
      WeightOfTails(ts[1..]);
    }
  }

  /** Groups neighbouring trails by their first key and rebuilds each group. */
  function Rebuild(ts: seq<Trail>): (fields: seq<Field>)
    requires Pathed(ts)
    ensures ts != [] ==> fields != []
    decreases Weight(ts)
  {
    if ts == [] then []
    else
      var key := ts[0].segs[0];
      var n := Span(ts, key);
      var inner := Tails(ts[..n]);
      WeightSplits(ts, n);
      WeightOfTails(ts[..n]);
      var child := if Pathed(inner) then Obj(Rebuild(inner)) else Leaf(inner[0].value);
      [Field(key, child)] + Rebuild(ts[n..])
  }

  function Unflatten(d: Dict): Json {
    Obj(Rebuild(Parse(d)))
  }

  // ---- Which payloads round-trip ------------------------------------------------------------

  /** Python's dicts: no object repeats a key. */
  predicate IsDocument(data: Json) {
    match data
    case Leaf(_) => true
    case Arr(items) => forall i :: 0 <= i < |items| ==> IsDocument(items[i])
    case Obj(fields) => DistinctKeys(fields) && forall i :: 0 <= i < |fields| ==> IsDocument(fields[i].value)
  }

  predicate DistinctKeys(fields: seq<Field>) {
    forall i, j :: 0 <= i < j < |fields| ==> fields[i].key != fields[j].key
  }

  /** No list, no empty object, and no dot in a key. */
  predicate Plain(data: Json) {
    match data
    case Leaf(_) => true
    case Arr(_) => false
    case Obj(fields) => fields != [] && forall i :: 0 <= i < |fields| ==> NoDot(fields[i].key) && Plain(fields[i].value)
  }

  predicate PlainFields(fields: seq<Field>) {
    forall i :: 0 <= i < |fields| ==> NoDot(fields[i].key) && Plain(fields[i].value)
  }

  predicate NamedFields(fields: seq<Field>) {
    forall i :: 0 <= i < |fields| ==> fields[i].key != ""
  }

  // ---- Trails of a payload ------------------------------------------------------------------

  function Prepend(key: string, ts: seq<Trail>): (r: seq<Trail>)
    ensures |r| == |ts| && Pathed(r)
  {
    seq(|ts|, i requires 0 <= i < |ts| => Trail([key] + ts[i].segs, ts[i].value))
  }

  function Trails(data: Json): (ts: seq<Trail>) {
    match data
    case Leaf(v) => [Trail([], v)]
    case Obj(fields) => FieldTrails(fields)
    case Arr(_) => []
  }

  function FieldTrails(fields: seq<Field>): (ts: seq<Trail>)
    ensures Pathed(ts)
  {
    if fields == [] then []
    else
      var last := fields[|fields| - 1];
      FieldTrails(fields[..|fields| - 1]) + Prepend(last.key, Trails(last.value))
  }

  function Rendered(prefix: string, ts: seq<Trail>): seq<Entry> {
    seq(|ts|, i requires 0 <= i < |ts| => Entry(prefix + Suffix(ts[i].segs), ts[i].value))
  }

  function RenderedTop(ts: seq<Trail>): seq<Entry>
    requires Pathed(ts)
  {
    seq(|ts|, i requires 0 <= i < |ts| => Entry(Dotted(ts[i].segs), ts[i].value))
  }

  /** On plain data flattening renders the trails. */
  lemma {:induction false} LeavesAreTrails(data: Json, prefix: string)
    requires Plain(data) && prefix != ""
    ensures Leaves(data, prefix) == Rendered(prefix, Trails(data))
    decreases data, 1
  {
    match data
    case Leaf(v) =>
      assert prefix + Suffix([]) == prefix;
    case Obj(fields) =>
      FieldLeavesAreTrails(fields, prefix);
  }

  lemma {:induction false} RenderedUnder(prefix: string, key: string, ts: seq<Trail>)
    ensures Rendered(prefix + "." + key, ts) == Rendered(prefix, Prepend(key, ts))
  {
    forall i | 0 <= i < |ts|
      ensures (prefix + "." + key) + Suffix(ts[i].segs) == prefix + Suffix(Prepend(key, ts)[i].segs)
    {
      assert Prepend(key, ts)[i].segs[1..] == ts[i].segs;
    }
  }

  lemma {:induction false} FieldLeavesAreTrails(fields: seq<Field>, prefix: string)
    requires PlainFields(fields) && prefix != ""
    ensures FieldLeaves(fields, prefix) == Rendered(prefix, FieldTrails(fields))
    decreases fields, 0
  {
    if fields != [] {
      var before, last := fields[..|fields| - 1], fields[|fields| - 1];
      FieldLeavesAreTrails(before, prefix);
      LeavesAreTrails(last.value, prefix + "." + last.key);
      RenderedUnder(prefix, last.key, Trails(last.value));
      RenderedConcat(prefix, FieldTrails(before), Prepend(last.key, Trails(last.value)));
    }
  }

  lemma {:induction false} RenderedConcat(prefix: string, ts: seq<Trail>, us: seq<Trail>)
    ensures Rendered(prefix, ts + us) == Rendered(prefix, ts) + Rendered(prefix, us)
  {
  }

  lemma {:induction false} TopLeavesAreTrails(fields: seq<Field>)
    requires PlainFields(fields) && NamedFields(fields)
    ensures FieldLeaves(fields, "") == RenderedTop(FieldTrails(fields))
    decreases fields
  {
    if fields != [] {
      var before, last := fields[..|fields| - 1], fields[|fields| - 1];
      TopLeavesAreTrails(before);
      LeavesAreTrails(last.value, last.key);
      var ts := Trails(last.value);
      forall i | 0 <= i < |ts|
        ensures last.key + Suffix(ts[i].segs) == Dotted(Prepend(last.key, ts)[i].segs)
      {
        assert Prepend(last.key, ts)[i].segs[1..] == ts[i].segs;
      }
      assert Rendered(last.key, ts) == RenderedTop(Prepend(last.key, ts));
    }
  }

  predicate DotFree(ts: seq<Trail>) {
    forall i, j :: 0 <= i < |ts| && 0 <= j < |ts[i].segs| ==> NoDot(ts[i].segs[j])
  }

  lemma {:induction false} TrailsAreDotFree(data: Json)
    requires Plain(data)
    ensures DotFree(Trails(data)) && Trails(data) != []
    decreases data, 1
  {
    if data.Obj? {
      FieldTrailsAreDotFree(data.fields);
    }
  }

  lemma {:induction false} PrependDotFree(key: string, ts: seq<Trail>)
    requires NoDot(key) && DotFree(ts)
    ensures DotFree(Prepend(key, ts))
  {
  }

  lemma {:induction false} FieldTrailsAreDotFree(fields: seq<Field>)
    requires PlainFields(fields)
    ensures DotFree(FieldTrails(fields)) && (fields != [] ==> FieldTrails(fields) != [])
    decreases fields, 0
  {
    if fields != [] {
      var before, last := fields[..|fields| - 1], fields[|fields| - 1];
      FieldTrailsAreDotFree(before);
      TrailsAreDotFree(last.value);
      PrependDotFree(last.key, Trails(last.value));
      DotFreeConcat(FieldTrails(before), Prepend(last.key, Trails(last.value)));
    }
  }

  lemma {:induction false} DotFreeConcat(ts: seq<Trail>, us: seq<Trail>)
    requires DotFree(ts) && DotFree(us)
    ensures DotFree(ts + us)
  {
  }

  predicate DistinctTrails(ts: seq<Trail>) {
    forall i, j :: 0 <= i < j < |ts| ==> ts[i].segs != ts[j].segs
  }

  lemma {:induction false} TrailsDiffer(data: Json)
    requires IsDocument(data) && Plain(data)
    ensures DistinctTrails(Trails(data))
    decreases data, 1
  {
    if data.Obj? {
      FieldTrailsDiffer(data.fields);
    }
  }

  lemma {:induction false} FieldTrailsDiffer(fields: seq<Field>)
    requires DistinctKeys(fields) && PlainFields(fields)
    requires forall i :: 0 <= i < |fields| ==> IsDocument(fields[i].value)
    ensures DistinctTrails(FieldTrails(fields))
    decreases fields, 0
  {
    if fields != [] {
      var before, last := fields[..|fields| - 1], fields[|fields| - 1];
      FieldTrailsDiffer(before);
      TrailsDiffer(last.value);
      var ts := Prepend(last.key, Trails(last.value));
      forall i, j | 0 <= i < j < |ts|
        ensures ts[i].segs != ts[j].segs
      {
        assert ts[i].segs[1..] == Trails(last.value)[i].segs;
        assert ts[j].segs[1..] == Trails(last.value)[j].segs;
      }
      forall i | 0 <= i < |FieldTrails(before)|
        ensures FieldTrails(before)[i].segs[0] != last.key
      {
        var k := HeadIsKey(before, i);
      }
    }
  }

  lemma {:induction false} HeadIsKey(fields: seq<Field>, i: nat) returns (k: nat)
    requires i < |FieldTrails(fields)|
    ensures k < |fields| && FieldTrails(fields)[i].segs[0] == fields[k].key
    decreases fields
  {
    var before := fields[..|fields| - 1];
    if i < |FieldTrails(before)| {
      k := HeadIsKey(before, i);
    } else {
      k := |fields| - 1;
    }
  }

  lemma {:induction false} FieldTrailsSnoc(fields: seq<Field>, last: Field)
    ensures FieldTrails(fields + [last]) == FieldTrails(fields) + Prepend(last.key, Trails(last.value))
  {
    assert (fields + [last])[..|fields|] == fields;
  }

  lemma {:induction false} FieldTrailsFront(first: Field, rest: seq<Field>)
    ensures FieldTrails([first] + rest) == Prepend(first.key, Trails(first.value)) + FieldTrails(rest)
    decreases |rest|
  {
    if rest == [] {
      SingleFieldTrails(first);
      assert [first] + rest == [first];
    } else {
      var before, last := rest[..|rest| - 1], rest[|rest| - 1];
      FieldTrailsFront(first, before);
      FieldTrailsMiddle(first, before, last);
      assert before + [last] == rest;
    }
  }

  lemma {:induction false} SingleFieldTrails(first: Field)
    ensures FieldTrails([first]) == Prepend(first.key, Trails(first.value))
  {
    FieldTrailsSnoc([], first);
    assert [] + [first] == [first];
  }

  lemma {:induction false} FieldTrailsMiddle(first: Field, before: seq<Field>, last: Field)
    requires FieldTrails([first] + before) == Prepend(first.key, Trails(first.value)) + FieldTrails(before)
    ensures FieldTrails([first] + (before + [last])) ==
            Prepend(first.key, Trails(first.value)) + FieldTrails(before + [last])
  {
    FieldTrailsSnoc([first] + before, last);
    FieldTrailsSnoc(before, last);
    assert [first] + before + [last] == [first] + (before + [last]);
  }

  // ---- Forward: plain payloads are rebuilt --------------------------------------------------

  /** The fields of a plain document. */
  predicate PlainParts(fields: seq<Field>) {
    DistinctKeys(fields) && PlainFields(fields) && forall i :: 0 <= i < |fields| ==> IsDocument(fields[i].value)
  }

  lemma {:induction false} PartsOfPlain(fields: seq<Field>)
    requires PlainParts(fields) && fields != []
    ensures PlainParts(fields[1..])
    ensures fields[0].value.Obj? ==> PlainParts(fields[0].value.fields)
    ensures !fields[0].value.Obj? ==> fields[0].value.Leaf?
  {
  }

  lemma {:induction false} RebuildTrails(fields: seq<Field>)
    requires PlainParts(fields)
    ensures Rebuild(FieldTrails(fields)) == fields
    decreases fields
  {
    if fields != [] {
      var first, rest, own := fields[0], fields[1..], Trails(fields[0].value);
      PartsOfPlain(fields);
      FirstGroup(fields);
      RebuildGroup(FieldTrails(fields), first.key, own);
      if first.value.Obj? {
        RebuildTrails(first.value.fields);
      } else {
        assert !Pathed(own);
      }
      RebuildTrails(rest);
    }
  }

  /** The first group of trails is rebuilt into the first field. */
  lemma {:induction false} RebuildGroup(ts: seq<Trail>, key: string, own: seq<Trail>)
    requires Pathed(ts) && own != [] && |own| <= |ts| && ts[0].segs[0] == key && Span(ts, key) == |own|
    requires ts[..|own|] == Prepend(key, own)
    ensures Rebuild(ts) ==
            [Field(key, if Pathed(own) then Obj(Rebuild(own)) else Leaf(own[0].value))] + Rebuild(ts[|own|..])
  {
    TailsOfPrepend(key, own);
  }

  /** The trails of the first field are the first group, and the others follow. */
  lemma {:induction false} FirstGroup(fields: seq<Field>)
    requires fields != [] && DistinctKeys(fields) && PlainFields(fields)
    ensures var ts, first, own := FieldTrails(fields), fields[0], Trails(fields[0].value);
            && own != [] && |own| <= |ts| && Span(ts, first.key) == |own| && ts[0].segs[0] == first.key
            && ts[..|own|] == Prepend(first.key, own) && ts[|own|..] == FieldTrails(fields[1..])
  {
    var ts, first, rest, own := FieldTrails(fields), fields[0], fields[1..], Trails(fields[0].value);
    assert fields == [first] + rest;
    FieldTrailsFront(first, rest);
    TrailsAreDotFree(first.value);
    if rest != [] {
      FieldTrailsAreDotFree(rest);
      var k := HeadIsKey(rest, 0);
      assert FieldTrails(rest)[0] == ts[|own|];
    }
    SpanIs(ts, first.key, |own|, 0);
  }

  lemma {:induction false} SpanIs(ts: seq<Trail>, key: string, n: nat, from: nat)
    requires Pathed(ts) && from <= n <= |ts|
    requires forall i :: from <= i < n ==> ts[i].segs[0] == key
    requires n < |ts| ==> ts[n].segs[0] != key
    ensures Span(ts, key, from) == n
    decreases n - from
  {
    if from < n {
      SpanIs(ts, key, n, from + 1);
    }
  }

  lemma {:induction false} TailsOfPrepend(key: string, ts: seq<Trail>)
    ensures Tails(Prepend(key, ts)) == ts
  {
    forall i | 0 <= i < |ts|
      ensures Tails(Prepend(key, ts))[i] == ts[i]
    {
      assert Prepend(key, ts)[i].segs[1..] == ts[i].segs;
    }
  }

  lemma {:induction false} ParseRendered(ts: seq<Trail>)
    requires Pathed(ts) && DotFree(ts)
    ensures Parse(RenderedTop(ts)) == ts
    ensures DistinctTrails(ts) ==> DistinctPaths(RenderedTop(ts))
  {
    forall i | 0 <= i < |ts|
      ensures Split(Dotted(ts[i].segs)) == ts[i].segs
    {
      SplitDotted(ts[i].segs);
    }
    var es := RenderedTop(ts);
    if DistinctTrails(ts) {
      forall i, j | 0 <= i < j < |es|
        ensures es[i].path != es[j].path
      {
        assert Split(es[i].path) == ts[i].segs && Split(es[j].path) == ts[j].segs;
      }
    }
  }

  lemma {:induction false} PlainRoundTrips(fields: seq<Field>)
    requires IsDocument(Obj(fields)) && PlainFields(fields) && NamedFields(fields)
    ensures Unflatten(Collect(Leaves(Obj(fields), ""))) == Obj(fields)
  {
    var ts := FieldTrails(fields);
    TopLeavesAreTrails(fields);
    FieldTrailsAreDotFree(fields);
    FieldTrailsDiffer(fields);
    ParseRendered(ts);
    CollectDistinct(RenderedTop(ts));
    RebuildTrails(fields);
  }

  // ---- Converse: only plain payloads are rebuilt --------------------------------------------

  lemma {:induction false} RebuiltIsPlain(ts: seq<Trail>)
    requires Pathed(ts) && DotFree(ts)
    ensures PlainFields(Rebuild(ts))
    decreases Weight(ts)
  {
    if ts != [] {
      var key := ts[0].segs[0];
      var n := Span(ts, key);
      var inner := Tails(ts[..n]);
      WeightSplits(ts, n);
      WeightOfTails(ts[..n]);
      if Pathed(inner) {
        RebuiltIsPlain(inner);
      }
      RebuiltIsPlain(ts[n..]);
    }
  }

  lemma {:induction false} RebuiltKey(ts: seq<Trail>, i: nat) returns (j: nat)
    requires Pathed(ts) && i < |Rebuild(ts)|
    ensures j < |ts| && Rebuild(ts)[i].key == ts[j].segs[0]
    decreases |ts|
  {
    var n := Span(ts, ts[0].segs[0]);
    if i == 0 {
      j := 0;
    } else {
      var k := RebuiltKey(ts[n..], i - 1);
      j := n + k;
    }
  }

  predicate Starts(path: string) {
    path != "" && path[0] != '.'
  }

  lemma {:induction false} LeavesStart(data: Json, prefix: string, x: Entry)
    requires Plain(data) && x in Leaves(data, prefix) && (prefix == "" || Starts(prefix))
    ensures Starts(x.path)
    decreases data, 1
  {
    if data.Obj? {
      FieldLeavesStart(data.fields, prefix, x);
    }
  }

  lemma {:induction false} FieldLeavesStart(fields: seq<Field>, prefix: string, x: Entry)
    requires PlainFields(fields) && x in FieldLeaves(fields, prefix) && (prefix == "" || Starts(prefix))
    ensures Starts(x.path)
    decreases fields, 0
  {
    var last := fields[|fields| - 1];
    if x in Leaves(last.value, Under(prefix, last.key)) {
      LeavesStart(last.value, Under(prefix, last.key), x);
    } else {
      FieldLeavesStart(fields[..|fields| - 1], prefix, x);
    }
  }

  lemma {:induction false} RoundTripIsPlain(fields: seq<Field>)
    requires Unflatten(Collect(Leaves(Obj(fields), ""))) == Obj(fields)
    ensures PlainFields(fields) && NamedFields(fields)
  {
    var d := Collect(Leaves(Obj(fields), ""));
    var ts := Parse(d);
    assert DotFree(ts);
    RebuiltIsPlain(ts);
    forall i | 0 <= i < |fields|
      ensures fields[i].key != ""
    {
      var j := RebuiltKey(ts, i);
      CollectedWasAssigned(Leaves(Obj(fields), ""), d[j]);
      FieldLeavesStart(fields, "", d[j]);
    }
  }

  /**
   * Unflatten rebuilds a payload from its flattened form exactly when the payload has no list, no
   * empty nested object, no dot in any key and no empty top-level key.
   */
  lemma {:induction false} RoundTrip(fields: seq<Field>)
    requires IsDocument(Obj(fields))
    ensures Unflatten(Collect(Leaves(Obj(fields), ""))) == Obj(fields) <==> PlainFields(fields) && NamedFields(fields)
  {
    if PlainFields(fields) && NamedFields(fields) {
      PlainRoundTrips(fields);
    }
    if Unflatten(Collect(Leaves(Obj(fields), ""))) == Obj(fields) {
      RoundTripIsPlain(fields);
    }
  }

  // ---- What the flattened form determines -----------------------------------------------------

  /** Among those payloads the flattened form determines the payload. */
  lemma {:induction false} PlainIsDetermined(fields: seq<Field>, fields': seq<Field>)
    requires IsDocument(Obj(fields)) && PlainFields(fields) && NamedFields(fields)
    requires IsDocument(Obj(fields')) && PlainFields(fields') && NamedFields(fields')
    requires Collect(Leaves(Obj(fields), "")) == Collect(Leaves(Obj(fields'), ""))
    ensures fields == fields'
  {
    RoundTrip(fields);
    RoundTrip(fields');
  }

  /** A key that is longer than those of the fields. */
  function UnusedKey(fields: seq<Field>): (key: string)
    ensures key != "" && forall i :: 0 <= i < |fields| ==> |fields[i].key| < |key|
  {
    if fields == [] then "k" else UnusedKey(fields[..|fields| - 1]) + fields[|fields| - 1].key + "k"
  }

  lemma {:induction false} AddedFieldFits(fields: seq<Field>, last: Field)
    requires IsDocument(Obj(fields)) && IsDocument(last.value) && last.key != ""
    requires forall i :: 0 <= i < |fields| ==> fields[i].key != last.key
    ensures IsDocument(Obj(fields + [last])) && (NamedFields(fields) ==> NamedFields(fields + [last]))
  {
  }

  lemma {:induction false} EmptyListLeavesNoTrace(fields: seq<Field>, key: string)
    ensures FieldLeaves(fields + [Field(key, Arr([]))], "") == FieldLeaves(fields, "")
  {
    var fields' := fields + [Field(key, Arr([]))];
    assert fields'[..|fields|] == fields;
    assert FieldLeaves(fields', "") == FieldLeaves(fields, "") + Leaves(Arr([]), key);
  }

  /**
   * Among all payloads it determines none: an empty list leaves no trace, so no function at all
   * rebuilds every payload, not even every one whose top-level keys are non-empty.
   */
  lemma {:induction false} NothingIsDetermined(fields: seq<Field>) returns (fields': seq<Field>)
    requires IsDocument(Obj(fields))
    ensures IsDocument(Obj(fields')) && fields' != fields && (NamedFields(fields) ==> NamedFields(fields'))
    ensures Collect(Leaves(Obj(fields'), "")) == Collect(Leaves(Obj(fields), ""))
  {
    fields' := fields + [Field(UnusedKey(fields), Arr([]))];
    EmptyListLeavesNoTrace(fields, UnusedKey(fields));
    AddedFieldFits(fields, Field(UnusedKey(fields), Arr([])));
    assert |fields'| == |fields| + 1;
  }
}
