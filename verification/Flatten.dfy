/**
 * Flattening of JSON payloads into dotted paths: tengen/udm/mappings.py, flatten.
 * List indices collapse to `[]`; within one list the first scalar stands for all of them, and an
 * assignment to a path that is already there replaces its value.
 */
module Flatten {
  import opened Common
  import opened Json

  function Under(prefix: string, key: string): string {
    if prefix != "" then prefix + "." + key else key
  }

  function ItemPath(prefix: string): string {
    prefix + "[]"
  }

  /**
   * The assignments flattening makes, in document order: every scalar leaf with its rendered path,
   * except that of the scalars directly in one list only the first is kept.
   */
  function Leaves(data: Json, prefix: string): seq<Entry> {
    match data
    case Leaf(v) => if prefix != "" then [Entry(prefix, v)] else []
    case Obj(fields) => FieldLeaves(fields, prefix)
    case Arr(items) => ItemLeaves(items, ItemPath(prefix))
  }

  function FieldLeaves(fields: seq<Field>, prefix: string): seq<Entry> {
    if fields == [] then []
    else
      var last := fields[|fields| - 1];
      FieldLeaves(fields[..|fields| - 1], prefix) + Leaves(last.value, Under(prefix, last.key))
  }

  function ItemLeaves(items: seq<Json>, path: string): seq<Entry> {
    if items == [] then []
    else
      var before, last := items[..|items| - 1], items[|items| - 1];
      ItemLeaves(before, path)
      + if last.Leaf? && HasScalar(before) then [] else Leaves(last, path)
  }

  predicate HasScalar(items: seq<Json>) {
    exists i :: 0 <= i < |items| && items[i].Leaf?
  }

  // ---- Nested leaves never collide with the path of the list itself -------------------------

  lemma {:induction false} LeavesAreLonger(data: Json, prefix: string, x: Entry)
    requires x in Leaves(data, prefix)
    ensures |prefix| <= |x.path| && (!data.Leaf? && prefix != "" ==> |prefix| < |x.path|)
    decreases data, 1
  {
    match data
    case Leaf(v) =>
    case Obj(fields) => FieldLeavesAreLonger(fields, prefix, x);
    case Arr(items) => ItemLeavesAreLonger(items, ItemPath(prefix), x);
  }

  lemma {:induction false} FieldLeavesAreLonger(fields: seq<Field>, prefix: string, x: Entry)
    requires x in FieldLeaves(fields, prefix)
    ensures |prefix| <= |x.path| && (prefix != "" ==> |prefix| < |x.path|)
    decreases fields, 0
  {
    var last := fields[|fields| - 1];
    if x in Leaves(last.value, Under(prefix, last.key)) {
      LeavesAreLonger(last.value, Under(prefix, last.key), x);
    } else {
      FieldLeavesAreLonger(fields[..|fields| - 1], prefix, x);
    }
  }

  lemma {:induction false} ItemLeavesAreLonger(items: seq<Json>, path: string, x: Entry)
    requires x in ItemLeaves(items, path)
    ensures |path| <= |x.path|
    decreases items, 0
  {
    var last := items[|items| - 1];
    if x in Leaves(last, path) {
      LeavesAreLonger(last, path, x);
    } else {
      ItemLeavesAreLonger(items[..|items| - 1], path, x);
    }
  }

  /** The path of the list itself is assigned exactly when one of its items is a scalar. */
  lemma {:induction false} OwnPath(items: seq<Json>, path: string)
    requires path != ""
    ensures HasPath(ItemLeaves(items, path), path) <==> HasScalar(items)
    decreases items
  {
    if items != [] {
      var before, last := items[..|items| - 1], items[|items| - 1];
      OwnPath(before, path);
      var es := if last.Leaf? && HasScalar(before) then [] else Leaves(last, path);
      ConcatHas(ItemLeaves(before, path), es, path);
      if HasPath(es, path) && !last.Leaf? {
        var i :| 0 <= i < |es| && es[i].path == path;
        LeavesAreLonger(last, path, es[i]);
        assert false;
      }
      if last.Leaf? && !HasScalar(before) {
        assert es[0].path == path;
      }
      ScalarSnoc(before, last);
      assert items == before + [last];
    }
  }

  lemma {:induction false} ScalarSnoc(before: seq<Json>, last: Json)
    ensures HasScalar(before + [last]) <==> HasScalar(before) || last.Leaf?
  {
    var all := before + [last];
    assert all[|before|] == last;
    if HasScalar(before) {
      var i :| 0 <= i < |before| && before[i].Leaf?;
      assert all[i].Leaf?;
    }
  }

  lemma {:induction false} ConcatHas(d: seq<Entry>, e: seq<Entry>, path: string)
    ensures HasPath(d + e, path) <==> HasPath(d, path) || HasPath(e, path)
  {
    var all := d + e;
    if HasPath(d, path) {
      var i :| 0 <= i < |d| && d[i].path == path;
      assert all[i].path == path;
    }
    if HasPath(e, path) {
      var i :| 0 <= i < |e| && e[i].path == path;
      assert all[|d| + i].path == path;
    }
    if HasPath(all, path) {
      var i :| 0 <= i < |all| && all[i].path == path;
      if i < |d| {
        assert d[i].path == path;
      } else {
        assert e[i - |d|].path == path;
      }
    }
  }

  // ---- The recursive flattener --------------------------------------------------------------

  method FlattenData(data: Json, prefix: string) returns (out: Dict)
    ensures out == Collect(Leaves(data, prefix))
    decreases data
  {
    out := [];
    match data
    case Obj(fields) =>
      for i := 0 to |fields|
        invariant out == Collect(FieldLeaves(fields[..i], prefix))
      {
        var path := if prefix != "" then prefix + "." + fields[i].key else fields[i].key;
        var inner := FlattenData(fields[i].value, path);
        FieldStep(fields, i, prefix);
        out := Update(out, inner);
      }
      assert fields[..|fields|] == fields;
    case Arr(items) =>
      var path := prefix + "[]";
      for i := 0 to |items|
        invariant out == Collect(ItemLeaves(items[..i], path))
      {
        var item := items[i];
        ItemStep(items, i, path);
        if !item.Leaf? {
          var inner := FlattenData(item, path);
          out := Update(out, inner);
        } else {
          if IndexIn(out, path) == |out| {
            out := Set(out, path, item.value);
          }
        }
      }
      assert items[..|items|] == items;
    case Leaf(v) =>
      if prefix != "" {
        UpdateSnoc([], [], Entry(prefix, v));
        assert [] + [Entry(prefix, v)] == Leaves(data, prefix);
        out := Set(out, prefix, v);
      }
  }

  lemma {:induction false} FieldStep(fields: seq<Field>, i: nat, prefix: string)
    requires i < |fields|
    ensures Update(Collect(FieldLeaves(fields[..i], prefix)),
                   Collect(Leaves(fields[i].value, Under(prefix, fields[i].key)))) ==
            Collect(FieldLeaves(fields[..i + 1], prefix))
  {
    assert fields[..i + 1][..i] == fields[..i];
    var before, here := FieldLeaves(fields[..i], prefix), Leaves(fields[i].value, Under(prefix, fields[i].key));
    UpdateKeepsDistinct([], before);
    UpdateCollect(Collect(before), here);
    UpdateConcat([], before, here);
  }

  lemma {:induction false} ItemStep(items: seq<Json>, i: nat, path: string)
    requires i < |items| && path != ""
    ensures var before := Collect(ItemLeaves(items[..i], path));
            var after := Collect(ItemLeaves(items[..i + 1], path));
            && (!items[i].Leaf? ==> after == Update(before, Collect(Leaves(items[i], path))))
            && (items[i].Leaf? ==>
                  after == if IndexIn(before, path) == |before| then Set(before, path, items[i].value) else before)
  {
    assert items[..i + 1][..i] == items[..i];
    var before := ItemLeaves(items[..i], path);
    var here := Leaves(items[i], path);
    UpdateKeepsDistinct([], before);
    OwnPath(items[..i], path);
    UpdateHas([], before, path);
    if !items[i].Leaf? {
      UpdateCollect(Collect(before), here);
      UpdateConcat([], before, here);
    } else if HasScalar(items[..i]) {
      assert before + [] == before;
    } else {
      UpdateSnoc([], before, here[0]);
    }
  }

  // ---- Exactness: the entries are the scalar leaves of the document -------------------------

  /** One step into a document. */
  datatype Seg = Key(key: string) | Index(index: nat)

  /** v is the scalar found by following loc from data. */
  predicate LeafAt(data: Json, loc: seq<Seg>, v: Scalar)
    decreases loc
  {
    match data
    case Leaf(w) => loc == [] && v == w
    case Obj(fields) =>
      && loc != [] && loc[0].Key?
      && exists i :: 0 <= i < |fields| && fields[i].key == loc[0].key && LeafAt(fields[i].value, loc[1..], v)
    case Arr(items) =>
      && loc != [] && loc[0].Index? && loc[0].index < |items|
      && LeafAt(items[loc[0].index], loc[1..], v)
  }

  /** The path of a location, with list indices collapsed. */
  function Render(prefix: string, loc: seq<Seg>): string
    decreases loc
  {
    if loc == [] then prefix
    else
      match loc[0]
      case Key(key) => Render(Under(prefix, key), loc[1..])
      case Index(_) => Render(ItemPath(prefix), loc[1..])
  }

  /** Every entry stands for a scalar leaf of the document, with its value. */
  lemma {:induction false} LeavesSound(data: Json, prefix: string, x: Entry) returns (loc: seq<Seg>)
    requires x in Leaves(data, prefix)
    ensures LeafAt(data, loc, x.value) && Render(prefix, loc) == x.path
    decreases data, 1
  {
    match data
    case Leaf(v) =>
      loc := [];
    case Obj(fields) =>
      var i, rest := FieldLeavesSound(fields, prefix, x);
      loc := [Key(fields[i].key)] + rest;
      assert loc[1..] == rest;
    case Arr(items) =>
      var i, rest := ItemLeavesSound(items, ItemPath(prefix), x);
      loc := [Index(i)] + rest;
      assert loc[1..] == rest;
  }

  lemma {:induction false} FieldLeavesSound(fields: seq<Field>, prefix: string, x: Entry)
    returns (i: nat, rest: seq<Seg>)
    requires x in FieldLeaves(fields, prefix)
    ensures i < |fields| && LeafAt(fields[i].value, rest, x.value)
    ensures Render(Under(prefix, fields[i].key), rest) == x.path
    decreases fields, 0
  {
    var last := fields[|fields| - 1];
    if x in Leaves(last.value, Under(prefix, last.key)) {
      i := |fields| - 1;
      rest := LeavesSound(last.value, Under(prefix, last.key), x);
    } else {
      i, rest := FieldLeavesSound(fields[..|fields| - 1], prefix, x);
    }
  }

  lemma {:induction false} ItemLeavesSound(items: seq<Json>, path: string, x: Entry)
    returns (i: nat, rest: seq<Seg>)
    requires x in ItemLeaves(items, path)
    ensures i < |items| && LeafAt(items[i], rest, x.value) && Render(path, rest) == x.path
    decreases items, 0
  {
    var last := items[|items| - 1];
    if x in Leaves(last, path) {
      i := |items| - 1;
      rest := LeavesSound(last, path, x);
    } else {
      i, rest := ItemLeavesSound(items[..|items| - 1], path, x);
    }
  }

  /** Every scalar leaf with a non-empty rendered path has an entry for that path. */
  lemma {:induction false} LeavesComplete(data: Json, prefix: string, loc: seq<Seg>, v: Scalar)
    requires LeafAt(data, loc, v) && Render(prefix, loc) != ""
    ensures HasPath(Leaves(data, prefix), Render(prefix, loc))
    decreases data, 1
  {
    match data
    case Leaf(w) =>
      assert Leaves(data, prefix)[0].path == prefix;
    case Obj(fields) =>
      var i :| 0 <= i < |fields| && fields[i].key == loc[0].key && LeafAt(fields[i].value, loc[1..], v);
      FieldLeavesComplete(fields, prefix, i, loc[1..], v);
    case Arr(items) =>
      ItemLeavesComplete(items, ItemPath(prefix), loc[0].index, loc[1..], v);
  }

  lemma {:induction false} FieldLeavesComplete(fields: seq<Field>, prefix: string, i: nat, rest: seq<Seg>, v: Scalar)
    requires i < |fields| && LeafAt(fields[i].value, rest, v)
    requires Render(Under(prefix, fields[i].key), rest) != ""
    ensures HasPath(FieldLeaves(fields, prefix), Render(Under(prefix, fields[i].key), rest))
    decreases fields, 0
  {
    var before, last := fields[..|fields| - 1], fields[|fields| - 1];
    var path := Render(Under(prefix, fields[i].key), rest);
    if i == |fields| - 1 {
      LeavesComplete(last.value, Under(prefix, last.key), rest, v);
    } else {
      FieldLeavesComplete(before, prefix, i, rest, v);
    }
    ConcatHas(FieldLeaves(before, prefix), Leaves(last.value, Under(prefix, last.key)), path);
  }

  lemma {:induction false} ItemLeavesComplete(items: seq<Json>, path: string, i: nat, rest: seq<Seg>, v: Scalar)
    requires i < |items| && LeafAt(items[i], rest, v) && path != ""
    requires Render(path, rest) != ""
    ensures HasPath(ItemLeaves(items, path), Render(path, rest))
    decreases items, 0
  {
    var before, last := items[..|items| - 1], items[|items| - 1];
    var es := if last.Leaf? && HasScalar(before) then [] else Leaves(last, path);
    if i < |items| - 1 {
      ItemLeavesComplete(before, path, i, rest, v);
    } else if last.Leaf? && HasScalar(before) {
      OwnPath(before, path);
    } else {
      LeavesComplete(last, path, rest, v);
    }
    ConcatHas(ItemLeaves(before, path), es, Render(path, rest));
  }

  /** Some scalar leaf of the document renders to this non-empty path. */
  ghost predicate IsLeafPath(data: Json, path: string) {
    path != "" && exists loc, v :: LeafAt(data, loc, v) && Render("", loc) == path
  }

  /** The entry carries the path and the value of one scalar leaf of the document. */
  ghost predicate IsLeafEntry(data: Json, x: Entry) {
    exists loc :: LeafAt(data, loc, x.value) && Render("", loc) == x.path
  }

  /**
   * Flattening is exact on every document: a path is a key of the result exactly when it is the
   * non-empty rendered path of a scalar leaf, and every stored value is that of such a leaf.
   */
  lemma {:induction false} FlattenIsExact(data: Json, path: string, x: Entry)
    ensures HasPath(Collect(Leaves(data, "")), path) <==> IsLeafPath(data, path)
    ensures x in Collect(Leaves(data, "")) ==> IsLeafEntry(data, x)
  {
    UpdateHas([], Leaves(data, ""), path);
    KeysAreLeafPaths(data, path);
    if x in Collect(Leaves(data, "")) {
      CollectedWasAssigned(Leaves(data, ""), x);
      var loc := LeavesSound(data, "", x);
    }
  }

  lemma {:induction false} KeysAreLeafPaths(data: Json, path: string)
    ensures HasPath(Leaves(data, ""), path) <==> IsLeafPath(data, path)
  {
    var es := Leaves(data, "");
    if HasPath(es, path) {
      var i :| 0 <= i < |es| && es[i].path == path;
      var loc := LeavesSound(data, "", es[i]);
      NoEmptyPath(data, "", es[i]);
    }
    if IsLeafPath(data, path) {
      var loc, v :| LeafAt(data, loc, v) && Render("", loc) == path;
      LeavesComplete(data, "", loc, v);
    }
  }

  lemma {:induction false} NoEmptyPath(data: Json, prefix: string, x: Entry)
    requires x in Leaves(data, prefix)
    ensures x.path != ""
    decreases data, 1
  {
    match data
    case Leaf(v) =>
    case Obj(fields) => NoEmptyFieldPath(fields, prefix, x);
    case Arr(items) => ItemLeavesAreLonger(items, ItemPath(prefix), x);
  }

  lemma {:induction false} NoEmptyFieldPath(fields: seq<Field>, prefix: string, x: Entry)
    requires x in FieldLeaves(fields, prefix)
    ensures x.path != ""
    decreases fields, 0
  {
    var last := fields[|fields| - 1];
    if x in Leaves(last.value, Under(prefix, last.key)) {
      NoEmptyPath(last.value, Under(prefix, last.key), x);
    } else {
      NoEmptyFieldPath(fields[..|fields| - 1], prefix, x);
    }
  }

  /** Among the scalars directly in one list the first one is stored. */
  lemma {:induction false} FirstScalarWins(items: seq<Json>, prefix: string, k: nat)
    requires k < |items| && items[k].Leaf? && !HasScalar(items[..k])
    ensures Entry(ItemPath(prefix), items[k].value) in Collect(Leaves(Arr(items), prefix))
  {
    var path := ItemPath(prefix);
    var es := ItemLeaves(items, path);
    var j := OneOwnEntry(items, path, k);
    CollectLastWins(es, j);
  }

  lemma {:induction false} OneOwnEntry(items: seq<Json>, path: string, k: nat) returns (j: nat)
    requires k < |items| && items[k].Leaf? && !HasScalar(items[..k]) && path != ""
    ensures j < |ItemLeaves(items, path)| && ItemLeaves(items, path)[j] == Entry(path, items[k].value)
    ensures forall i :: j < i < |ItemLeaves(items, path)| ==> ItemLeaves(items, path)[i].path != path
    decreases items
  {
    var before, last := items[..|items| - 1], items[|items| - 1];
    var es := ItemLeaves(before, path);
    if k == |items| - 1 {
      j := |es|;
    } else {
      assert before[..k] == items[..k];
      j := OneOwnEntry(before, path, k);
      assert before[k].Leaf?;
      if !last.Leaf? {
        forall x | x in Leaves(last, path)
          ensures x.path != path
        {
          LeavesAreLonger(last, path, x);
        }
      }
    }
  }

  // ---- Which of several leaves at one path is stored ------------------------------------------

  function Flattened(data: Json, prefix: string): Dict {
    Collect(Leaves(data, prefix))
  }

  /** A field written later in an object decides every path it has a leaf for. */
  lemma {:induction false} LaterFieldWins(fields: seq<Field>, last: Field, prefix: string, x: Entry)
    ensures var inner := Flattened(last.value, if prefix == "" then last.key else prefix + "." + last.key);
            x in Flattened(Obj(fields + [last]), prefix) <==>
            if HasPath(inner, x.path) then x in inner else x in Flattened(Obj(fields), prefix)
  {
    var all := fields + [last];
    FieldStep(all, |fields|, prefix);
    assert all[..|fields|] == fields && all[..|fields| + 1] == all;
    UpdateKeepsDistinct([], FieldLeaves(fields, prefix));
    UpdateKeepsDistinct([], Leaves(last.value, Under(prefix, last.key)));
    UpdateLookup(Flattened(Obj(fields), prefix), Flattened(last.value, Under(prefix, last.key)), x);
  }

  /** So does a later object or list in a list. */
  lemma {:induction false} LaterItemWins(items: seq<Json>, last: Json, prefix: string, x: Entry)
    requires !last.Leaf?
    ensures var inner := Flattened(last, prefix + "[]");
            x in Flattened(Arr(items + [last]), prefix) <==>
            if HasPath(inner, x.path) then x in inner else x in Flattened(Arr(items), prefix)
  {
    var all, path := items + [last], prefix + "[]";
    ItemStep(all, |items|, path);
    assert all[..|items|] == items && all[..|items| + 1] == all;
    UpdateKeepsDistinct([], ItemLeaves(items, path));
    UpdateKeepsDistinct([], Leaves(last, path));
    UpdateLookup(Flattened(Arr(items), prefix), Flattened(last, path), x);
  }

  /** A scalar in a list is stored under the list's own path, and only if no item before it is a scalar. */
  lemma {:induction false} ScalarItemFills(items: seq<Json>, v: Scalar, prefix: string, x: Entry)
    ensures x in Flattened(Arr(items + [Leaf(v)]), prefix) <==>
            x in Flattened(Arr(items), prefix) || (x == Entry(prefix + "[]", v) && !HasScalar(items))
  {
    var all, path := items + [Leaf(v)], prefix + "[]";
    ItemStep(all, |items|, path);
    assert all[..|items|] == items && all[..|items| + 1] == all;
    UpdateKeepsDistinct([], ItemLeaves(items, path));
    OwnPathStored(items, path);
    if !HasScalar(items) {
      SetLookup(Flattened(Arr(items), prefix), path, v, x);
    }
  }

  lemma {:induction false} OwnPathStored(items: seq<Json>, path: string)
    requires path != ""
    ensures var d := Collect(ItemLeaves(items, path));
            && (IndexIn(d, path) < |d| <==> HasScalar(items))
            && (!HasScalar(items) ==> forall x :: x in d ==> x.path != path)
  {
    var d := Collect(ItemLeaves(items, path));
    UpdateHas([], ItemLeaves(items, path), path);
    OwnPath(items, path);
    if HasScalar(items) {
      var i :| 0 <= i < |d| && d[i].path == path;
    } else {
      assert !HasPath(d, path);
    }
  }
}
