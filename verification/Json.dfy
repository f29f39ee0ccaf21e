/** JSON documents and insertion-ordered dictionaries, as Python's parser and `dict` give them. */
module Json {
  import opened Common

  datatype Scalar = Null | Bool(b: bool) | Int(i: int) | Float(r: real) | Str(s: string)

  datatype Json = Leaf(value: Scalar) | Arr(items: seq<Json>) | Obj(fields: seq<Field>)

  datatype Field = Field(key: string, value: Json)

  datatype Entry = Entry(path: string, value: Scalar)

  /** A dictionary in insertion order. */
  type Dict = seq<Entry>

  predicate DistinctPaths(d: Dict) {
    forall i, j :: 0 <= i < j < |d| ==> d[i].path != d[j].path
  }

  function IndexIn(d: Dict, path: string): (k: nat)
    ensures k <= |d|
    ensures k < |d| ==> d[k].path == path
    ensures k == |d| ==> forall i :: 0 <= i < |d| ==> d[i].path != path
  {
    if d == [] then 0
    else if Last(d).path == path then |d| - 1
    else
      var k := IndexIn(Front(d), path);
      if k < |d| - 1 then k else |d|
  }

  predicate HasPath(d: Dict, path: string) {
    exists i :: 0 <= i < |d| && d[i].path == path
  }

  /** `d[path] = value`: an existing key keeps its position. */
  function Set(d: Dict, path: string, value: Scalar): (d': Dict)
    ensures HasPath(d', path)
  {
    var k := IndexIn(d, path);
    if k < |d| then
      assert d[k := Entry(path, value)][k].path == path;
      d[k := Entry(path, value)]
    else
      assert (d + [Entry(path, value)])[|d|].path == path;
      d + [Entry(path, value)]
  }

  /** `d.update(e)`. */
  function Update(d: Dict, e: Dict): Dict {
    if e == [] then d else Set(Update(d, Front(e)), Last(e).path, Last(e).value)
  }

  /** The dictionary built by assigning the entries one after the other. */
  function Collect(es: seq<Entry>): Dict {
    Update([], es)
  }

  lemma {:induction false} SetKeepsDistinct(d: Dict, path: string, value: Scalar)
    requires DistinctPaths(d)
    ensures DistinctPaths(Set(d, path, value))
  {
  }

  lemma {:induction false} UpdateKeepsDistinct(d: Dict, e: seq<Entry>)
    requires DistinctPaths(d)
    ensures DistinctPaths(Update(d, e))
  {
    if e != [] {
      UpdateKeepsDistinct(d, Front(e));
      SetKeepsDistinct(Update(d, Front(e)), Last(e).path, Last(e).value);
    }
  }

  lemma {:induction false} IndexInIs(d: Dict, path: string, k: nat)
    requires DistinctPaths(d) && k < |d| && d[k].path == path
    ensures IndexIn(d, path) == k
  {
  }

  /** A later assignment to the same key replaces an earlier one. */
  lemma {:induction false} SetSet(d: Dict, path: string, v: Scalar, w: Scalar)
    requires DistinctPaths(d)
    ensures Set(Set(d, path, v), path, w) == Set(d, path, w)
  {
    var k := IndexIn(d, path);
    if k < |d| {
      var d' := d[k := Entry(path, v)];
      SetAt(d, path, v, k);
      SetAt(d', path, w, k);
      SetAt(d, path, w, k);
      assert d'[k := Entry(path, w)] == d[k := Entry(path, w)];
    } else {
      var d' := d + [Entry(path, v)];
      SetNew(d, path, v);
      SetAt(d', path, w, |d|);
      SetNew(d, path, w);
      assert d'[|d| := Entry(path, w)] == d + [Entry(path, w)];
    }
  }

  /** An assignment to a present key keeps its position, one to a new key goes to the end. */
  lemma {:induction false} SetAt(d: Dict, path: string, v: Scalar, k: nat)
    requires DistinctPaths(d) && k < |d| && d[k].path == path
    ensures Set(d, path, v) == d[k := Entry(path, v)]
  {
    IndexInIs(d, path, k);
  }

  lemma {:induction false} SetNew(d: Dict, path: string, v: Scalar)
    requires forall i :: 0 <= i < |d| ==> d[i].path != path
    ensures Set(d, path, v) == d + [Entry(path, v)]
  {
  }

  /** Overwriting a present key commutes with assigning another one. */
  lemma {:induction false} SetCommutes(d: Dict, p: string, v: Scalar, q: string, w: Scalar)
    requires DistinctPaths(d) && p != q && HasPath(d, p)
    ensures Set(Set(d, p, v), q, w) == Set(Set(d, q, w), p, v)
  {
    var i, j := IndexIn(d, p), IndexIn(d, q);
    SetKeepsDistinct(d, p, v);
    SetKeepsDistinct(d, q, w);
    IndexInIs(Set(d, q, w), p, i);
    if j < |d| {
      IndexInIs(Set(d, p, v), q, j);
    } else {
      assert IndexIn(Set(d, p, v), q) == |d|;
    }
  }

  lemma {:induction false} UpdateHas(d: Dict, e: seq<Entry>, path: string)
    ensures HasPath(Update(d, e), path) <==> HasPath(d, path) || HasPath(e, path)
  {
    if e != [] {
      UpdateHas(d, Front(e), path);
      SetHas(Update(d, Front(e)), Last(e).path, Last(e).value, path);
      SnocHas(Front(e), Last(e), path);
      assert e == Front(e) + [Last(e)];
    }
  }

  lemma {:induction false} SnocHas(d: Dict, x: Entry, path: string)
    ensures HasPath(d + [x], path) <==> HasPath(d, path) || x.path == path
  {
    var d' := d + [x];
    assert d'[|d|] == x;
    if HasPath(d, path) {
      var i :| 0 <= i < |d| && d[i].path == path;
      assert d'[i].path == path;
    }
  }

  lemma {:induction false} SetHas(d: Dict, p: string, v: Scalar, path: string)
    ensures HasPath(Set(d, p, v), path) <==> HasPath(d, path) || p == path
  {
    var k := IndexIn(d, p);
    if k < |d| {
      var d' := d[k := Entry(p, v)];
      if HasPath(d, path) {
        var i :| 0 <= i < |d| && d[i].path == path;
        assert d'[i].path == path;
      }
      if HasPath(d', path) {
        var i :| 0 <= i < |d'| && d'[i].path == path;
        assert d[i].path == path;
      }
    } else {
      SnocHas(d, Entry(p, v), path);
    }
  }

  lemma {:induction false} UpdateSet(d: Dict, e: Dict, path: string, v: Scalar)
    requires DistinctPaths(d) && DistinctPaths(e)
    ensures Update(d, Set(e, path, v)) == Set(Update(d, e), path, v)
  {
    var k := IndexIn(e, path);
    if k == |e| {
      assert Front(e + [Entry(path, v)]) == e;
    } else {
      var e' := e[k := Entry(path, v)];
      var U := Update(d, Front(e));
      UpdateKeepsDistinct(d, Front(e));
      if k == |e| - 1 {
        assert Front(e') == Front(e);
        SetSet(U, path, Last(e).value, v);
      } else {
        IndexInIs(Front(e), path, k);
        assert Front(e') == Front(e)[k := Entry(path, v)];
        UpdateSet(d, Front(e), path, v);
        assert HasPath(Front(e), path) by { assert Front(e)[k].path == path; }
        UpdateHas(d, Front(e), path);
        SetCommutes(U, path, v, Last(e).path, Last(e).value);
      }
    }
  }

  /** Updating with a collected dictionary is the same as assigning its entries one by one. */
  lemma {:induction false} UpdateCollect(d: Dict, es: seq<Entry>)
    requires DistinctPaths(d)
    ensures Update(d, Collect(es)) == Update(d, es)
  {
    if es != [] {
      UpdateCollect(d, Front(es));
      UpdateKeepsDistinct([], Front(es));
      UpdateSet(d, Collect(Front(es)), Last(es).path, Last(es).value);
    }
  }

  lemma {:induction false} UpdateSnoc(d: Dict, es: seq<Entry>, x: Entry)
    ensures Update(d, es + [x]) == Set(Update(d, es), x.path, x.value)
  {
    assert Front(es + [x]) == es;
  }

  lemma {:induction false} UpdateConcat(d: Dict, es: seq<Entry>, fs: seq<Entry>)
    ensures Update(d, es + fs) == Update(Update(d, es), fs)
  {
    if fs == [] {
      assert es + fs == es;
    } else {
      UpdateConcat(d, es, Front(fs));
      var all := es + fs;
      assert Front(all) == es + Front(fs) && Last(all) == Last(fs);
    }
  }

  /** Entries with pairwise distinct paths are collected as they are. */
  lemma {:induction false} CollectDistinct(es: seq<Entry>)
    requires DistinctPaths(es)
    ensures Collect(es) == es
  {
    if es != [] {
      CollectDistinct(Front(es));
      assert es == Front(es) + [Last(es)];
    }
  }

  /** The stored value of a path is the one assigned last. */
  lemma {:induction false} CollectLastWins(es: seq<Entry>, k: nat)
    requires k < |es| && forall j :: k < j < |es| ==> es[j].path != es[k].path
    ensures es[k] in Collect(es)
  {
    if k == |es| - 1 {
      var U, path := Collect(Front(es)), es[k].path;
      var d := Set(U, path, es[k].value);
      assert d[IndexIn(U, path)] == es[k];
    } else {
      CollectLastWins(Front(es), k);
      var U, x := Collect(Front(es)), Last(es);
      var i :| 0 <= i < |U| && U[i] == es[k];
      assert Set(U, x.path, x.value)[i] == es[k];
    }
  }

  /** Nothing is stored that was not assigned. */
  lemma {:induction false} CollectedWasAssigned(es: seq<Entry>, x: Entry)
    requires x in Collect(es)
    ensures x in es
  {
    var U := Collect(Front(es));
    if x in U {
      CollectedWasAssigned(Front(es), x);
    } else {
      assert x == Last(es);
    }
  }

  lemma {:induction false} SetLookup(d: Dict, p: string, v: Scalar, x: Entry)
    requires DistinctPaths(d)
    ensures x in Set(d, p, v) <==> if x.path == p then x.value == v else x in d
  {
    var k := IndexIn(d, p);
    if k < |d| {
      var d' := d[k := Entry(p, v)];
      assert d'[k] == Entry(p, v);
      if x in d && x.path != p {
        var i :| 0 <= i < |d| && d[i] == x;
        assert d'[i] == x;
      }
    } else {
      assert (d + [Entry(p, v)])[|d|] == Entry(p, v);
    }
  }

  /** After an update a path has the new dictionary's value if it has one there, and else its old one. */
  lemma {:induction false} UpdateLookup(d: Dict, e: Dict, x: Entry)
    requires DistinctPaths(d) && DistinctPaths(e)
    ensures x in Update(d, e) <==> if HasPath(e, x.path) then x in e else x in d
  {
    if e != [] {
      var before, last := Front(e), Last(e);
      assert e == before + [last];
      UpdateLookup(d, before, x);
      UpdateKeepsDistinct(d, before);
      SetLookup(Update(d, before), last.path, last.value, x);
      SnocHas(before, last, x.path);
      if x.path == last.path {
        assert e[|e| - 1] == last;
      }
    }
  }
}
