/**
 * When the resolver's cache shows the current route file, over every run of edits and requests:
 * tengen/n8n/route_resolver.py, _load and _reload_if_changed.
 */
module RouteFreshness {
  import opened Common
  import opened RouteResolver

  /** One version of the route file. */
  datatype File = File(mtime: real, doc: Doc)

  datatype World = World(file: File, cache: Cache)

  /** A request whose reading of the modification time may fail; its load sees one version of the file. */
  datatype Step = Edit(file: File) | Request(statOk: bool)

  function Stat(file: File, ok: bool): Option<real> {
    if ok then Some(file.mtime) else None
  }

  function Apply(w: World, step: Step): World {
    match step
    case Edit(file) => w.(file := file)
    case Request(ok) => w.(cache := Refreshed(w.cache, Stat(w.file, ok), w.file.doc, Some(w.file.mtime)))
  }

  /** Only these versions of the file ever exist. */
  predicate Allowed(versions: set<File>, step: Step) {
    step.Edit? ==> step.file in versions
  }

  /** A resolver exists once its initial load succeeded. */
  predicate Starts(versions: set<File>, w: World) {
    && w.file in versions && !LoadRaises(w.file.doc, Some(w.file.mtime))
    && w.cache == Cache(w.file.doc.routes, w.file.mtime)
  }

  function Run(w: World, steps: seq<Step>): World {
    if steps == [] then w else Apply(Run(w, Front(steps)), Last(steps))
  }

  ghost predicate AllAllowed(versions: set<File>, steps: seq<Step>) {
    forall i :: 0 <= i < |steps| ==> Allowed(versions, steps[i])
  }

  /** The cached routes are those of the file, if the file can be read at all. */
  predicate Fresh(w: World) {
    w.file.doc.Parsed? ==> w.cache.routes == w.file.doc.routes
  }

  /** Different contents have different modification times. */
  ghost predicate TimesTell(versions: set<File>) {
    forall f, g :: f in versions && g in versions && f.doc.Parsed? && g.doc.Parsed? && f.mtime == g.mtime ==>
      f.doc.routes == g.doc.routes
  }

  /** Every request that could read the modification time was answered from the current file. */
  ghost predicate AlwaysFresh(versions: set<File>) {
    forall w, steps :: Starts(versions, w) && AllAllowed(versions, steps) && steps != [] && Last(steps) == Request(true) ==>
      Fresh(Run(w, steps))
  }

  /** The cache holds some version in full. */
  ghost predicate Cached(versions: set<File>, w: World) {
    && w.file in versions
    && exists f :: f in versions && f.doc.Parsed? && w.cache == Cache(f.doc.routes, f.mtime)
  }

  lemma {:induction false} RunKeepsCached(versions: set<File>, w: World, steps: seq<Step>)
    requires Starts(versions, w) && AllAllowed(versions, steps)
    ensures Cached(versions, Run(w, steps))
  {
    if steps != [] {
      RunKeepsCached(versions, w, Front(steps));
      assert Allowed(versions, Last(steps));
    }
  }

  /** Atomic loads and telling modification times make every answer current. */
  lemma {:induction false} AtomicLoadsAreFresh(versions: set<File>, w: World, steps: seq<Step>)
    requires TimesTell(versions) && Starts(versions, w) && AllAllowed(versions, steps)
    requires steps != [] && Last(steps) == Request(true)
    ensures Fresh(Run(w, steps))
  {
    RunKeepsCached(versions, w, Front(steps));
  }

  /** Two versions that share a modification time but not their routes: some run answers from the wrong one. */
  lemma {:induction false} SharedTimeGoesStale(versions: set<File>, w: World, f: File, g: File)
    requires Starts(versions, w) && f in versions && g in versions && f.doc.Parsed? && g.doc.Parsed?
    requires f.mtime == g.mtime && f.doc.routes != g.doc.routes
    ensures !AlwaysFresh(versions)
  {
    var one := [Edit(f), Request(true)];
    var two := [Edit(f), Request(true), Edit(g), Request(true)];
    assert Front(one) == [Edit(f)] && Front([Edit(f)]) == [];
    assert Front(two) == one + [Edit(g)] && Front(one + [Edit(g)]) == one;
    var after := Run(w, one);
    assert Run(w, [Edit(f)]) == Apply(w, Edit(f));
    assert after == Apply(Apply(w, Edit(f)), Request(true));
    assert Run(w, two) == Apply(Apply(after, Edit(g)), Request(true));
    assert AllAllowed(versions, one) && AllAllowed(versions, two);
    assert Last(one) == Request(true) && Last(two) == Request(true);
    assert !Fresh(Run(w, one)) || !Fresh(Run(w, two));
  }

  /** With atomic loads, answers are always current exactly when modification times tell versions apart. */
  lemma {:induction false} FreshExactly(versions: set<File>)
    requires exists w :: Starts(versions, w)
    ensures AlwaysFresh(versions) <==> TimesTell(versions)
  {
    if TimesTell(versions) {
      forall w, steps | Starts(versions, w) && AllAllowed(versions, steps) && steps != [] && Last(steps) == Request(true)
        ensures Fresh(Run(w, steps))
      {
        AtomicLoadsAreFresh(versions, w, steps);
      }
    } else {
      var w :| Starts(versions, w);
      var f, g :| f in versions && g in versions && f.doc.Parsed? && g.doc.Parsed?
                  && f.mtime == g.mtime && f.doc.routes != g.doc.routes;
      SharedTimeGoesStale(versions, w, f, g);
    }
  }

  // ---- A load that is not atomic --------------------------------------------------------------

  function Requests(n: nat): seq<Step> {
    seq(n, _ => Request(true))
  }

  /**
   * A load reads the routes and then the modification time. When the file is replaced in between, any
   * number of later requests answer from the old routes: they are current only if the edit changed none.
   */
  lemma {:induction false} RacingLoadGoesStale(c: Cache, before: File, after: File, n: nat)
    requires before.doc.Parsed? && after.doc.Parsed?
    ensures var w := Run(World(after, Loaded(c, before.doc, Some(after.mtime))), Requests(n));
            w.cache.routes == before.doc.routes && (Fresh(w) <==> before.doc.routes == after.doc.routes)
  {
    var w := World(after, Loaded(c, before.doc, Some(after.mtime)));
    QuietRequests(w, n);
  }

  lemma {:induction false} QuietRequests(w: World, n: nat)
    requires w.cache.mtime == w.file.mtime
    ensures Run(w, Requests(n)) == w
  {
    if n > 0 {
      assert Front(Requests(n)) == Requests(n - 1);
      QuietRequests(w, n - 1);
    }
  }
}
