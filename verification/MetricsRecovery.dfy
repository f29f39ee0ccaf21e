/** Restart recovery of the metrics store over every run of counting, saving and restarting. */
module MetricsRecovery {
  import opened Common
  import opened Metrics

  /** No key of the table is a bucket name without a colon, which decodes like `bucket:`. */
  predicate NoBareRow(db: Rows) {
    forall b :: b in BUCKETS ==> b !in db
  }

  predicate AllText(c: Counters) {
    forall b, l :: b in c && l in c[b] ==> l.Text?
  }

  /** Some counter of the bucket that prints as n has this value. */
  ghost predicate Shows(c: Counters, b: string, n: string, value: int)
    requires b in c
  {
    exists l :: l in c[b] && Shown(l) == n && c[b][l] == value
  }

  /** The table has the row of a bucket and printed label exactly if some counter prints so, with its value. */
  ghost predicate Stored(c: Counters, db: Rows, b: string, n: string)
    requires b in c
  {
    if Encode(b, n) in db then Shows(c, b, n, db[Encode(b, n)]) else forall l :: l in c[b] ==> Shown(l) != n
  }

  /** The rows of the known buckets are those of the counters. */
  ghost predicate Stores(c: Counters, db: Rows) {
    Valid(c) && forall b, n :: b in BUCKETS ==> Stored(c, db, b, n)
  }

  // ---- Loading --------------------------------------------------------------------------------

  predicate Separate(rows: seq<(string, int)>) {
    && (forall i, j :: 0 <= i < j < |rows| ==> rows[i].0 != rows[j].0)
    && (forall i :: 0 <= i < |rows| ==> rows[i].0 !in BUCKETS)
  }

  predicate HasRow(rows: seq<(string, int)>, key: string) {
    exists i :: 0 <= i < |rows| && rows[i].0 == key
  }

  /** In a table without bare rows, a row is for a bucket and name exactly if it has their key. */
  lemma {:induction false} RowIsFor(key: string, b: string, n: string)
    requires b in BUCKETS && key !in BUCKETS
    ensures BucketPart(key) == b && NamePart(key) == n <==> key == Encode(b, n)
  {
    OnlyKey(b, n);
    DecodeEncodes(key);
  }

  lemma {:induction false} LoadPoint(rows: seq<(string, int)>, b: string, n: string)
    requires Separate(rows) && b in BUCKETS
    ensures Text(n) in LoadRows(rows)[b] <==> HasRow(rows, Encode(b, n))
    ensures forall i :: 0 <= i < |rows| && rows[i].0 == Encode(b, n) ==>
              Text(n) in LoadRows(rows)[b] && LoadRows(rows)[b][Text(n)] == rows[i].1
  {
    if rows != [] {
      var before, last := Front(rows), Last(rows);
      LoadPoint(before, b, n);
      RowIsFor(last.0, b, n);
      if HasRow(before, Encode(b, n)) {
        var i :| 0 <= i < |before| && before[i].0 == Encode(b, n);
        assert rows[i].0 == Encode(b, n);
      }
      if HasRow(rows, Encode(b, n)) && last.0 != Encode(b, n) {
        var i :| 0 <= i < |rows| && rows[i].0 == Encode(b, n);
        assert before[i].0 == Encode(b, n);
      }
    }
  }

  lemma {:induction false} LoadedAreTexts(rows: seq<(string, int)>)
    ensures AllText(LoadRows(rows))
  {
    if rows != [] {
      LoadedAreTexts(Front(rows));
    }
  }

  /** In whatever order the rows are read, loading gives counters that the table stores, all under texts. */
  lemma {:induction false} LoadIsStored(rows: seq<(string, int)>, db: Rows)
    requires Lists(rows, db) && NoBareRow(db)
    ensures Stores(LoadRows(rows), db) && AllText(LoadRows(rows))
  {
    LoadedAreTexts(rows);
    var c := LoadRows(rows);
    forall b, n | b in BUCKETS
      ensures Stored(c, db, b, n)
    {
      LoadPoint(rows, b, n);
      if Encode(b, n) in db {
        var i :| 0 <= i < |rows| && rows[i] == (Encode(b, n), db[Encode(b, n)]);
        assert HasRow(rows, Encode(b, n));
        assert Text(n) in c[b] && Shown(Text(n)) == n;
      } else {
        assert Text(n) !in c[b];
      }
    }
  }

  /** Only one assignment of counters to text labels is stored by a table. */
  lemma {:induction false} StoredTextsUnique(c: Counters, d: Counters, db: Rows)
    requires Stores(c, db) && Stores(d, db) && AllText(c) && AllText(d)
    ensures c == d
  {
    forall b | b in BUCKETS
      ensures c[b] == d[b]
    {
      forall l
        ensures l in c[b] <==> l in d[b]
        ensures l in c[b] ==> c[b][l] == d[b][l]
      {
        if l in c[b] {
          TextIsStored(c, db, b, l);
          TextIsStoredIn(d, db, b, l);
        } else if l in d[b] {
          TextIsStored(d, db, b, l);
          TextIsStoredIn(c, db, b, l);
        }
      }
    }
  }

  lemma {:induction false} TextIsStored(c: Counters, db: Rows, b: string, l: Label)
    requires Stores(c, db) && AllText(c) && b in BUCKETS && l in c[b]
    ensures KeyOf(b, l) in db && db[KeyOf(b, l)] == c[b][l]
  {
    assert Stored(c, db, b, Shown(l));
  }

  lemma {:induction false} TextIsStoredIn(c: Counters, db: Rows, b: string, l: Label)
    requires Stores(c, db) && AllText(c) && b in BUCKETS && l.Text? && KeyOf(b, l) in db
    ensures l in c[b] && c[b][l] == db[KeyOf(b, l)]
  {
    assert Stored(c, db, b, Shown(l));
  }

  // ---- Saving ---------------------------------------------------------------------------------

  /** Every counter of c is also in memory. */
  ghost predicate Covers(mem: Counters, c: Counters)
    requires Valid(mem) && Valid(c)
  {
    forall b, l :: b in BUCKETS && l in c[b] ==> l in mem[b]
  }

  /** A snapshot has rows of known buckets only, each under a key with a colon. */
  lemma {:induction false} SnapshotKeys(rows: Rows, mem: Counters, key: string)
    requires Valid(mem) && IsSnapshot(rows, mem) && key in rows
    ensures BucketPart(key) in BUCKETS && key !in BUCKETS
    ensures Shows(mem, BucketPart(key), NamePart(key), rows[key])
  {
    var b, l :| b in mem && l in mem[b] && KeyOf(b, l) == key && mem[b][l] == rows[key];
    OnlyKey(b, Shown(l));
    ColonFree();
  }

  lemma {:induction false} SaveStores(db: Rows, rows: Rows, mem: Counters, before: Counters)
    requires Valid(mem) && IsSnapshot(rows, mem) && Stores(before, db) && Covers(mem, before)
    ensures Stores(mem, Saved(db, rows))
  {
    forall b, n | b in BUCKETS
      ensures Stored(mem, Saved(db, rows), b, n)
    {
      SaveStoresAt(db, rows, mem, before, b, n);
    }
  }

  lemma {:induction false} SaveStoresAt(db: Rows, rows: Rows, mem: Counters, before: Counters, b: string, n: string)
    requires Valid(mem) && IsSnapshot(rows, mem) && Stores(before, db) && Covers(mem, before) && b in BUCKETS
    ensures Stored(mem, Saved(db, rows), b, n)
  {
    var key := Encode(b, n);
    OnlyKey(b, n);
    if key in rows {
      SnapshotKeys(rows, mem, key);
    } else {
      forall l | l in mem[b]
        ensures Shown(l) != n
      {
        assert KeyOf(b, l) in rows;
      }
      assert Stored(before, db, b, n);
    }
  }

  lemma {:induction false} SaveAddsNoBareRow(db: Rows, rows: Rows, mem: Counters)
    requires Valid(mem) && IsSnapshot(rows, mem) && NoBareRow(db)
    ensures NoBareRow(Saved(db, rows))
  {
    forall b | b in BUCKETS
      ensures b !in Saved(db, rows)
    {
      if b in rows {
        SnapshotKeys(rows, mem, b);
      }
    }
  }

  // ---- Runs -----------------------------------------------------------------------------------

  datatype Count = Count(bucket: string, name: Label, amount: int)

  /** Memory, table, the counters last saved or loaded, and the counts since then. */
  datatype World = World(mem: Counters, db: Rows, saved: Counters, since: seq<Count>)

  datatype Step = Increment(count: Count) | Flush(rows: Rows) | FailedFlush | Restart(listed: seq<(string, int)>)

  ghost predicate Enabled(w: World, step: Step) {
    match step
    case Increment(c) => c.bucket in BUCKETS
    case Flush(rows) => IsSnapshot(rows, w.mem)
    case FailedFlush => true
    case Restart(listed) => Lists(listed, w.db)
  }

  function Apply(w: World, step: Step): World {
    match step
    case Increment(c) =>
      if c.bucket in w.mem
      then w.(mem := Incremented(w.mem, c.bucket, c.name, c.amount), since := w.since + [c])
      else w
    case Flush(rows) => World(w.mem, Saved(w.db, rows), w.mem, [])
    case FailedFlush => w
    case Restart(listed) => Started(w.db, listed)
  }

  function Started(db: Rows, listed: seq<(string, int)>): World {
    World(LoadRows(listed), db, LoadRows(listed), [])
  }

  ghost predicate IsRun(ws: seq<World>, steps: seq<Step>) {
    |ws| == |steps| + 1 && forall i :: 0 <= i < |steps| ==> Next(ws[i], steps[i], ws[i + 1])
  }

  ghost predicate Next(w: World, step: Step, w': World) {
    Enabled(w, step) && w' == Apply(w, step)
  }

  function CountAll(c: Counters, counts: seq<Count>): Counters {
    if counts == [] then c
    else
      var before, last := CountAll(c, Front(counts)), Last(counts);
      if last.bucket in before then Incremented(before, last.bucket, last.name, last.amount) else before
  }

  /** The rows of unknown buckets are the same in both tables. */
  ghost predicate SameForeignRows(db0: Rows, db: Rows) {
    forall key :: BucketPart(key) !in BUCKETS ==>
      (key in db <==> key in db0) && (key in db0 ==> db[key] == db0[key])
  }

  ghost predicate Inv(db0: Rows, w: World) {
    && Valid(w.mem) && NoBareRow(w.db) && Stores(w.saved, w.db) && Covers(w.mem, w.saved)
    && w.mem == CountAll(w.saved, w.since)
    && SameForeignRows(db0, w.db)
  }

  lemma {:induction false} StartMeetsInv(db0: Rows, db: Rows, listed: seq<(string, int)>)
    requires NoBareRow(db) && Lists(listed, db) && SameForeignRows(db0, db)
    ensures Inv(db0, Started(db, listed))
  {
    LoadIsStored(listed, db);
    CoversItself(LoadRows(listed));
  }

  lemma {:induction false} ForeignRowsReflexive(db: Rows)
    ensures SameForeignRows(db, db)
  {
  }

  lemma {:induction false} CoversItself(c: Counters)
    requires Valid(c)
    ensures Covers(c, c)
  {
  }

  lemma {:induction false} CoversMore(mem: Counters, saved: Counters, bucket: string, name: Label, amount: int)
    requires Valid(mem) && Valid(saved) && Covers(mem, saved) && bucket in BUCKETS
    ensures Covers(Incremented(mem, bucket, name, amount), saved)
  {
    var more := Incremented(mem, bucket, name, amount);
    forall b, l | b in BUCKETS && l in saved[b]
      ensures l in more[b]
    {
    }
  }

  lemma {:induction false} CountSnoc(c: Counters, counts: seq<Count>, last: Count)
    requires last.bucket in CountAll(c, counts)
    ensures CountAll(c, counts + [last]) == Incremented(CountAll(c, counts), last.bucket, last.name, last.amount)
  {
    assert Front(counts + [last]) == counts;
  }

  lemma {:induction false} FlushKeepsInv(db0: Rows, w: World, rows: Rows)
    requires Inv(db0, w) && IsSnapshot(rows, w.mem)
    ensures Inv(db0, Apply(w, Flush(rows)))
  {
    SaveStores(w.db, rows, w.mem, w.saved);
    SaveAddsNoBareRow(w.db, rows, w.mem);
    CoversItself(w.mem);
    SaveKeepsForeignRows(db0, w.db, rows, w.mem);
  }

  lemma {:induction false} SaveKeepsForeignRows(db0: Rows, db: Rows, rows: Rows, mem: Counters)
    requires Valid(mem) && IsSnapshot(rows, mem) && SameForeignRows(db0, db)
    ensures SameForeignRows(db0, Saved(db, rows))
  {
    forall key | BucketPart(key) !in BUCKETS
      ensures key in Saved(db, rows) <==> key in db0
      ensures key in db0 ==> Saved(db, rows)[key] == db0[key]
    {
      if key in rows {
        SnapshotKeys(rows, mem, key);
      }
    }
  }

  lemma {:induction false} IncrementKeepsInv(db0: Rows, w: World, c: Count)
    requires Inv(db0, w) && c.bucket in BUCKETS
    ensures Inv(db0, Apply(w, Increment(c)))
  {
    CoversMore(w.mem, w.saved, c.bucket, c.name, c.amount);
    CountSnoc(w.saved, w.since, c);
  }

  lemma {:induction false} NextKeepsInv(db0: Rows, w: World, step: Step, w': World)
    requires Inv(db0, w) && Next(w, step, w')
    ensures Inv(db0, w')
  {
    match step
    case Increment(c) => IncrementKeepsInv(db0, w, c);
    case Flush(rows) => FlushKeepsInv(db0, w, rows);
    case FailedFlush =>
    case Restart(listed) => StartMeetsInv(db0, w.db, listed);
  }

  /** What holds at the start of a run and is kept by every step holds throughout it. */
  lemma {:induction false} RunInduction(inv: World -> bool, ws: seq<World>, steps: seq<Step>, n: nat)
    requires IsRun(ws, steps) && n < |ws| && inv(ws[0])
    requires forall w, step, w' :: inv(w) && Next(w, step, w') ==> inv(w')
    ensures inv(ws[n])
  {
    if n > 0 {
      RunInduction(inv, ws, steps, n - 1);
      assert Next(ws[n - 1], steps[n - 1], ws[n - 1 + 1]);
    }
  }

  lemma {:induction false} RunMeetsInv(db: Rows, listed: seq<(string, int)>, ws: seq<World>, steps: seq<Step>, n: nat)
    requires NoBareRow(db) && Lists(listed, db)
    requires IsRun(ws, steps) && ws[0] == Started(db, listed) && n < |ws|
    ensures Inv(db, ws[n])
  {
    ForeignRowsReflexive(db);
    StartMeetsInv(db, db, listed);
    forall w, step, w' | Inv(db, w) && Next(w, step, w')
      ensures Inv(db, w')
    {
      NextKeepsInv(db, w, step, w');
    }
    RunInduction(w => Inv(db, w), ws, steps, n);
  }

  /** A label that prints like no other counter of its bucket. */
  ghost predicate PrintsAlone(c: Counters, b: string, l: Label)
    requires b in c
  {
    forall k :: k in c[b] && Shown(k) == Shown(l) ==> k == l
  }

  /** What a restart makes of the counters that the table stores. */
  lemma {:induction false} RestartIsExact(saved: Counters, db: Rows, listed: seq<(string, int)>)
    requires Stores(saved, db) && Lists(listed, db) && NoBareRow(db)
    ensures LoadRows(listed) == saved <==> AllText(saved)
    ensures forall b, l :: b in BUCKETS && l in saved[b] && PrintsAlone(saved, b, l) ==>
              ValueOf(LoadRows(listed), b, Text(Shown(l))) == saved[b][l]
  {
    var loaded := LoadRows(listed);
    LoadIsStored(listed, db);
    if AllText(saved) {
      StoredTextsUnique(loaded, saved, db);
    }
    forall b, l | b in BUCKETS && l in saved[b] && PrintsAlone(saved, b, l)
      ensures ValueOf(loaded, b, Text(Shown(l))) == saved[b][l]
    {
      assert Stored(saved, db, b, Shown(l));
      TextIsStoredIn(loaded, db, b, Text(Shown(l)));
    }
  }

  // ---- What the steps of a run say ------------------------------------------------------------

  /** The sum of the amounts counted for one bucket and label. */
  function Amount(counts: seq<Count>, b: string, l: Label): int {
    if counts == [] then 0
    else
      Amount(Front(counts), b, l) + if Last(counts).bucket == b && Last(counts).name == l then Last(counts).amount else 0
  }

  predicate IsCounted(counts: seq<Count>, b: string, l: Label) {
    exists i :: 0 <= i < |counts| && counts[i].bucket == b && counts[i].name == l
  }

  /** Counting adds to each counter the sum of exactly the counts for its bucket and label. */
  lemma {:induction false} CountAllAdds(c: Counters, counts: seq<Count>, b: string, l: Label)
    requires Valid(c) && b in BUCKETS
    ensures Valid(CountAll(c, counts))
    ensures l in CountAll(c, counts)[b] <==> l in c[b] || IsCounted(counts, b, l)
    ensures ValueOf(CountAll(c, counts), b, l) == ValueOf(c, b, l) + Amount(counts, b, l)
  {
    if counts != [] {
      var before, last := Front(counts), Last(counts);
      CountAllAdds(c, before, b, l);
      if IsCounted(before, b, l) {
        var i :| 0 <= i < |before| && before[i].bucket == b && before[i].name == l;
        assert counts[i].bucket == b && counts[i].name == l;
      }
      if IsCounted(counts, b, l) && !(last.bucket == b && last.name == l) {
        var i :| 0 <= i < |counts| && counts[i].bucket == b && counts[i].name == l;
        assert before[i].bucket == b && before[i].name == l;
      }
      if last.bucket in CountAll(c, before) {
        IncrementedGrew(CountAll(c, before), last.bucket, last.name, last.amount);
      }
    }
  }

  /** The counts among the steps. */
  function CountsIn(steps: seq<Step>): seq<Count> {
    if steps == [] then []
    else CountsIn(Front(steps)) + if Last(steps).Increment? then [Last(steps).count] else []
  }

  /** The last moment up to n at which memory had just been saved or loaded. */
  function Checkpoint(steps: seq<Step>, n: nat): (j: nat)
    requires n <= |steps|
    ensures j <= n && (j > 0 ==> steps[j - 1].Flush? || steps[j - 1].Restart?)
    ensures forall i :: j <= i < n ==> steps[i].Increment? || steps[i].FailedFlush?
  {
    if n == 0 || steps[n - 1].Flush? || steps[n - 1].Restart? then n else Checkpoint(steps, n - 1)
  }

  lemma {:induction false} CountsSnoc(steps: seq<Step>, j: nat, n: nat)
    requires j < n <= |steps|
    ensures CountsIn(steps[j..n]) ==
            CountsIn(steps[j..n - 1]) + if steps[n - 1].Increment? then [steps[n - 1].count] else []
  {
    assert Front(steps[j..n]) == steps[j..n - 1];
  }

  /** What a state keeps of the last save or load, and of the counts since, is what the steps say. */
  predicate KeepsCheckpoint(ws: seq<World>, steps: seq<Step>, n: nat)
    requires n <= |steps| && |ws| == |steps| + 1
  {
    ws[n].saved == ws[Checkpoint(steps, n)].mem && ws[n].since == CountsIn(steps[Checkpoint(steps, n)..n])
  }

  lemma {:induction false} StartKeepsCheckpoint(ws: seq<World>, steps: seq<Step>)
    requires |ws| == |steps| + 1 && ws[0].saved == ws[0].mem && ws[0].since == []
    ensures KeepsCheckpoint(ws, steps, 0)
  {
    assert steps[0..0] == [];
  }

  lemma {:induction false} StepKeepsCheckpoint(ws: seq<World>, steps: seq<Step>, n: nat)
    requires 0 < n <= |steps| && |ws| == |steps| + 1 && Next(ws[n - 1], steps[n - 1], ws[n]) && Valid(ws[n - 1].mem)
    requires KeepsCheckpoint(ws, steps, n - 1)
    ensures KeepsCheckpoint(ws, steps, n)
  {
    var step := steps[n - 1];
    if step.Increment? || step.FailedFlush? {
      CountsSnoc(steps, Checkpoint(steps, n - 1), n);
    } else {
      assert steps[n..n] == [];
    }
  }

  lemma {:induction false} RunNext(ws: seq<World>, steps: seq<Step>, n: nat)
    requires IsRun(ws, steps) && 0 < n <= |steps|
    ensures Next(ws[n - 1], steps[n - 1], ws[n])
  {
    assert Next(ws[n - 1], steps[n - 1], ws[n - 1 + 1]);
  }

  predicate Accounted(w: World) {
    Valid(w.mem) && Valid(w.saved) && w.mem == CountAll(w.saved, w.since)
  }

  lemma {:induction false} NextAccounts(w: World, step: Step, w': World)
    requires Accounted(w) && Next(w, step, w')
    ensures Accounted(w')
  {
    match step
    case Increment(c) => CountSnoc(w.saved, w.since, c);
    case Flush(_) =>
    case FailedFlush =>
    case Restart(_) =>
  }

  lemma {:induction false} RunAccounts(ws: seq<World>, steps: seq<Step>, n: nat)
    requires IsRun(ws, steps) && Accounted(ws[0]) && n < |ws|
    ensures Accounted(ws[n])
  {
    forall w, step, w' | Accounted(w) && Next(w, step, w')
      ensures Accounted(w')
    {
      NextAccounts(w, step, w');
    }
    RunInduction(Accounted, ws, steps, n);
  }

  lemma {:induction false} RunKeepsCheckpoint(db: Rows, listed: seq<(string, int)>, ws: seq<World>, steps: seq<Step>, n: nat)
    requires IsRun(ws, steps) && ws[0] == Started(db, listed) && n < |ws|
    ensures KeepsCheckpoint(ws, steps, n)
  {
    StartKeepsCheckpoint(ws, steps);
    for k := 0 to n
      invariant KeepsCheckpoint(ws, steps, k)
    {
      RunAccounts(ws, steps, k);
      RunNext(ws, steps, k + 1);
      StepKeepsCheckpoint(ws, steps, k + 1);
    }
  }

  /** A counter now is what it was at the last save or load plus the counts among the steps since. */
  lemma {:induction false} MemoryIsExact(
      db: Rows, listed: seq<(string, int)>, ws: seq<World>, steps: seq<Step>, n: nat, b: string, l: Label)
    requires IsRun(ws, steps) && ws[0] == Started(db, listed) && n < |ws| && b in BUCKETS
    ensures var j := Checkpoint(steps, n);
            var counts := CountsIn(steps[j..n]);
            && Valid(ws[j].mem) && Valid(ws[n].mem)
            && (l in ws[n].mem[b] <==> l in ws[j].mem[b] || IsCounted(counts, b, l))
            && ValueOf(ws[n].mem, b, l) == ValueOf(ws[j].mem, b, l) + Amount(counts, b, l)
  {
    RunAccounts(ws, steps, n);
    RunAccounts(ws, steps, Checkpoint(steps, n));
    RunKeepsCheckpoint(db, listed, ws, steps, n);
    CountAllAdds(ws[n].saved, ws[n].since, b, l);
  }

  /**
   * Recovery: in any run over a table without bare rows, a restart brings back exactly the counters
   * that memory held at the last successful save or load if and only if all their labels are texts,
   * and in any case each value under its printed label unless two labels print alike; and the rows of
   * unknown buckets are what they were at the start.
   */
  lemma {:induction false} RecoveryIsExact(db: Rows, listed: seq<(string, int)>, ws: seq<World>, steps: seq<Step>, n: nat)
    requires NoBareRow(db) && Lists(listed, db)
    requires IsRun(ws, steps) && ws[0] == Started(db, listed) && n < |steps|
    ensures var before := ws[Checkpoint(steps, n)].mem;
            && Valid(before)
            && (steps[n].Restart? ==> (ws[n + 1].mem == before <==> AllText(before)))
            && (steps[n].Restart? ==>
                  forall b, l :: b in BUCKETS && l in before[b] && PrintsAlone(before, b, l) ==>
                    ValueOf(ws[n + 1].mem, b, Text(Shown(l))) == before[b][l])
    ensures SameForeignRows(db, ws[n + 1].db)
  {
    RunMeetsInv(db, listed, ws, steps, n);
    RunMeetsInv(db, listed, ws, steps, n + 1);
    RunKeepsCheckpoint(db, listed, ws, steps, n);
    assert Next(ws[n], steps[n], ws[n + 1]);
    if steps[n].Restart? {
      RestartIsExact(ws[n].saved, ws[n].db, steps[n].listed);
    }
  }

  /** Counting by non-negative amounts never lowers a counter, so memory never falls below the last save. */
  lemma {:induction false} NeverDecreases(c: Counters, counts: seq<Count>, bucket: string, name: Label)
    requires Valid(c) && forall i :: 0 <= i < |counts| ==> counts[i].amount >= 0
    ensures CountAll(c, counts).Keys == c.Keys
    ensures ValueOf(c, bucket, name) <= ValueOf(CountAll(c, counts), bucket, name)
  {
    if counts != [] {
      NeverDecreases(c, Front(counts), bucket, name);
    }
  }

  // ---- Why bare rows must be absent -----------------------------------------------------------

  /** One count under a text, one save and one restart lose nothing, whatever the orders. */
  ghost predicate SurvivesRestart(db: Rows) {
    forall listed, c, rows, listed' :: Survives(db, listed, c, rows, listed')
  }

  ghost predicate Survives(db: Rows, listed: seq<(string, int)>, c: Count, rows: Rows, listed': seq<(string, int)>) {
    Lists(listed, db) && c.bucket in BUCKETS && c.name.Text? ==>
      var mem := Incremented(LoadRows(listed), c.bucket, c.name, c.amount);
      IsSnapshot(rows, mem) && Lists(listed', Saved(db, rows)) ==> LoadRows(listed') == mem
  }

  lemma {:induction false} Listing(db: Rows) returns (rows: seq<(string, int)>)
    ensures Lists(rows, db)
    decreases |db|
  {
    if db == map[] {
      rows := [];
    } else {
      var key :| key in db;
      var rest := Listing(db - {key});
      rows := AddedLast(db, key, rest);
    }
  }

  lemma {:induction false} AddedLast(db: Rows, key: string, rest: seq<(string, int)>) returns (rows: seq<(string, int)>)
    requires key in db && Lists(rest, db - {key})
    ensures Lists(rows, db) && rows != [] && Last(rows) == (key, db[key])
  {
    rows := rest + [(key, db[key])];
    forall k | k in db
      ensures (k, db[k]) in rows
    {
      if k != key {
        assert (k, (db - {key})[k]) in rest;
      } else {
        assert rows[|rest|] == (key, db[key]);
      }
    }
  }

  /** A listing that ends with a given row. */
  lemma {:induction false} ListingEnding(db: Rows, key: string) returns (rows: seq<(string, int)>)
    requires key in db
    ensures Lists(rows, db) && rows != [] && Last(rows) == (key, db[key])
  {
    var rest := Listing(db - {key});
    rows := AddedLast(db, key, rest);
  }

  ghost function SomeValue(c: Counters, key: string): int
    requires exists b, l :: b in c && l in c[b] && KeyOf(b, l) == key
  {
    var b, l :| b in c && l in c[b] && KeyOf(b, l) == key;
    c[b][l]
  }

  lemma {:induction false} Snapshot(c: Counters) returns (rows: Rows)
    ensures IsSnapshot(rows, c)
  {
    var keys := set b, l | b in c && l in c[b] :: KeyOf(b, l);
    rows := map key | key in keys :: SomeValue(c, key);
  }

  lemma {:induction false} BareRowLoads(rows: seq<(string, int)>, b: string)
    requires rows != [] && Last(rows).0 == b && b in BUCKETS
    ensures Text("") in LoadRows(rows)[b] && LoadRows(rows)[b][Text("")] == Last(rows).1
  {
    ColonFree();
    DecodeEncodes(b);
  }

  /** A bare row read last hides the counter that was saved under `bucket:`. */
  lemma {:induction false} BareRowHidesCounter(db: Rows, b: string)
    requires b in BUCKETS && b in db
    ensures !SurvivesRestart(db)
  {
    var listed := ListingEnding(db, b);
    BareRowLoads(listed, b);
    var c := Count(b, Text(""), 1);
    var mem := Incremented(LoadRows(listed), b, c.name, 1);
    var rows := Snapshot(mem);
    if b in rows {
      SnapshotKeys(rows, mem, b);
    }
    var listed' := ListingEnding(Saved(db, rows), b);
    BareRowLoads(listed', b);
    assert LoadRows(listed')[b][Text("")] != mem[b][Text("")];
    assert !Survives(db, listed, c, rows, listed');
  }

  /** Recovery of text labels works on a table exactly when it has no bare row. */
  lemma {:induction false} RecoveryNeedsNoBareRow(db: Rows)
    ensures SurvivesRestart(db) <==> NoBareRow(db)
  {
    if NoBareRow(db) {
      forall listed, c, rows, listed'
        ensures Survives(db, listed, c, rows, listed')
      {
        CountSaveLoad(db, listed, c, rows, listed');
      }
    } else {
      var b :| b in BUCKETS && b in db;
      BareRowHidesCounter(db, b);
    }
  }

  lemma {:induction false} CountSaveLoad(
      db: Rows, listed: seq<(string, int)>, c: Count, rows: Rows, listed': seq<(string, int)>)
    requires NoBareRow(db)
    ensures Survives(db, listed, c, rows, listed')
  {
    if Lists(listed, db) && c.bucket in BUCKETS && c.name.Text? {
      var start := LoadRows(listed);
      var mem := Incremented(start, c.bucket, c.name, c.amount);
      if IsSnapshot(rows, mem) && Lists(listed', Saved(db, rows)) {
        LoadIsStored(listed, db);
        CoversItself(start);
        CoversMore(start, start, c.bucket, c.name, c.amount);
        SaveStores(db, rows, mem, start);
        SaveAddsNoBareRow(db, rows, mem);
        TextsStayTexts(start, c.bucket, c.name, c.amount);
        RestartIsExact(mem, Saved(db, rows), listed');
      }
    }
  }

  lemma {:induction false} TextsStayTexts(c: Counters, bucket: string, name: Label, amount: int)
    requires AllText(c) && bucket in c && name.Text?
    ensures AllText(Incremented(c, bucket, name, amount))
  {
  }
}
