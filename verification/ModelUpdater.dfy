/**
 * Proposals from approved registry rows, the generated scaffold, and promotion:
 * tengen/udm/model_updater.py. Which fields a model already has is a parameter, and so are the
 * outcome of the git commands and the order in which the registry lists equally ranked rows.
 */
module ModelUpdater {
  import opened Common
  import opened FieldRegistry
  import Identifier
  import DottedPath

  // ---- Target model and field name ----------------------------------------------------------

  const MODELS: set<string> := {
    "Metadata", "Noun", "User", "Process", "File", "RegistryEntry", "Resource", "CloudContext",
    "Location", "Network", "NetworkHttp", "SecurityResult"
  }

  predicate Contains(s: string, t: string) {
    exists i :: 0 <= i <= |s| && t <= s[i..]
  }

  /** The first rule that applies decides; every answer is a known model. */
  function TargetModel(s: string): (model: string)
    ensures model in MODELS
  {
    if "metadata." <= s then "Metadata"
    else if "network.http." <= s then "NetworkHttp"
    else if "network." <= s then "Network"
    else if "security_result." <= s then "SecurityResult"
    else if Contains(s, ".user.") then "User"
    else if Contains(s, ".process.") then "Process"
    else if Contains(s, ".file.") then "File"
    else if Contains(s, ".registry.") then "RegistryEntry"
    else if Contains(s, ".cloud.") then "CloudContext"
    else if Contains(s, ".resource.") then "Resource"
    else if Contains(s, ".location.") then "Location"
    else "Noun"
  }

  /** One of the ordered rules: a text at the start of the suggestion, or anywhere in it, and its model. */
  datatype Rule = Starts(text: string, model: string) | Holds(text: string, model: string)

  const RULES: seq<Rule> := [
    Starts("metadata.", "Metadata"), Starts("network.http.", "NetworkHttp"), Starts("network.", "Network"),
    Starts("security_result.", "SecurityResult"), Holds(".user.", "User"), Holds(".process.", "Process"),
    Holds(".file.", "File"), Holds(".registry.", "RegistryEntry"), Holds(".cloud.", "CloudContext"),
    Holds(".resource.", "Resource"), Holds(".location.", "Location")
  ]

  predicate Applies(rule: Rule, s: string) {
    match rule
    case Starts(text, _) => text <= s
    case Holds(text, _) => Contains(s, text)
  }

  /** The first rule in order that applies names the model; without one it is Noun. */
  lemma {:induction false} TargetModelIsFirstRule(s: string) returns (k: nat)
    ensures k <= |RULES| && forall i :: 0 <= i < k ==> !Applies(RULES[i], s)
    ensures k < |RULES| ==> Applies(RULES[k], s) && TargetModel(s) == RULES[k].model
    ensures k == |RULES| ==> TargetModel(s) == "Noun"
  {
    k := 0;
    while k < |RULES| && !Applies(RULES[k], s)
      invariant k <= |RULES| && forall i :: 0 <= i < k ==> !Applies(RULES[i], s)
    {
      k := k + 1;
    }
    assert k > 0 ==> !Applies(RULES[0], s);
    assert k > 1 ==> !Applies(RULES[1], s);
    assert k > 2 ==> !Applies(RULES[2], s);
    assert k > 3 ==> !Applies(RULES[3], s);
    assert k > 4 ==> !Applies(RULES[4], s);
    assert k > 5 ==> !Applies(RULES[5], s);
    assert k > 6 ==> !Applies(RULES[6], s);
    assert k > 7 ==> !Applies(RULES[7], s);
    assert k > 8 ==> !Applies(RULES[8], s);
    assert k > 9 ==> !Applies(RULES[9], s);
    assert k > 10 ==> !Applies(RULES[10], s);
  }

  /** `s.replace("[]", "")`. */
  function WithoutBrackets(s: string): string
    decreases |s|
  {
    if s == "" then ""
    else if "[]" <= s then WithoutBrackets(s[2..])
    else [s[0]] + WithoutBrackets(s[1..])
  }

  function FieldName(suggested: string, path: string): (name: string)
  {
    if suggested != "" then Identifier.Identifier(Last(DottedPath.Split(suggested)))
    else Identifier.Identifier(WithoutBrackets(Last(DottedPath.Split(path))))
  }

  // ---- Proposals ----------------------------------------------------------------------------

  datatype Pair = Pair(model: string, field: string)

  datatype Proposal = Proposal(row: Row, pair: Pair, isNew: bool)

  /** Whether a model already declares a field. */
  type Existing = Pair -> bool

  function PairOf(row: Row): Pair {
    Pair(TargetModel(row.suggested), FieldName(row.suggested, row.key.path))
  }

  function Selected(listing: seq<Row>, statuses: set<Status>): seq<Row> {
    if listing == [] then []
    else
      var before, row := Selected(listing[..|listing| - 1], statuses), listing[|listing| - 1];
      if row.status in statuses then before + [row] else before
  }

  /** A suggestion gives the model, and names the field by what follows its last dot, whatever the path is. */
  lemma {:induction false} PairFromSuggestion(row: Row, prefix: string, leaf: string)
    requires DottedPath.NoDot(leaf) && (row.suggested == prefix + "." + leaf || (row.suggested == leaf && leaf != ""))
    ensures PairOf(row) == Pair(TargetModel(row.suggested), Identifier.Identifier(leaf))
  {
    DottedPath.LastSegment(prefix, leaf);
  }

  /** Without a suggestion the field of a Noun is named by what follows the last dot of the path, less its list marks. */
  lemma {:induction false} PairFromPath(row: Row, prefix: string, leaf: string, marks: nat)
    requires row.suggested == "" && DottedPath.NoDot(leaf) && '[' !in leaf
    requires row.key.path == prefix + "." + (leaf + Marks(marks)) || row.key.path == leaf + Marks(marks)
    ensures PairOf(row) == Pair("Noun", Identifier.Identifier(leaf))
  {
    MarksHoldNoDot(marks);
    DottedPath.LastSegment(prefix, leaf + Marks(marks));
    MarksGo(leaf, marks);
    NoHoldsInEmpty();
  }

  lemma {:induction false} NoHoldsInEmpty()
    ensures TargetModel("") == "Noun"
  {
  }

  /** What flattening appends to the path of a list, once for every list around an item. */
  function Marks(n: nat): string {
    if n == 0 then "" else "[]" + Marks(n - 1)
  }

  lemma {:induction false} MarksHoldNoDot(n: nat)
    ensures '.' !in Marks(n)
  {
    if n > 0 {
      MarksHoldNoDot(n - 1);
    }
  }

  lemma {:induction false} MarksGo(leaf: string, n: nat)
    requires '[' !in leaf
    ensures WithoutBrackets(leaf + Marks(n)) == leaf
    decreases |leaf|, n
  {
    var text := leaf + Marks(n);
    if leaf != "" {
      assert text[0] == leaf[0] && text[1..] == leaf[1..] + Marks(n);
      MarksGo(leaf[1..], n);
    } else if n > 0 {
      assert text[..2] == "[]" && text[2..] == "" + Marks(n - 1);
      MarksGo("", n - 1);
    }
  }

  /** Selecting goes row by row and keeps the order. */
  lemma {:induction false} SelectedSnoc(listing: seq<Row>, row: Row, statuses: set<Status>)
    ensures Selected([], statuses) == []
    ensures Selected(listing + [row], statuses) == Selected(listing, statuses) + if row.status in statuses then [row] else []
  {
    assert (listing + [row])[..|listing|] == listing;
  }

  predicate PairBefore(ps: seq<Proposal>, n: int, pair: Pair)
    requires n <= |ps|
  {
    exists j :: 0 <= j < n && ps[j].pair == pair
  }

  /** One proposal per selected row, in order; new is the first of its pair on a model without it. */
  predicate AreProposals(ps: seq<Proposal>, rows: seq<Row>, existing: Existing) {
    && |ps| == |rows|
    && forall i :: 0 <= i < |ps| ==>
         && ps[i].row == rows[i] && ps[i].pair == PairOf(rows[i])
         && (ps[i].isNew <==> !existing(ps[i].pair) && !PairBefore(ps, i, ps[i].pair))
  }

  method ProposeFromRegistry(listing: seq<Row>, statuses: set<Status>, existing: Existing)
    returns (proposals: seq<Proposal>)
    ensures AreProposals(proposals, Selected(listing, statuses), existing)
  {
    proposals := [];
    var seen: set<Pair> := {};
    for i := 0 to |listing|
      invariant AreProposals(proposals, Selected(listing[..i], statuses), existing)
      invariant forall q :: q in seen <==> !existing(q) && PairBefore(proposals, |proposals|, q)
    {
      assert listing[..i + 1][..i] == listing[..i];
      var row := listing[i];
      if row.status !in statuses {
        continue;
      }
      var key := PairOf(row);
      var exists_ := existing(key);
      ghost var before := proposals;
      var p := Proposal(row, key, !exists_ && key !in seen);
      proposals := proposals + [p];
      ProposalsSnoc(before, Selected(listing[..i], statuses), existing, p);
      PairBeforeSnoc(before, p);
      if !exists_ {
        seen := seen + {key};
      }
    }
    assert listing[..|listing|] == listing;
  }

  lemma {:induction false} PairBeforeSnoc(ps: seq<Proposal>, p: Proposal)
    ensures forall q :: PairBefore(ps + [p], |ps| + 1, q) <==> PairBefore(ps, |ps|, q) || q == p.pair
  {
    var all := ps + [p];
    forall q
      ensures PairBefore(all, |ps| + 1, q) <==> PairBefore(ps, |ps|, q) || q == p.pair
    {
      if PairBefore(ps, |ps|, q) {
        var j :| 0 <= j < |ps| && ps[j].pair == q;
        assert all[j].pair == q;
      }
      assert all[|ps|].pair == p.pair;
    }
  }

  lemma {:induction false} ProposalsSnoc(ps: seq<Proposal>, rows: seq<Row>, existing: Existing, p: Proposal)
    requires AreProposals(ps, rows, existing) && p.pair == PairOf(p.row)
    requires p.isNew <==> !existing(p.pair) && !PairBefore(ps, |ps|, p.pair)
    ensures AreProposals(ps + [p], rows + [p.row], existing)
  {
    var all := ps + [p];
    forall i | 0 <= i < |all|
      ensures PairBefore(all, i, all[i].pair) <==> PairBefore(ps, i, all[i].pair)
    {
      if PairBefore(all, i, all[i].pair) {
        var j :| 0 <= j < i && all[j].pair == all[i].pair;
        assert ps[j].pair == all[i].pair;
      }
      if PairBefore(ps, i, all[i].pair) {
        var j :| 0 <= j < i && ps[j].pair == all[i].pair;
        assert all[j].pair == all[i].pair;
      }
    }
  }

  predicate NewPairsDistinct(ps: seq<Proposal>) {
    forall i, j :: 0 <= i < j < |ps| && ps[i].isNew && ps[j].isNew ==> ps[i].pair != ps[j].pair
  }

  predicate Proposes(ps: seq<Proposal>, pair: Pair) {
    exists i :: 0 <= i < |ps| && ps[i].isNew && ps[i].pair == pair
  }

  predicate Wanted(rows: seq<Row>, pair: Pair) {
    exists i :: 0 <= i < |rows| && PairOf(rows[i]) == pair
  }

  lemma {:induction false} FirstOfPair(ps: seq<Proposal>, n: nat, pair: Pair) returns (k: nat)
    requires n <= |ps| && PairBefore(ps, n, pair)
    ensures k < n && ps[k].pair == pair && !PairBefore(ps, k, pair)
  {
    var j :| 0 <= j < n && ps[j].pair == pair;
    if PairBefore(ps, j, pair) {
      k := FirstOfPair(ps, j, pair);
    } else {
      k := j;
    }
  }

  lemma {:induction false} SeenBefore(ps: seq<Proposal>, i: nat, j: nat)
    requires i < j < |ps|
    ensures PairBefore(ps, j, ps[i].pair)
  {
  }

  /**
   * Deduplication is exact for any listing order: the new proposals carry each pair at most once,
   * and together the pairs of the selected rows that no model has yet.
   */
  lemma {:induction false} DedupIsExact(ps: seq<Proposal>, rows: seq<Row>, existing: Existing, pair: Pair)
    requires AreProposals(ps, rows, existing)
    ensures NewPairsDistinct(ps)
    ensures Proposes(ps, pair) <==> Wanted(rows, pair) && !existing(pair)
  {
    forall i, j | 0 <= i < j < |ps| && ps[i].isNew && ps[j].isNew
      ensures ps[i].pair != ps[j].pair
    {
      SeenBefore(ps, i, j);
    }
    if Proposes(ps, pair) {
      var i :| 0 <= i < |ps| && ps[i].isNew && ps[i].pair == pair;
      assert PairOf(rows[i]) == pair;
    }
    if Wanted(rows, pair) && !existing(pair) {
      var i :| 0 <= i < |rows| && PairOf(rows[i]) == pair;
      assert ps[i].pair == pair;
      var k := FirstOfPair(ps, |ps|, pair);
      assert ps[k].isNew;
    }
  }

  // ---- The scaffold -------------------------------------------------------------------------

  /** The class emitted for one model, with the proposals whose fields it declares and their declarations. */
  datatype Block = Block(model: string, fields: seq<Proposal>, lines: seq<string>)

  function Annotation(valueType: string): string {
    if valueType == "int" then "int | None = None"
    else if valueType == "float" then "float | None = None"
    else if valueType == "bool" then "bool = False"
    else if valueType == "list" then "list[Any] = Field(default_factory=list)"
    else if valueType == "dict" then "dict[str, Any] = Field(default_factory=dict)"
    else "str = \"\""
  }

  /** The annotation names the row's own type, or str for an unknown one. */
  lemma {:induction false} AnnotationNamesType(valueType: string)
    ensures valueType in {"int", "float", "bool", "list", "dict"} ==> valueType <= Annotation(valueType)
    ensures valueType !in {"int", "float", "bool", "list", "dict"} ==> "str" <= Annotation(valueType)
  {
  }

  function Declaration(p: Proposal): string {
    p.pair.field + ": " + Annotation(p.row.valueType)
  }

  function Declarations(ps: seq<Proposal>): seq<string> {
    seq(|ps|, i requires 0 <= i < |ps| => Declaration(ps[i]))
  }

  /** Well-named fields that differ have declarations that differ. */
  lemma {:induction false} DeclarationTellsField(p: Proposal, q: Proposal)
    requires Identifier.IsIdentifier(p.pair.field) && Identifier.IsIdentifier(q.pair.field)
    ensures Declaration(p) == Declaration(q) ==> p.pair.field == q.pair.field
  {
    var a, b := p.pair.field, q.pair.field;
    if |a| < |b| {
      ColonsDiffer(a, Annotation(p.row.valueType), b, Annotation(q.row.valueType));
    } else if |b| < |a| {
      ColonsDiffer(b, Annotation(q.row.valueType), a, Annotation(p.row.valueType));
    } else {
      assert a == Declaration(p)[..|a|] && b == Declaration(q)[..|a|];
    }
  }

  lemma {:induction false} ColonsDiffer(a: string, x: string, b: string, y: string)
    requires |a| < |b| && ':' !in b
    ensures a + ": " + x != b + ": " + y
  {
    var left, right := a + ": " + x, b + ": " + y;
    assert left[|a|] == ':' && right[|a|] == b[|a|];
  }

  // ---- The order of the classes ---------------------------------------------------------------

  /** Python's order of strings: by the first character that differs, a prefix before the longer text. */
  predicate Less(a: string, b: string) {
    b != "" && (a == "" || a[0] < b[0] || (a[0] == b[0] && Less(a[1..], b[1..])))
  }

  predicate Ascending(xs: seq<string>) {
    forall i, j :: 0 <= i < j < |xs| ==> Less(xs[i], xs[j])
  }

  lemma {:induction false} LessIsTotal(a: string, b: string)
    ensures Less(a, b) || a == b || Less(b, a)
  {
    if a != "" && b != "" && a[0] == b[0] {
      LessIsTotal(a[1..], b[1..]);
      assert a == [a[0]] + a[1..] && b == [b[0]] + b[1..];
    }
  }

  lemma {:induction false} LessIsTransitive(a: string, b: string, c: string)
    requires Less(a, b) && Less(b, c)
    ensures Less(a, c)
  {
    if a != "" && a[0] == b[0] && b[0] == c[0] {
      LessIsTransitive(a[1..], b[1..], c[1..]);
    }
  }

  /** Places a text before the first greater one. */
  function Insert(xs: seq<string>, x: string): (ys: seq<string>)
    ensures |ys| == |xs| + 1 && forall y :: y in ys <==> y in xs || y == x
  {
    if xs == [] || Less(x, xs[0]) then [x] + xs
    else
      assert xs == [xs[0]] + xs[1..];
      [xs[0]] + Insert(xs[1..], x)
  }

  lemma {:induction false} InsertAscends(xs: seq<string>, x: string)
    requires Ascending(xs) && x !in xs
    ensures Ascending(Insert(xs, x))
  {
    if xs != [] {
      if Less(x, xs[0]) {
        forall j | 0 < j < |xs|
          ensures Less(x, xs[j])
        {
          LessIsTransitive(x, xs[0], xs[j]);
        }
      } else {
        LessIsTotal(x, xs[0]);
        InsertAscends(xs[1..], x);
        forall y | y in Insert(xs[1..], x)
          ensures Less(xs[0], y)
        {
          if y in xs[1..] {
            var j :| 0 <= j < |xs[1..]| && xs[1..][j] == y;
            assert xs[j + 1] == y;
          }
        }
      }
    }
  }

  /** `sorted` on distinct texts. */
  method Sort(xs: seq<string>) returns (ys: seq<string>)
    requires forall i, j :: 0 <= i < j < |xs| ==> xs[i] != xs[j]
    ensures Ascending(ys) && |ys| == |xs| && forall y :: y in ys <==> y in xs
  {
    ys := [];
    for i := 0 to |xs|
      invariant Ascending(ys) && |ys| == i && forall y :: y in ys <==> y in xs[..i]
    {
      InsertAscends(ys, xs[i]);
      ys := Insert(ys, xs[i]);
      assert xs[..i + 1] == xs[..i] + [xs[i]];
    }
    assert xs[..|xs|] == xs;
  }

  lemma {:induction false} LessIsStrict(a: string)
    ensures !Less(a, a)
  {
    if a != "" {
      LessIsStrict(a[1..]);
    }
  }

  /** The new proposals of one model, in order. */
  function NewFor(ps: seq<Proposal>, model: string): (qs: seq<Proposal>)
    ensures forall i :: 0 <= i < |qs| ==> qs[i] in ps && qs[i].isNew && qs[i].pair.model == model
  {
    if ps == [] then []
    else
      var before, p := NewFor(ps[..|ps| - 1], model), ps[|ps| - 1];
      if p.isNew && p.pair.model == model then before + [p] else before
  }

  /** The new proposals of a model keep the order of the proposals. */
  lemma {:induction false} NewForSnoc(ps: seq<Proposal>, p: Proposal, model: string)
    ensures NewFor([], model) == []
    ensures NewFor(ps + [p], model) == NewFor(ps, model) + if p.isNew && p.pair.model == model then [p] else []
  {
    assert (ps + [p])[..|ps|] == ps;
  }

  predicate DistinctFields(qs: seq<Proposal>) {
    forall i, j :: 0 <= i < j < |qs| ==> qs[i].pair.field != qs[j].pair.field
  }

  lemma {:induction false} NewForDistinct(ps: seq<Proposal>, model: string)
    requires NewPairsDistinct(ps)
    ensures DistinctFields(NewFor(ps, model))
    decreases |ps|
  {
    if ps != [] {
      var before, p := ps[..|ps| - 1], ps[|ps| - 1];
      NewForDistinct(before, model);
      var qs := NewFor(before, model);
      if p.isNew && p.pair.model == model {
        forall i | 0 <= i < |qs|
          ensures qs[i].pair.field != p.pair.field
        {
          var j :| 0 <= j < |before| && before[j] == qs[i];
          assert ps[j].pair != ps[|ps| - 1].pair;
        }
      }
    }
  }

  predicate NewIn(ps: seq<Proposal>, model: string) {
    exists i :: 0 <= i < |ps| && ps[i].isNew && ps[i].pair.model == model
  }

  lemma {:induction false} NewInSnoc(ps: seq<Proposal>, p: Proposal, model: string)
    ensures NewIn(ps + [p], model) <==> NewIn(ps, model) || (p.isNew && p.pair.model == model)
  {
    var after := ps + [p];
    if NewIn(ps, model) {
      var i :| 0 <= i < |ps| && ps[i].isNew && ps[i].pair.model == model;
      assert after[i] == ps[i];
    }
    assert after[|ps|] == p;
  }

  /** The models with a new proposal, each once. */
  ghost predicate AreModels(models: seq<string>, ps: seq<Proposal>) {
    && (forall i, j :: 0 <= i < j < |models| ==> models[i] != models[j])
    && (forall m :: m in models <==> NewIn(ps, m))
  }

  /** The texts of ascending order are pairwise distinct. */
  lemma {:induction false} AscendingModels(xs: seq<string>, ys: seq<string>, ps: seq<Proposal>)
    requires AreModels(xs, ps) && Ascending(ys) && forall y :: y in ys <==> y in xs
    ensures AreModels(ys, ps)
  {
    forall i, j | 0 <= i < j < |ys|
      ensures ys[i] != ys[j]
    {
      LessIsStrict(ys[i]);
    }
  }

  function ModelsOf(blocks: seq<Block>): seq<string> {
    seq(|blocks|, i requires 0 <= i < |blocks| => blocks[i].model)
  }

  /**
   * One class per model, in the order of the models' names; the guard against a field emitted twice
   * never drops anything from the proposals of the registry.
   */
  method RenderExtension(ps: seq<Proposal>) returns (blocks: seq<Block>)
    ensures AreModels(ModelsOf(blocks), ps) && Ascending(ModelsOf(blocks))
    ensures forall i :: 0 <= i < |blocks| ==> blocks[i].lines == Declarations(blocks[i].fields)
    ensures NewPairsDistinct(ps) ==>
              forall i :: 0 <= i < |blocks| ==> blocks[i].fields == NewFor(ps, blocks[i].model)
  {
    var models: seq<string> := [];
    for i := 0 to |ps|
      invariant AreModels(models, ps[..i])
    {
      ModelsStep(ps, i, models);
      if ps[i].isNew && ps[i].pair.model !in models {
        models := models + [ps[i].pair.model];
      }
    }
    assert ps[..|ps|] == ps;
    ghost var found := models;
    models := Sort(models);
    AscendingModels(found, models, ps);
    blocks := [];
    for i := 0 to |models|
      invariant |blocks| == i
      invariant forall k :: 0 <= k < i ==> blocks[k].model == models[k]
      invariant forall k :: 0 <= k < i ==> blocks[k].lines == Declarations(blocks[k].fields)
      invariant NewPairsDistinct(ps) ==>
                  forall k :: 0 <= k < i ==> blocks[k].fields == NewFor(ps, blocks[k].model)
    {
      var fields, lines := EmitFields(ps, models[i]);
      blocks := blocks + [Block(models[i], fields, lines)];
    }
    assert ModelsOf(blocks) == models;
  }

  lemma {:induction false} ModelsStep(ps: seq<Proposal>, i: nat, models: seq<string>)
    requires i < |ps| && AreModels(models, ps[..i])
    ensures AreModels(if ps[i].isNew && ps[i].pair.model !in models then models + [ps[i].pair.model] else models,
                      ps[..i + 1])
  {
    var models' := if ps[i].isNew && ps[i].pair.model !in models then models + [ps[i].pair.model] else models;
    assert ps[..i + 1] == ps[..i] + [ps[i]];
    forall m
      ensures m in models' <==> NewIn(ps[..i + 1], m)
    {
      NewInSnoc(ps[..i], ps[i], m);
    }
  }

  predicate DeclaresField(qs: seq<Proposal>, field: string) {
    exists i :: 0 <= i < |qs| && qs[i].pair.field == field
  }

  /** Declares every field of the model once, whatever the proposals are. */
  method EmitFields(ps: seq<Proposal>, model: string) returns (fields: seq<Proposal>, lines: seq<string>)
    ensures DistinctFields(fields) && lines == Declarations(fields)
    ensures forall f :: DeclaresField(fields, f) <==> DeclaresField(NewFor(ps, model), f)
    ensures NewPairsDistinct(ps) ==> fields == NewFor(ps, model)
  {
    var mine := NewFor(ps, model);
    if NewPairsDistinct(ps) {
      NewForDistinct(ps, model);
    }
    var emitted: set<string> := {};
    fields, lines := [], [];
    for i := 0 to |mine|
      invariant DistinctFields(fields) && lines == Declarations(fields)
      invariant forall f :: f in emitted <==> DeclaresField(fields, f)
      invariant forall f :: f in emitted <==> DeclaresField(mine[..i], f)
      invariant NewPairsDistinct(ps) ==> fields == mine[..i] && DistinctFields(mine)
    {
      var p := mine[i];
      DeclaresSnoc(mine[..i], p);
      assert mine[..i + 1] == mine[..i] + [p];
      if p.pair.field in emitted {
        assert NewPairsDistinct(ps) ==> !DistinctFields(mine) by { RepeatedField(mine, i); }
        continue;
      }
      DeclaresSnoc(fields, p);
      assert forall k :: 0 <= k < |fields| ==> DeclaresField(fields, fields[k].pair.field);
      emitted := emitted + {p.pair.field};
      fields, lines := fields + [p], lines + [Declaration(p)];
    }
    assert mine[..|mine|] == mine;
  }

  lemma {:induction false} DeclaresSnoc(qs: seq<Proposal>, q: Proposal)
    ensures forall f :: DeclaresField(qs + [q], f) <==> DeclaresField(qs, f) || f == q.pair.field
  {
    var all := qs + [q];
    forall f
      ensures DeclaresField(all, f) <==> DeclaresField(qs, f) || f == q.pair.field
    {
      assert all[|qs|] == q;
      if DeclaresField(qs, f) {
        var i :| 0 <= i < |qs| && qs[i].pair.field == f;
        assert all[i].pair.field == f;
      }
    }
  }

  lemma {:induction false} RepeatedField(qs: seq<Proposal>, i: nat)
    requires i < |qs|
    ensures DeclaresField(qs[..i], qs[i].pair.field) ==> !DistinctFields(qs)
  {
    if DeclaresField(qs[..i], qs[i].pair.field) {
      var k :| 0 <= k < i && qs[..i][k].pair.field == qs[i].pair.field;
      assert qs[k].pair.field == qs[i].pair.field;
    }
  }

  /** Every class of the scaffold extends a known model and every field it declares is well named. */
  lemma {:induction false} ScaffoldIsWellNamed(ps: seq<Proposal>, rows: seq<Row>, existing: Existing, model: string, i: nat)
    requires AreProposals(ps, rows, existing) && i < |NewFor(ps, model)|
    ensures model in MODELS && Identifier.IsIdentifier(NewFor(ps, model)[i].pair.field)
  {
    var q := NewFor(ps, model)[i];
    var k :| 0 <= k < |ps| && ps[k] == q;
    var row := rows[k];
    assert q.pair == PairOf(row);
    if row.suggested != "" {
      Identifier.IdentifierIsWellFormed(Last(DottedPath.Split(row.suggested)));
    } else {
      Identifier.IdentifierIsWellFormed(WithoutBrackets(Last(DottedPath.Split(row.key.path))));
    }
  }

  // ---- Promotion ----------------------------------------------------------------------------

  const LISTING_LIMIT: nat := 10_000

  datatype Git = Committed | CommandFailed | OtherError

  datatype BranchResult = BranchResult(created: bool, error: bool, proposals: seq<Proposal>)

  /** The registry calls that mark the proposals promoted. */
  function Promote(rows: Table, ps: seq<Proposal>, branch: string, clock: nat -> int): Table {
    if ps == [] then rows
    else
      var n := |ps| - 1;
      Apply(Promote(rows, ps[..n], branch, clock),
            SetStatus(ps[n].row.id, PROMOTED, Some("branch=" + branch), clock(n)))
  }

  ghost predicate AnyNew(rows: seq<Row>, existing: Existing) {
    exists pair :: Wanted(rows, pair) && !existing(pair)
  }

  predicate SomeNew(ps: seq<Proposal>) {
    exists k :: 0 <= k < |ps| && ps[k].isNew
  }

  method HasNew(ps: seq<Proposal>) returns (anyNew: bool)
    ensures anyNew <==> SomeNew(ps)
  {
    anyNew := false;
    for i := 0 to |ps|
      invariant anyNew <==> SomeNew(ps[..i])
    {
      anyNew := anyNew || ps[i].isNew;
      assert ps[i].isNew ==> ps[..i + 1][i].isNew;
      assert forall k :: 0 <= k < i ==> ps[..i + 1][k] == ps[..i][k];
    }
    assert ps[..|ps|] == ps;
  }

  lemma {:induction false} NewIsAnyNew(ps: seq<Proposal>, rows: seq<Row>, existing: Existing)
    requires AreProposals(ps, rows, existing)
    ensures AnyNew(rows, existing) <==> SomeNew(ps)
  {
    if AnyNew(rows, existing) {
      var pair :| Wanted(rows, pair) && !existing(pair);
      DedupIsExact(ps, rows, existing, pair);
    }
    if k :| 0 <= k < |ps| && ps[k].isNew {
      DedupIsExact(ps, rows, existing, ps[k].pair);
      assert Proposes(ps, ps[k].pair);
    }
  }

  method PromoteEach(registry: FieldRegistry, ps: seq<Proposal>, branch: string, clock: nat -> int)
    modifies registry
    ensures registry.rows == Promote(old(registry.rows), ps, branch, clock)
  {
    for i := 0 to |ps|
      invariant registry.rows == Promote(old(registry.rows), ps[..i], branch, clock)
    {
      assert ps[..i + 1][..i] == ps[..i];
      var found := registry.SetStatus(ps[i].row.id, PROMOTED, Some("branch=" + branch), clock(i));
    }
    assert ps[..|ps|] == ps;
  }

  /** A raised error other than a failed command propagates; the registry is then untouched. */
  method CreateUpdateBranch(registry: FieldRegistry, listing: seq<Row>, existing: Existing,
                            branch: string, git: Git, markPromoted: bool, clock: nat -> int)
    returns (r: Result<BranchResult, ()>)
    requires IsListing(registry.rows, LISTING_LIMIT, listing)
    modifies registry
    ensures r.Ok? ==> AreProposals(r.value.proposals, Selected(listing, {APPROVED}), existing)
    ensures r.Ok? ==> r.value.error == !r.value.created
    ensures r.Ok? && r.value.created <==> git == Committed && AnyNew(Selected(listing, {APPROVED}), existing)
    ensures r.Err? <==> git == OtherError && AnyNew(Selected(listing, {APPROVED}), existing)
    ensures registry.rows == if r.Ok? && r.value.created && markPromoted
                             then Promote(old(registry.rows), r.value.proposals, branch, clock)
                             else old(registry.rows)
  {
    var proposals := ProposeFromRegistry(listing, {APPROVED}, existing);
    var anyNew := HasNew(proposals);
    NewIsAnyNew(proposals, Selected(listing, {APPROVED}), existing);
    if !anyNew {
      return Ok(BranchResult(false, true, proposals));
    }
    match git
    case OtherError =>
      return Err(());
    case CommandFailed =>
      return Ok(BranchResult(false, true, proposals));
    case Committed =>
      if markPromoted {
        PromoteEach(registry, proposals, branch, clock);
      }
      return Ok(BranchResult(true, false, proposals));
  }

  predicate Targets(ps: seq<Proposal>, id: nat) {
    exists i :: 0 <= i < |ps| && ps[i].row.id == id
  }

  /** Promotion marks exactly the rows of the proposals and leaves every other row as it was. */
  lemma {:induction false} PromoteMarks(rows: Table, ps: seq<Proposal>, branch: string, clock: nat -> int, i: nat)
    requires DistinctIds(rows) && i < |rows|
    ensures var rows' := Promote(rows, ps, branch, clock);
            && |rows'| == |rows| && rows'[i].id == rows[i].id
            && (Targets(ps, rows[i].id) ==> rows'[i].status == PROMOTED && rows'[i].notes == "branch=" + branch)
            && (!Targets(ps, rows[i].id) ==> rows'[i] == rows[i])
    decreases |ps|
  {
    if ps != [] {
      var n := |ps| - 1;
      PromoteKeepsIds(rows, ps[..n], branch, clock);
      PromoteMarks(rows, ps[..n], branch, clock, i);
      var id := rows[i].id;
      if Targets(ps[..n], id) {
        var j :| 0 <= j < n && ps[..n][j].row.id == id;
        assert ps[j].row.id == id;
      }
      if Targets(ps, id) && ps[n].row.id != id {
        var j :| 0 <= j < |ps| && ps[j].row.id == id;
        assert ps[..n][j].row.id == id;
      }
    }
  }

  lemma {:induction false} PromoteKeepsIds(rows: Table, ps: seq<Proposal>, branch: string, clock: nat -> int)
    ensures var rows' := Promote(rows, ps, branch, clock);
            |rows'| == |rows| && forall i :: 0 <= i < |rows| ==> rows'[i].id == rows[i].id
    decreases |ps|
  {
    if ps != [] {
      PromoteKeepsIds(rows, ps[..|ps| - 1], branch, clock);
    }
  }

  lemma {:induction false} SelectedIn(listing: seq<Row>, statuses: set<Status>, row: Row)
    ensures row in Selected(listing, statuses) <==> row in listing && row.status in statuses
    decreases |listing|
  {
    if listing != [] {
      SelectedIn(listing[..|listing| - 1], statuses, row);
      assert listing == listing[..|listing| - 1] + [listing[|listing| - 1]];
    }
  }

  lemma {:induction false} NoneSelected(listing: seq<Row>, statuses: set<Status>)
    requires forall i :: 0 <= i < |listing| ==> listing[i].status !in statuses
    ensures Selected(listing, statuses) == []
    decreases |listing|
  {
    if listing != [] {
      NoneSelected(listing[..|listing| - 1], statuses);
    }
  }

  /**
   * After a successful promotion a row is still approved exactly when it was approved and the
   * listing limit cut it off; the rows that were not approved are as before.
   */
  lemma {:induction false} StillApproved(rows: Table, listing: seq<Row>, ps: seq<Proposal>, existing: Existing,
                                         branch: string, clock: nat -> int, i: nat)
    requires DistinctIds(rows) && IsListing(rows, LISTING_LIMIT, listing) && i < |rows|
    requires AreProposals(ps, Selected(listing, {APPROVED}), existing)
    ensures var rows' := Promote(rows, ps, branch, clock);
            && |rows'| == |rows|
            && (rows'[i].status == APPROVED <==> rows[i].status == APPROVED && rows[i] !in listing)
            && (rows[i].status != APPROVED ==> rows'[i] == rows[i])
  {
    PromoteMarks(rows, ps, branch, clock, i);
    var chosen := Selected(listing, {APPROVED});
    SelectedIn(listing, {APPROVED}, rows[i]);
    if Targets(ps, rows[i].id) {
      var j :| 0 <= j < |ps| && ps[j].row.id == rows[i].id;
      SelectedIn(listing, {APPROVED}, chosen[j]);
      assert chosen[j] in rows;
      var k :| 0 <= k < |rows| && rows[k] == chosen[j];
      assert k == i;
    }
    if rows[i] in chosen {
      var j :| 0 <= j < |chosen| && chosen[j] == rows[i];
      assert ps[j].row.id == rows[i].id;
    }
  }

  /**
   * With no more rows than the listing limit promotion is a one-shot transition: no row stays
   * approved, so a second call finds nothing to propose.
   */
  lemma {:induction false} PromotionIsOneShot(rows: Table, listing: seq<Row>, ps: seq<Proposal>, existing: Existing,
                                              branch: string, clock: nat -> int, listing': seq<Row>)
    requires DistinctIds(rows) && |rows| <= LISTING_LIMIT && IsListing(rows, LISTING_LIMIT, listing)
    requires AreProposals(ps, Selected(listing, {APPROVED}), existing)
    requires IsListing(Promote(rows, ps, branch, clock), LISTING_LIMIT, listing')
    ensures var rows' := Promote(rows, ps, branch, clock);
            forall i :: 0 <= i < |rows'| ==> rows'[i].status != APPROVED
    ensures Selected(listing', {APPROVED}) == []
  {
    var rows' := Promote(rows, ps, branch, clock);
    forall i | 0 <= i < |rows'|
      ensures rows'[i].status != APPROVED
    {
      PromoteKeepsIds(rows, ps, branch, clock);
      StillApproved(rows, listing, ps, existing, branch, clock, i);
      FullListing(rows, LISTING_LIMIT, listing, rows[i]);
    }
    forall i | 0 <= i < |listing'|
      ensures listing'[i].status !in {APPROVED}
    {
      var k :| 0 <= k < |rows'| && rows'[k] == listing'[i];
    }
    NoneSelected(listing', {APPROVED});
  }
}
