/**
 * Priority scoring of an incident: tengen/tools/triage_tools.py, score_incident.
 * Raw scores are exact rationals, and Score rounds them half-even. The program computes with doubles,
 * where a tie may break either way; what does not depend on ties is stated with RoundsTo.
 */
module TriageScore {

  datatype Severity = Critical | High | Medium | Low | Info

  datatype SourceType = Aws | Gcp | Azure | CrowdStrike | Firewall | Ddos | K8s | OpenShift | Unknown

  /** The parts of a NormalizedEvent that triage reads. */
  datatype Event = Event(id: string, identity: string, source: SourceType, severity: Severity, privileged: bool)

  function SeverityScore(s: Severity): real {
    match s
    case Critical => 10.0
    case High => 7.0
    case Medium => 4.0
    case Low => 2.0
    case Info => 0.5
  }

  function SourceWeight(s: SourceType): real {
    match s
    case CrowdStrike => 1.5
    case Aws => 1.2
    case Gcp => 1.2
    case Azure => 1.2
    case K8s => 1.3
    case OpenShift => 1.3
    case Firewall => 0.9
    case Ddos => 1.0
    case Unknown => 0.5
  }

  function Max(a: real, b: real): real {
    if a >= b then a else b
  }

  function MaxSeverity(es: seq<Event>): real
    requires es != []
  {
    var s := SeverityScore(es[|es| - 1].severity);
    if |es| == 1 then s else Max(MaxSeverity(es[..|es| - 1]), s)
  }

  predicate AnyPrivileged(es: seq<Event>) {
    exists i :: 0 <= i < |es| && es[i].privileged
  }

  /** `min(1.0 + (n - 1) * 0.2, 3.0)` with the privileged boost. */
  function Recurrence(n: nat, privileged: bool): real {
    var grown := 1.0 + (n - 1) as real * 0.2;
    var capped := if grown <= 3.0 then grown else 3.0;
    if privileged then capped * 1.5 else capped
  }

  function RoundHalfEven(x: real): int {
    var below := x.Floor;
    var rest := x - below as real;
    if rest < 0.5 then below
    else if rest > 0.5 then below + 1
    else if below % 2 == 0 then below
    else below + 1
  }

  function Round2(x: real): real {
    RoundHalfEven(x * 100.0) as real / 100.0
  }

  function Product(severity: real, weight: real, recurrence: real): real {
    severity * weight * recurrence
  }

  function Raw(s: Severity, w: SourceType, r: real): real {
    Product(SeverityScore(s), SourceWeight(w), r)
  }

  function RawScore(es: seq<Event>): real
    requires es != []
  {
    Product(MaxSeverity(es), SourceWeight(es[0].source), Recurrence(|es|, AnyPrivileged(es)))
  }

  function Score(es: seq<Event>): real {
    if es == [] then 0.0 else Round2(RawScore(es))
  }

  /** The documented cap: maximum severity times source weight times 3.0 times 1.5. */
  function Cap(es: seq<Event>): real
    requires es != []
  {
    Product(MaxSeverity(es), SourceWeight(es[0].source), 3.0 * 1.5)
  }

  /** All events come from one source type, as in every incident that correlation builds. */
  predicate OneSource(es: seq<Event>) {
    forall i, j :: 0 <= i < |es| && 0 <= j < |es| ==> es[i].source == es[j].source
  }

  // ---- Rounding -----------------------------------------------------------------------------

  function Hundredths(k: int): real {
    k as real / 100.0
  }

  /** y has two decimals and is as near to x as rounding a value within 0.001 of x can make it. */
  ghost predicate RoundsTo(x: real, y: real) {
    x - 0.006 < y < x + 0.006 && exists k :: y == Hundredths(k)
  }

  lemma {:induction false} RoundNear(x: real)
    ensures x - 0.005 <= Round2(x) <= x + 0.005
  {
  }

  lemma {:induction false} RoundMonotone(x: real, y: real)
    requires x <= y
    ensures Round2(x) <= Round2(y)
  {
    var a, b := x * 100.0, y * 100.0;
    assert a.Floor <= b.Floor;
    assert RoundHalfEven(a) <= RoundHalfEven(b);
  }

  lemma {:induction false} RoundSeparates(x: real, y: real)
    requires x + 0.02 <= y
    ensures Round2(x) < Round2(y)
  {
    RoundNear(x);
    RoundNear(y);
  }

  // ---- What the factors are -----------------------------------------------------------------

  /** MaxSeverity is the severity score of some event and bounds them all. */
  lemma {:induction false} MaxSeverityIsMax(es: seq<Event>)
    requires es != []
    ensures forall i :: 0 <= i < |es| ==> SeverityScore(es[i].severity) <= MaxSeverity(es)
    ensures exists i :: 0 <= i < |es| && SeverityScore(es[i].severity) == MaxSeverity(es)
  {
    var n := |es| - 1;
    if n == 0 {
      assert SeverityScore(es[0].severity) == MaxSeverity(es);
    } else {
      MaxSeverityIsMax(es[..n]);
      var w :| 0 <= w < n && SeverityScore(es[..n][w].severity) == MaxSeverity(es[..n]);
      assert SeverityScore(es[w].severity) == MaxSeverity(es[..n]);
      assert SeverityScore(es[n].severity) == MaxSeverity(es) || MaxSeverity(es) == MaxSeverity(es[..n]);
      forall i | 0 <= i < |es|
        ensures SeverityScore(es[i].severity) <= MaxSeverity(es)
      {
        if i < n { assert es[i] == es[..n][i]; }
      }
    }
  }

  /** The severity level that MaxSeverity scores. */
  lemma {:induction false} TopSeverity(es: seq<Event>) returns (s: Severity)
    requires es != []
    ensures SeverityScore(s) == MaxSeverity(es)
    ensures s == Info <==> forall i :: 0 <= i < |es| ==> es[i].severity == Info
  {
    MaxSeverityIsMax(es);
    var w :| 0 <= w < |es| && SeverityScore(es[w].severity) == MaxSeverity(es);
    s := es[w].severity;
  }

  lemma {:induction false} AppendedFactors(es: seq<Event>, e: Event)
    requires es != []
    ensures MaxSeverity(es + [e]) == Max(MaxSeverity(es), SeverityScore(e.severity))
    ensures AnyPrivileged(es + [e]) <==> AnyPrivileged(es) || e.privileged
    ensures (es + [e])[0] == es[0]
  {
    var all := es + [e];
    assert all[..|all| - 1] == es;
    if AnyPrivileged(es) {
      var i :| 0 <= i < |es| && es[i].privileged;
      assert all[i].privileged;
    }
    if e.privileged {
      assert all[|es|].privileged;
    }
  }

  // ---- Laws of the score --------------------------------------------------------------------

  /** For one severity level and one source the raw score is linear in the recurrence factor. */
  lemma {:induction false} RawAt(s: Severity, w: SourceType, r: real, r': real)
    requires 1.0 <= r <= r'
    ensures Raw(s, w, r) <= Raw(s, w, r')
    ensures r + 0.2 <= r' ==> Raw(s, w, r) + 0.02 <= Raw(s, w, r')
  {
    match s case Critical => case High => case Medium => case Low => case Info =>
  }

  /** A higher severity level raises the raw score by more than rounding can hide. */
  lemma {:induction false} RawSeverityStep(s: Severity, s': Severity, w: SourceType, r: real)
    requires 1.0 <= r && SeverityScore(s) < SeverityScore(s')
    ensures Raw(s, w, r) + 0.02 <= Raw(s', w, r)
  {
    assert SeverityScore(s') * SourceWeight(w) - SeverityScore(s) * SourceWeight(w) >= 0.75 by {
      match w case Aws => case Gcp => case Azure => case CrowdStrike => case Firewall =>
      case Ddos => case K8s => case OpenShift => case Unknown =>
    }
    Widen(SeverityScore(s) * SourceWeight(w), SeverityScore(s') * SourceWeight(w), r);
  }

  lemma {:induction false} Widen(lo: real, hi: real, r: real)
    requires 1.0 <= r && lo + 0.75 <= hi
    ensures lo * r + 0.75 <= hi * r
  {
    assert (hi - lo) * r >= (hi - lo);
    assert (hi - lo) * r == hi * r - lo * r;
  }

  /** The score of an incident, by its worst severity level, its source and its recurrence factor. */
  lemma {:induction false} ScoreAt(es: seq<Event>) returns (s: Severity)
    requires es != []
    ensures SeverityScore(s) == MaxSeverity(es)
    ensures s == Info <==> forall i :: 0 <= i < |es| ==> es[i].severity == Info
    ensures RawScore(es) == Raw(s, es[0].source, Recurrence(|es|, AnyPrivileged(es)))
    ensures Cap(es) == Raw(s, es[0].source, 4.5)
  {
    s := TopSeverity(es);
  }

  /** Growing the worst severity from s to s' and the factor from r to r' lifts the raw score visibly. */
  lemma {:induction false} GrowthShows(s: Severity, s': Severity, w: SourceType, r: real, r': real)
    requires 1.0 <= r && (r == r' || r + 0.2 <= r') && SeverityScore(s) <= SeverityScore(s')
    ensures if s == s' && r == r' then Raw(s, w, r) == Raw(s', w, r') else Raw(s, w, r) + 0.02 <= Raw(s', w, r')
  {
    if SeverityScore(s) < SeverityScore(s') {
      RawAt(s, w, r, r');
      RawSeverityStep(s, s', w, r');
    } else {
      assert s == s';
      RawAt(s, w, r, r');
    }
  }

  lemma {:induction false} FactorSteps(n: nat, p: bool, p': bool)
    requires 0 < n && (p ==> p')
    ensures var r, r' := Recurrence(n, p), Recurrence(n + 1, p');
            1.0 <= r && (r == r' || r + 0.2 <= r') && (r == r' <==> n >= 11 && (p' ==> p))
  {
  }

  /** The event changes none of the factors: neither the count, nor the worst severity, nor the boost. */
  predicate ChangesNothing(es: seq<Event>, e: Event)
    requires es != []
  {
    && |es| >= 11
    && SeverityScore(e.severity) <= MaxSeverity(es)
    && (e.privileged ==> AnyPrivileged(es))
  }

  lemma {:induction false} RawGrowth(es: seq<Event>, e: Event)
    requires es != []
    ensures if ChangesNothing(es, e) then RawScore(es + [e]) == RawScore(es) else RawScore(es) + 0.02 <= RawScore(es + [e])
  {
    AppendedFactors(es, e);
    var all := es + [e];
    var s := ScoreAt(es);
    var s' := ScoreAt(all);
    FactorSteps(|es|, AnyPrivileged(es), AnyPrivileged(all));
    GrowthShows(s, s', es[0].source, Recurrence(|es|, AnyPrivileged(es)), Recurrence(|all|, AnyPrivileged(all)));
  }

  /**
   * Appending an event never lowers the score, and leaves it exactly as it was if and only if the
   * incident already has 11 events, the event is no more severe than the worst so far, and it adds
   * no first privileged actor.
   */
  lemma {:induction false} AppendLaw(es: seq<Event>, e: Event)
    requires es != []
    ensures Score(es) <= Score(es + [e])
    ensures Score(es + [e]) == Score(es) <==> ChangesNothing(es, e)
  {
    RawGrowth(es, e);
    if !ChangesNothing(es, e) {
      RoundSeparates(RawScore(es), RawScore(es + [e]));
    }
  }

  /** However the two scores are rounded, an event that changes a factor raises the score. */
  lemma {:induction false} AppendShows(es: seq<Event>, e: Event, y: real, y': real)
    requires es != [] && RoundsTo(RawScore(es), y) && RoundsTo(RawScore(es + [e]), y')
    ensures !ChangesNothing(es, e) ==> y < y'
    ensures ChangesNothing(es, e) ==> RawScore(es + [e]) == RawScore(es)
  {
    RawGrowth(es, e);
  }

  /** The score does not depend on the order of the events of an incident with one source type. */
  lemma {:induction false} OrderIrrelevant(es: seq<Event>, es': seq<Event>)
    requires multiset(es) == multiset(es') && OneSource(es)
    ensures Score(es) == Score(es')
  {
    SameLength(es, es');
    if es != [] {
      SeverityUpTo(es, es');
      SeverityUpTo(es', es);
      PrivilegedIn(es, es');
      PrivilegedIn(es', es);
      SameSource(es, es');
      SameFactors(es, es');
    }
  }

  lemma {:induction false} SameFactors(es: seq<Event>, es': seq<Event>)
    requires es != [] && |es| == |es'|
    requires es[0].source == es'[0].source && MaxSeverity(es) == MaxSeverity(es')
    requires AnyPrivileged(es) == AnyPrivileged(es')
    ensures Score(es) == Score(es')
  {
    assert RawScore(es) == RawScore(es');
  }

  lemma {:induction false} SameSource(es: seq<Event>, es': seq<Event>)
    requires es != [] && es' != [] && multiset(es) == multiset(es') && OneSource(es)
    ensures es[0].source == es'[0].source
  {
    assert es'[0] in multiset(es');
    var i :| 0 <= i < |es| && es[i] == es'[0];
  }

  lemma {:induction false} SameLength(es: seq<Event>, es': seq<Event>)
    requires multiset(es) == multiset(es')
    ensures |es| == |es'|
  {
    assert |multiset(es)| == |es| && |multiset(es')| == |es'|;
  }

  lemma {:induction false} SeverityUpTo(es: seq<Event>, es': seq<Event>)
    requires es != [] && es' != [] && multiset(es) == multiset(es')
    ensures MaxSeverity(es) <= MaxSeverity(es')
  {
    MaxSeverityIsMax(es);
    MaxSeverityIsMax(es');
    var w :| 0 <= w < |es| && SeverityScore(es[w].severity) == MaxSeverity(es);
    assert es[w] in multiset(es');
    var v :| 0 <= v < |es'| && es'[v] == es[w];
  }

  lemma {:induction false} PrivilegedIn(es: seq<Event>, es': seq<Event>)
    requires multiset(es) == multiset(es')
    ensures AnyPrivileged(es) ==> AnyPrivileged(es')
  {
    if AnyPrivileged(es) {
      var w :| 0 <= w < |es| && es[w].privileged;
      assert es[w] in multiset(es');
      var v :| 0 <= v < |es'| && es'[v] == es[w];
    }
  }

  // ---- What each factor contributes -----------------------------------------------------------

  /** A privileged actor raises the raw score to one and a half times what it would be, at any length. */
  lemma {:induction false} PrivilegedBoost(es: seq<Event>, es': seq<Event>)
    requires es != [] && |es| == |es'| && es[0].source == es'[0].source && MaxSeverity(es) == MaxSeverity(es')
    requires !AnyPrivileged(es) && AnyPrivileged(es')
    ensures RawScore(es') == 1.5 * RawScore(es)
  {
    var s := TopSeverity(es);
    FactorBoost(|es|);
    RawScales(s, es[0].source, Recurrence(|es|, false));
  }

  lemma {:induction false} FactorBoost(n: nat)
    requires n > 0
    ensures Recurrence(n, true) == Recurrence(n, false) * 1.5
  {
  }

  lemma {:induction false} RawScales(s: Severity, w: SourceType, r: real)
    ensures Raw(s, w, r * 1.5) == 1.5 * Raw(s, w, r)
  {
    match s case Critical => case High => case Medium => case Low => case Info =>
  }

  /**
   * Without a privileged actor the recurrence factor is 1 for one event, grows by 0.2 with each
   * further event up to the eleventh, and is 3 from there on.
   */
  lemma {:induction false} FactorGrowth(n: nat)
    requires n > 0
    ensures Recurrence(1, false) == 1.0
    ensures n < 11 ==> Recurrence(n + 1, false) == Recurrence(n, false) + 0.2
    ensures n >= 11 ==> Recurrence(n, false) == 3.0
  {
  }

  /** The raw score of unprivileged events in closed form. */
  lemma {:induction false} UnprivilegedScore(es: seq<Event>)
    requires es != [] && !AnyPrivileged(es)
    ensures RawScore(es) ==
            MaxSeverity(es) * SourceWeight(es[0].source) * if |es| >= 11 then 3.0 else (|es| + 4) as real / 5.0
  {
  }

  /** The scores of single unprivileged events: by severity at weight 1, by source at the top severity. */
  lemma {:induction false} DocumentedTables(e: Event)
    requires !e.privileged
    ensures e.source == Ddos ==>
              Score([e]) == match e.severity
                            case Critical => 10.0 case High => 7.0 case Medium => 4.0 case Low => 2.0 case Info => 0.5
    ensures e.severity == Critical ==>
              Score([e]) == match e.source
                            case CrowdStrike => 15.0 case K8s => 13.0 case OpenShift => 13.0 case Aws => 12.0
                            case Gcp => 12.0 case Azure => 12.0 case Ddos => 10.0 case Firewall => 9.0 case Unknown => 5.0
  {
    var tenths := Tenths(e.source);
    assert SourceWeight(e.source) == tenths as real / 10.0;
    assert RawScore([e]) == SeverityScore(e.severity) * SourceWeight(e.source);
    if e.severity == Critical {
      RoundWhole(RawScore([e]), 100 * tenths);
    } else if e.source == Ddos {
      RoundWhole(RawScore([e]), match e.severity case High => 700 case Medium => 400 case Low => 200 case _ => 50);
    }
  }

  /** One HIGH AWS event scores 8.4, and 12.6 by a privileged actor. */
  lemma {:induction false} WorkedExample(e: Event)
    requires e.source == Aws && e.severity == High
    ensures Score([e]) == if e.privileged then 12.6 else 8.4
  {
    assert AnyPrivileged([e]) <==> [e][0].privileged;
    RoundWhole(RawScore([e]), if e.privileged then 1260 else 840);
  }

  // ---- The cap, however the score is rounded --------------------------------------------------

  /** The sources whose weight puts the cap of INFO events between two hundredths. */
  predicate HalfwayCap(w: SourceType) {
    w in {CrowdStrike, K8s, OpenShift, Firewall, Unknown}
  }

  /** Long privileged incidents made of INFO events, from such a source. */
  predicate MayExceedCap(es: seq<Event>)
    requires es != []
  {
    && HalfwayCap(es[0].source)
    && (forall i :: 0 <= i < |es| ==> es[i].severity == Info)
    && |es| >= 11
    && AnyPrivileged(es)
  }

  /** The half-even score is one of the roundings. */
  lemma {:induction false} ScoreRounds(es: seq<Event>)
    requires es != []
    ensures RoundsTo(RawScore(es), Score(es))
  {
    RoundNear(RawScore(es));
    assert Score(es) == Hundredths(RoundHalfEven(RawScore(es) * 100.0));
  }

  /** A cap is a whole number of hundredths, or lies halfway between two. */
  lemma {:induction false} CapGrid(s: Severity, w: SourceType) returns (k: int)
    ensures Raw(s, w, 4.5) == Hundredths(k) + if s == Info && HalfwayCap(w) then 0.005 else 0.0
  {
    var t := Tenths(w);
    assert SourceWeight(w) == t as real / 10.0;
    match s
    case Critical => k := 450 * t;
    case High => k := 315 * t;
    case Medium => k := 180 * t;
    case Low => k := 90 * t;
    case Info =>
      k := if t == 15 then 337 else if t == 13 then 292 else if t == 12 then 270
           else if t == 10 then 225 else if t == 9 then 202 else 112;
  }

  lemma {:induction false} RoundedAt(s: Severity, w: SourceType, r: real, y: real)
    requires (1.0 <= r <= 4.2 || r == 4.5) && RoundsTo(Raw(s, w, r), y)
    ensures 0.0 < y <= 67.5
    ensures y > Raw(s, w, 4.5) ==> s == Info && HalfwayCap(w) && r == 4.5 && y == Raw(s, w, 4.5) + 0.005
    ensures r == 4.5 ==> Raw(s, w, 4.5) - 0.005 <= y <= Raw(s, w, 4.5) + 0.005
  {
    var k := CapGrid(s, w);
    var j :| y == Hundredths(j);
    RawBounds(s, w, r);
    if r == 4.5 {
      assert k <= j <= k + if s == Info && HalfwayCap(w) then 1 else 0;
    }
  }

  lemma {:induction false} RawBounds(s: Severity, w: SourceType, r: real)
    requires 1.0 <= r <= 4.2 || r == 4.5
    ensures 0.25 <= Raw(s, w, r) && Raw(s, w, 4.5) <= 67.5
    ensures s == Info && HalfwayCap(w) ==> Raw(s, w, 4.5) <= 3.375
    ensures r <= 4.2 ==> Raw(s, w, r) + 0.02 <= Raw(s, w, 4.5)
  {
    RawAt(s, w, 1.0, r);
    if r <= 4.2 {
      RawAt(s, w, r, 4.5);
    }
    assert 0.25 <= Raw(s, w, 1.0) && Raw(s, w, 4.5) <= 67.5 by {
      match s case Critical => case High => case Medium => case Low => case Info =>
    }
  }

  /**
   * Whichever way ties break, no score exceeds 67.5, only a long privileged all-INFO incident of a
   * halfway source can exceed the documented cap, and then by half a hundredth; with the full
   * recurrence factor the score is never further from the cap than that.
   */
  lemma {:induction false} CapLaw(es: seq<Event>, y: real)
    requires es != [] && RoundsTo(RawScore(es), y)
    ensures 0.0 < y <= 67.5
    ensures y > Cap(es) ==> MayExceedCap(es) && y == Cap(es) + 0.005
    ensures |es| >= 11 && AnyPrivileged(es) ==> Cap(es) - 0.005 <= y <= Cap(es) + 0.005
  {
    var s := ScoreAt(es);
    FullFactor(|es|, AnyPrivileged(es));
    RoundedAt(s, es[0].source, Recurrence(|es|, AnyPrivileged(es)), y);
  }

  /** Some rounding exceeds the documented cap exactly for those incidents. */
  lemma {:induction false} CapExceedableExactly(es: seq<Event>)
    requires es != []
    ensures (exists y :: RoundsTo(RawScore(es), y) && y > Cap(es)) <==> MayExceedCap(es)
  {
    if MayExceedCap(es) {
      var s := ScoreAt(es);
      FullFactor(|es|, AnyPrivileged(es));
      var k := CapGrid(s, es[0].source);
      var y := Hundredths(k + 1);
      assert RoundsTo(RawScore(es), y) && y > Cap(es);
    }
    if y :| RoundsTo(RawScore(es), y) && y > Cap(es) {
      CapLaw(es, y);
    }
  }

  // ---- The cap under exact half-even rounding -------------------------------------------------

  /**
   * Rounded half-even from the exact value, the cap is exceeded exactly by long privileged
   * CrowdStrike incidents made of INFO events, whose 3.375 rounds up to 3.38.
   */
  lemma {:induction false} HalfEvenCapLaw(es: seq<Event>)
    requires es != []
    ensures 0.0 < Score(es) <= 67.5
    ensures Score(es) > Cap(es) <==>
              && es[0].source == CrowdStrike
              && (forall i :: 0 <= i < |es| ==> es[i].severity == Info)
              && |es| >= 11
              && AnyPrivileged(es)
  {
    var s := ScoreAt(es);
    FullFactor(|es|, AnyPrivileged(es));
    CapAt(s, es[0].source, Recurrence(|es|, AnyPrivileged(es)));
  }

  lemma {:induction false} FullFactor(n: nat, p: bool)
    requires 0 < n
    ensures var r := Recurrence(n, p); (1.0 <= r <= 4.2 || r == 4.5) && (r == 4.5 <==> n >= 11 && p)
  {
  }

  lemma {:induction false} CapAt(s: Severity, w: SourceType, r: real)
    requires 1.0 <= r <= 4.2 || r == 4.5
    ensures 0.0 < Round2(Raw(s, w, r)) <= 67.5
    ensures Round2(Raw(s, w, r)) > Raw(s, w, 4.5) <==> s == Info && w == CrowdStrike && r == 4.5
  {
    RoundedCap(s, w);
    if r <= 4.2 {
      BelowCap(s, w, r);
    }
  }

  lemma {:induction false} BelowCap(s: Severity, w: SourceType, r: real)
    requires 1.0 <= r <= 4.2
    ensures 0.0 < Round2(Raw(s, w, r)) <= Raw(s, w, 4.5) <= 67.5
  {
    RoundNear(Raw(s, w, r));
    RawAt(s, w, r, 4.5);
    RawAt(s, w, 1.0, r);
    assert 0.25 <= Raw(s, w, 1.0) && Raw(s, w, 4.5) <= 67.5 by {
      match s case Critical => case High => case Medium => case Low => case Info =>
    }
  }

  lemma {:induction false} RoundBetween(x: real, k: int)
    requires k as real <= x * 100.0 <= k as real + 0.5
    ensures x * 100.0 < k as real + 0.5 || k % 2 == 0 ==> Round2(x) == k as real / 100.0
    ensures x * 100.0 == k as real + 0.5 && k % 2 != 0 ==> Round2(x) == (k + 1) as real / 100.0
  {
    assert (x * 100.0).Floor == k;
  }

  function Tenths(w: SourceType): int {
    match w
    case CrowdStrike => 15
    case K8s => 13
    case OpenShift => 13
    case Firewall => 9
    case Ddos => 10
    case Unknown => 5
    case _ => 12
  }

  /** The only cap that two-decimal rounding lifts is 0.5 * 1.5 * 4.5. */
  lemma {:induction false} RoundedCap(s: Severity, w: SourceType)
    ensures Round2(Raw(s, w, 4.5)) > Raw(s, w, 4.5) <==> s == Info && w == CrowdStrike
    ensures 0.0 < Round2(Raw(s, w, 4.5)) <= 67.5
  {
    var t := Tenths(w);
    assert SourceWeight(w) == t as real / 10.0;
    match s
    case Critical =>
      RoundWhole(Raw(s, w, 4.5), 450 * t);
    case High =>
      RoundWhole(Raw(s, w, 4.5), 315 * t);
    case Medium =>
      RoundWhole(Raw(s, w, 4.5), 180 * t);
    case Low =>
      RoundWhole(Raw(s, w, 4.5), 90 * t);
    case Info =>
      RoundedInfoCap(w);
  }

  lemma {:induction false} RoundWhole(x: real, k: int)
    requires x * 100.0 == k as real
    ensures Round2(x) == x
  {
    RoundBetween(x, k);
  }

  lemma {:induction false} RoundedInfoCap(w: SourceType)
    ensures Round2(Raw(Info, w, 4.5)) > Raw(Info, w, 4.5) <==> w == CrowdStrike
    ensures 0.0 < Round2(Raw(Info, w, 4.5)) <= 67.5
  {
    var t := Tenths(w);
    assert SourceWeight(w) == t as real / 10.0;
    assert Raw(Info, w, 4.5) * 100.0 == 22.5 * t as real;
    var k := if t == 15 then 337 else if t == 13 then 292 else if t == 12 then 270
             else if t == 10 then 225 else if t == 9 then 202 else 112;
    RoundBetween(Raw(Info, w, 4.5), k);
  }

  /** A concrete incident above the documented cap. */
  lemma {:induction false} CapExceeded() returns (es: seq<Event>)
    ensures es != [] && Score(es) == 3.38 && Cap(es) == 3.375
  {
    var e := Event("e", "svc", CrowdStrike, Info, true);
    es := seq(11, i => e);
    var s := TopSeverity(es);
    assert es[0].privileged;
    assert s == Info;
    assert Recurrence(|es|, AnyPrivileged(es)) == 4.5;
    assert RawScore(es) == 3.375;
    assert RoundHalfEven(337.5) == 338;
  }
}
