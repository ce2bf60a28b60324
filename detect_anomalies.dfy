/**
 * Stage one of the pipeline: classify every stream of a metrics snapshot
 * against the spike, budget-overrun, failure-burst and latency rules.
 *
 * Numbers: the source works on Python floats; here every number is an exact
 * `real`. The threshold comparisons are the point of the model, and exact
 * rationals stand in for IEEE doubles (so `limit * 1.2` is exact here, while
 * the source rounds it).
 */
module AnomalyDetection {
  import opened Optional

  /** The `config` object of a snapshot; every key may be missing. */
  datatype Config = Config(
    spikeMultiplier: Option<real>,
    failureRateThreshold: Option<real>,
    latencyThresholdMs: Option<real>)

  /** One entry of `streams`. `kind` is the JSON key `type`; every key may be missing. */
  datatype Stream = Stream(
    name: Option<string>,
    kind: Option<string>,
    current: Option<real>,
    baseline: Option<real>,
    spent: Option<real>,
    limit: Option<real>,
    projected: Option<real>,
    total: Option<real>,
    failures: Option<real>,
    p95Ms: Option<real>)

  /** The input document: both top-level keys may be missing. */
  datatype Snapshot = Snapshot(config: Option<Config>, streams: Option<seq<Stream>>)

  /** What a missing input file is read as: the empty document `{}`. */
  const EmptySnapshot: Snapshot := Snapshot(None, None)

  /** The thresholds in force for one run, after defaulting. */
  datatype Thresholds = Thresholds(spikeMult: real, failThr: real, latencyThr: real)

  const DefaultSpikeMultiplier: real := 2.0
  const DefaultFailureRateThreshold: real := 0.2
  const DefaultLatencyThresholdMs: real := 60000.0

  /** Margin above the limit at which a budget overrun becomes high severity. */
  const BudgetHighFactor: real := 1.2
  /** Margin above the threshold at which a failure burst or latency regression becomes high severity. */
  const HighFactor: real := 1.5

  datatype AnomalyType = Spike | BudgetOverrunRisk | FailureBurst | LatencyRegression

  datatype Severity = Medium | High

  /** The values each rule records (ratios and rates unrounded). */
  datatype Details =
    | SpikeDetails(current: real, baseline: real, multiplier: real)
    | BudgetDetails(spent: real, limit: real, projected: real)
    | FailureDetails(failureRate: real, threshold: real, total: real)
    | LatencyDetails(p95Ms: real, thresholdMs: real)

  datatype Anomaly = Anomaly(stream: string, kind: AnomalyType, severity: Severity, details: Details)

  /** The output document; the timestamp is supplied by the caller. */
  datatype Report = Report(timestamp: string, count: nat, anomalies: seq<Anomaly>)

  /** The strings the output document uses for anomaly types. */
  function TypeName(k: AnomalyType): string {
    match k
    case Spike => "spike"
    case BudgetOverrunRisk => "budget_overrun_risk"
    case FailureBurst => "failure_burst"
    case LatencyRegression => "latency_regression"
  }

  /** The strings the output document uses for severities. */
  function SeverityName(s: Severity): string {
    match s
    case Medium => "medium"
    case High => "high"
  }

  // ---------------------------------------------------------------------------
  // Defaulting
  // ---------------------------------------------------------------------------

  /** The thresholds in force: the config's own value for each key, or that key's default. */
  function Settings(c: Option<Config>): (t: Thresholds)
    ensures c.None? ==> t == Thresholds(DefaultSpikeMultiplier, DefaultFailureRateThreshold, DefaultLatencyThresholdMs)
    ensures t.spikeMult == DefaultSpikeMultiplier || (c.Some? && c.value.spikeMultiplier == Some(t.spikeMult))
    ensures t.failThr == DefaultFailureRateThreshold || (c.Some? && c.value.failureRateThreshold == Some(t.failThr))
    ensures t.latencyThr == DefaultLatencyThresholdMs || (c.Some? && c.value.latencyThresholdMs == Some(t.latencyThr))
  {
    var cfg := c.GetOr(Config(None, None, None));
    Thresholds(
      cfg.spikeMultiplier.GetOr(DefaultSpikeMultiplier),
      cfg.failureRateThreshold.GetOr(DefaultFailureRateThreshold),
      cfg.latencyThresholdMs.GetOr(DefaultLatencyThresholdMs))
  }

  function StreamsOf(snapshot: Snapshot): seq<Stream> {
    snapshot.streams.GetOr([])
  }

  function Name(s: Stream): string { s.name.GetOr("unknown") }
  function Kind(s: Stream): string { s.kind.GetOr("generic") }
  function Current(s: Stream): real { s.current.GetOr(0.0) }
  function Baseline(s: Stream): real { s.baseline.GetOr(0.0) }
  function Spent(s: Stream): real { s.spent.GetOr(Current(s)) }
  function Limit(s: Stream): real { s.limit.GetOr(Baseline(s)) }
  function Projected(s: Stream): real { s.projected.GetOr(Spent(s)) }
  function Total(s: Stream): real { s.total.GetOr(0.0) }
  function Failures(s: Stream): real { s.failures.GetOr(0.0) }
  function P95(s: Stream): real { s.p95Ms.GetOr(Current(s)) }

  /** Each missing config key takes its documented default; a present key is used as given. */
  lemma ConfigDefaults(c: Option<Config>)
    ensures c.None? ==> Settings(c) == Thresholds(2.0, 0.2, 60000.0)
    ensures c.Some? && c.value.spikeMultiplier.None? ==> Settings(c).spikeMult == 2.0
    ensures c.Some? && c.value.failureRateThreshold.None? ==> Settings(c).failThr == 0.2
    ensures c.Some? && c.value.latencyThresholdMs.None? ==> Settings(c).latencyThr == 60000.0
    ensures c.Some? && c.value.spikeMultiplier.Some? ==> Settings(c).spikeMult == c.value.spikeMultiplier.value
    ensures c.Some? && c.value.failureRateThreshold.Some? ==> Settings(c).failThr == c.value.failureRateThreshold.value
    ensures c.Some? && c.value.latencyThresholdMs.Some? ==> Settings(c).latencyThr == c.value.latencyThresholdMs.value
  {
  }

  /** A missing input file is read as `{}`: default thresholds and no streams. */
  lemma EmptySnapshotDefaults()
    ensures Settings(EmptySnapshot.config) == Thresholds(2.0, 0.2, 60000.0)
    ensures StreamsOf(EmptySnapshot) == []
  {
  }

  /** Missing stream fields never fail: they fall back along the chains of same-stream fields. */
  lemma StreamDefaults(s: Stream)
    ensures s.name.None? ==> Name(s) == "unknown"
    ensures s.kind.None? ==> Kind(s) == "generic"
    ensures s.current.None? ==> Current(s) == 0.0
    ensures s.baseline.None? ==> Baseline(s) == 0.0
    ensures s.spent.None? ==> Spent(s) == Current(s)
    ensures s.limit.None? ==> Limit(s) == Baseline(s)
    ensures s.projected.None? && s.spent.None? ==> Projected(s) == Current(s)
    ensures s.projected.None? && s.spent.None? && s.current.None? ==> Projected(s) == 0.0
    ensures s.limit.None? && s.baseline.None? ==> Limit(s) == 0.0
    ensures s.total.None? ==> Total(s) == 0.0
    ensures s.failures.None? ==> Failures(s) == 0.0
    ensures s.p95Ms.None? ==> P95(s) == Current(s)
  {
  }

  // ---------------------------------------------------------------------------
  // The four rules
  // ---------------------------------------------------------------------------

  /** The stream types that have a rule of their own; every other type only ever spikes. */
  const TypedKinds: set<string> := {"budget", "task_failures", "latency"}

  /**
   * The invariant every emitted anomaly keeps: its type agrees with its details,
   * the recorded values meet the rule's base trigger, and the severity is high
   * exactly when they also meet the rule's high margin.
   */
  ghost predicate Sound(a: Anomaly, t: Thresholds) {
    match a.details
    case SpikeDetails(cur, base, ratio) =>
      && a.kind == Spike && base > 0.0 && cur >= base * t.spikeMult && ratio == cur / base
      && (a.severity == High <==> cur >= base * (t.spikeMult + 1.0))
    case BudgetDetails(_, limit, projected) =>
      && a.kind == BudgetOverrunRisk && limit > 0.0 && projected > limit
      && (a.severity == High <==> projected > limit * BudgetHighFactor)
    case FailureDetails(rate, thr, total) =>
      && a.kind == FailureBurst && total > 0.0 && thr == t.failThr && rate >= thr
      && (a.severity == High <==> rate >= thr * HighFactor)
    case LatencyDetails(p95, thr) =>
      && a.kind == LatencyRegression && thr == t.latencyThr && p95 >= thr
      && (a.severity == High <==> p95 >= thr * HighFactor)
  }

  function SpikeRule(name: string, cur: real, base: real, t: Thresholds): (r: seq<Anomaly>)
    ensures |r| <= 1
    ensures |r| == 1 <==> base > 0.0 && cur >= base * t.spikeMult
    ensures forall a :: a in r ==>
        (a.stream == name && a.kind == Spike && Sound(a, t) && a.details == SpikeDetails(cur, base, cur / base))
  {
    if base > 0.0 && cur >= base * t.spikeMult then
      [Anomaly(name, Spike,
               if cur >= base * (t.spikeMult + 1.0) then High else Medium,
               SpikeDetails(cur, base, cur / base))]
    else []
  }

  function BudgetRule(name: string, spent: real, limit: real, projected: real, t: Thresholds): (r: seq<Anomaly>)
    ensures |r| <= 1
    ensures |r| == 1 <==> limit > 0.0 && projected > limit
    ensures forall a :: a in r ==>
        (a.stream == name && a.kind == BudgetOverrunRisk && Sound(a, t) && a.details == BudgetDetails(spent, limit, projected))
  {
    if limit > 0.0 && projected > limit then
      [Anomaly(name, BudgetOverrunRisk,
               if projected > limit * BudgetHighFactor then High else Medium,
               BudgetDetails(spent, limit, projected))]
    else []
  }

  function FailureRule(name: string, total: real, failures: real, t: Thresholds): (r: seq<Anomaly>)
    ensures |r| <= 1
    ensures |r| == 1 <==> total > 0.0 && failures / total >= t.failThr
    ensures forall a :: a in r ==>
        (a.stream == name && a.kind == FailureBurst && Sound(a, t) && a.details == FailureDetails(failures / total, t.failThr, total))
  {
    if total > 0.0 && failures / total >= t.failThr then
      [Anomaly(name, FailureBurst,
               if failures / total >= t.failThr * HighFactor then High else Medium,
               FailureDetails(failures / total, t.failThr, total))]
    else []
  }

  function LatencyRule(name: string, p95: real, t: Thresholds): (r: seq<Anomaly>)
    ensures |r| <= 1
    ensures |r| == 1 <==> p95 >= t.latencyThr
    ensures forall a :: a in r ==>
        (a.stream == name && a.kind == LatencyRegression && Sound(a, t) && a.details == LatencyDetails(p95, t.latencyThr))
  {
    if p95 >= t.latencyThr then
      [Anomaly(name, LatencyRegression,
               if p95 >= t.latencyThr * HighFactor then High else Medium,
               LatencyDetails(p95, t.latencyThr))]
    else []
  }

  /** The rule selected by the stream's type: at most one anomaly, never a spike. */
  function TypedRule(s: Stream, t: Thresholds): (r: seq<Anomaly>)
    ensures |r| <= 1
    ensures forall a :: a in r ==> a.stream == Name(s) && a.kind != Spike && Sound(a, t)
    ensures Kind(s) !in TypedKinds ==> r == []
  {
    if Kind(s) == "budget" then BudgetRule(Name(s), Spent(s), Limit(s), Projected(s), t)
    else if Kind(s) == "task_failures" then FailureRule(Name(s), Total(s), Failures(s), t)
    else if Kind(s) == "latency" then LatencyRule(Name(s), P95(s), t)
    else []
  }

  /** The anomalies one stream yields: the spike first, then the type's own rule. */
  function ClassifyStream(s: Stream, t: Thresholds): (r: seq<Anomaly>)
    ensures |r| <= 2
    ensures forall a :: a in r ==> a.stream == Name(s)
    ensures |r| == 2 ==> r[0].kind == Spike && r[1].kind != Spike
    ensures Kind(s) !in TypedKinds ==> forall a :: a in r ==> a.kind == Spike
  {
    SpikeRule(Name(s), Current(s), Baseline(s), t) + TypedRule(s, t)
  }

  ghost predicate Emits(r: seq<Anomaly>, k: AnomalyType) {
    exists a :: a in r && a.kind == k
  }

  /** Spike: emitted iff the baseline is positive and current reaches baseline times the multiplier; high iff it reaches one multiple more. */
  lemma SpikeIff(s: Stream, t: Thresholds)
    ensures Emits(ClassifyStream(s, t), Spike)
        <==> Baseline(s) > 0.0 && Current(s) >= Baseline(s) * t.spikeMult
    ensures Emits(ClassifyStream(s, t), Spike) ==> ClassifyStream(s, t)[0].kind == Spike
    ensures forall a :: a in ClassifyStream(s, t) && a.kind == Spike ==>
        (a.severity == High <==> Current(s) >= Baseline(s) * (t.spikeMult + 1.0))
  {
  }

  /** Budget overrun risk: emitted iff the type is budget, the limit is positive and projected exceeds it; high iff projected exceeds 1.2 times the limit. */
  lemma BudgetIff(s: Stream, t: Thresholds)
    ensures Emits(ClassifyStream(s, t), BudgetOverrunRisk)
        <==> Kind(s) == "budget" && Limit(s) > 0.0 && Projected(s) > Limit(s)
    ensures forall a :: a in ClassifyStream(s, t) && a.kind == BudgetOverrunRisk ==>
        && (a.severity == High <==> Projected(s) > Limit(s) * 1.2)
        && a.details == BudgetDetails(Spent(s), Limit(s), Projected(s))
  {
  }

  /** Failure burst: emitted iff the type is task_failures, total is positive and the failure rate reaches the threshold; high iff the rate reaches 1.5 times it. */
  lemma FailureIff(s: Stream, t: Thresholds)
    ensures Emits(ClassifyStream(s, t), FailureBurst)
        <==> Kind(s) == "task_failures" && Total(s) > 0.0 && Failures(s) / Total(s) >= t.failThr
    ensures forall a :: a in ClassifyStream(s, t) && a.kind == FailureBurst ==>
        && (a.severity == High <==> Failures(s) / Total(s) >= t.failThr * 1.5)
        && a.details == FailureDetails(Failures(s) / Total(s), t.failThr, Total(s))
  {
  }

  /** A non-positive total guards the division: no failure burst whatever the failure count. */
  lemma NoBurstWithoutTotal(s: Stream, t: Thresholds)
    requires Total(s) <= 0.0
    ensures !Emits(ClassifyStream(s, t), FailureBurst)
  {
  }

  /** Latency regression: emitted iff the type is latency and p95 (defaulting to current) reaches the threshold; high iff it reaches 1.5 times it. */
  lemma LatencyIff(s: Stream, t: Thresholds)
    ensures Emits(ClassifyStream(s, t), LatencyRegression)
        <==> Kind(s) == "latency" && P95(s) >= t.latencyThr
    ensures forall a :: a in ClassifyStream(s, t) && a.kind == LatencyRegression ==>
        && (a.severity == High <==> P95(s) >= t.latencyThr * 1.5)
        && a.details == LatencyDetails(P95(s), t.latencyThr)
  {
  }

  /**
   * A stream whose current value is k times a positive baseline spikes iff
   * k reaches the multiplier, with high severity iff k reaches the multiplier plus one.
   */
  lemma SpikeAtRatio(s: Stream, t: Thresholds, k: real)
    requires Baseline(s) > 0.0 && Current(s) == Baseline(s) * k
    ensures Emits(ClassifyStream(s, t), Spike) <==> k >= t.spikeMult
    ensures forall a :: a in ClassifyStream(s, t) && a.kind == Spike ==>
        (a.severity == High <==> k >= t.spikeMult + 1.0)
  {
    var base, cur := Baseline(s), Current(s);
    SpikeIff(s, t);
    ScaleMonotone(base, k, t.spikeMult);
    assert cur >= base * t.spikeMult <==> k >= t.spikeMult;
    ScaleMonotone(base, k, t.spikeMult + 1.0);
    assert cur >= base * (t.spikeMult + 1.0) <==> k >= t.spikeMult + 1.0;
  }

  lemma ScaleMonotone(base: real, k: real, m: real)
    requires base > 0.0
    ensures base * k >= base * m <==> k >= m
  {
    assert base * k - base * m == base * (k - m);
    if k < m {
      assert base * (m - k) > 0.0;
    }
  }

  // ---------------------------------------------------------------------------
  // The whole snapshot
  // ---------------------------------------------------------------------------

  /** The anomalies of a sequence of streams, stream by stream in input order. */
  function Detected(ss: seq<Stream>, t: Thresholds): (r: seq<Anomaly>)
    ensures |r| <= 2 * |ss|
  {
    if ss == [] then [] else Detected(ss[..|ss| - 1], t) + ClassifyStream(ss[|ss| - 1], t)
  }

  /** No anomaly of a stream is below its rule's base trigger, and each is high exactly above the high margin. */
  lemma ClassifySound(s: Stream, t: Thresholds)
    ensures forall a :: a in ClassifyStream(s, t) ==> Sound(a, t)
  {
  }

  /** Every anomaly of the whole snapshot keeps the soundness invariant. */
  lemma {:induction false} DetectedSound(ss: seq<Stream>, t: Thresholds)
    ensures forall a :: a in Detected(ss, t) ==> Sound(a, t)
  {
    if ss != [] {
      var n := |ss| - 1;
      DetectedSound(ss[..n], t);
      ClassifySound(ss[n], t);
    }
  }

  lemma DetectedSnoc(ss: seq<Stream>, s: Stream, t: Thresholds)
    ensures Detected(ss + [s], t) == Detected(ss, t) + ClassifyStream(s, t)
  {
  }

  /** Detection distributes over concatenation: output order follows stream order. */
  lemma {:induction false} DetectedAppend(xs: seq<Stream>, ys: seq<Stream>, t: Thresholds)
    ensures Detected(xs + ys, t) == Detected(xs, t) + Detected(ys, t)
    decreases |ys|
  {
    if ys == [] {
      assert xs + ys == xs;
    } else {
      var n := |ys| - 1;
      var front, y := ys[..n], ys[n];
      assert ys == front + [y];
      assert xs + ys == (xs + front) + [y];
      var dx, df, dy := Detected(xs, t), Detected(front, t), ClassifyStream(y, t);
      calc {
        Detected(xs + ys, t);
        Detected((xs + front) + [y], t);
        { DetectedSnoc(xs + front, y, t); }
        Detected(xs + front, t) + dy;
        { DetectedAppend(xs, front, t); }
        (dx + df) + dy;
        dx + (df + dy);
        { DetectedSnoc(front, y, t); }
        dx + Detected(ys, t);
      }
    }
  }

  /** Every anomaly in the output comes from some input stream and carries that stream's name. */
  lemma {:induction false} DetectedProvenance(ss: seq<Stream>, t: Thresholds, k: nat)
    requires k < |Detected(ss, t)|
    ensures exists i :: 0 <= i < |ss| && Detected(ss, t)[k] in ClassifyStream(ss[i], t)
                                     && Detected(ss, t)[k].stream == Name(ss[i])
  {
    var n := |ss| - 1;
    var front := Detected(ss[..n], t);
    if k < |front| {
      DetectedProvenance(ss[..n], t, k);
      var i :| 0 <= i < n && front[k] in ClassifyStream(ss[..n][i], t) && front[k].stream == Name(ss[..n][i]);
      assert ss[..n][i] == ss[i];
    } else {
      assert Detected(ss, t)[k] == ClassifyStream(ss[n], t)[k - |front|];
    }
  }

  /**
   * The body of the source's stream loop: default the stream's fields and run
   * the four rule blocks in order, appending each anomaly as its rule fires.
   */
  method AppendStreamAnomalies(anomalies: seq<Anomaly>, s: Stream, t: Thresholds) returns (out: seq<Anomaly>)
    ensures out == anomalies + ClassifyStream(s, t)
  {
    out := anomalies;
    var name, typ, cur, base := Name(s), Kind(s), Current(s), Baseline(s);

    if base > 0.0 && cur >= base * t.spikeMult {
      var sev := if cur >= base * (t.spikeMult + 1.0) then High else Medium;
      out := out + [Anomaly(name, Spike, sev, SpikeDetails(cur, base, cur / base))];
    }
    assert out == anomalies + SpikeRule(name, cur, base, t);
    ghost var afterSpike := out;

    if typ == "budget" {
      var spent := s.spent.GetOr(cur);
      var limit := s.limit.GetOr(base);
      var projected := s.projected.GetOr(spent);
      if limit > 0.0 && projected > limit {
        var sev := if projected > limit * BudgetHighFactor then High else Medium;
        out := out + [Anomaly(name, BudgetOverrunRisk, sev, BudgetDetails(spent, limit, projected))];
      }
      assert out == afterSpike + BudgetRule(name, spent, limit, projected, t);
    }

    if typ == "task_failures" {
      var total := s.total.GetOr(0.0);
      var failures := s.failures.GetOr(0.0);
      if total > 0.0 {
        var fr := failures / total;
        if fr >= t.failThr {
          var sev := if fr >= t.failThr * HighFactor then High else Medium;
          out := out + [Anomaly(name, FailureBurst, sev, FailureDetails(fr, t.failThr, total))];
        }
      }
      assert out == afterSpike + FailureRule(name, total, failures, t);
    }

    if typ == "latency" {
      var p95 := s.p95Ms.GetOr(cur);
      if p95 >= t.latencyThr {
        var sev := if p95 >= t.latencyThr * HighFactor then High else Medium;
        out := out + [Anomaly(name, LatencyRegression, sev, LatencyDetails(p95, t.latencyThr))];
      }
      assert out == afterSpike + LatencyRule(name, p95, t);
    }
    assert out == afterSpike + TypedRule(s, t);
  }

  /**
   * Stage one as the source runs it: default the config, then walk the
   * streams in order, appending each stream's anomalies.
   */
  method DetectAnomalies(snapshot: Snapshot, timestamp: string) returns (report: Report)
    ensures report.timestamp == timestamp
    ensures report.count == |report.anomalies|
    ensures report.anomalies == Detected(StreamsOf(snapshot), Settings(snapshot.config))
  {
    var t := Settings(snapshot.config);
    var streams := StreamsOf(snapshot);
    var anomalies: seq<Anomaly> := [];
    for i := 0 to |streams|
      invariant anomalies == Detected(streams[..i], t)
    {
      anomalies := AppendStreamAnomalies(anomalies, streams[i], t);
      assert streams[..i + 1] == streams[..i] + [streams[i]];
      DetectedSnoc(streams[..i], streams[i], t);
    }
    assert streams[..|streams|] == streams;
    report := Report(timestamp, |anomalies|, anomalies);
  }

  // ---------------------------------------------------------------------------
  // Worked scenarios
  // ---------------------------------------------------------------------------

  /** A generic stream at three times its baseline with the default multiplier: one high spike with ratio 3. */
  lemma ScenarioGenericSpike()
    ensures ClassifyStream(
              Stream(Some("db-cpu"), Some("generic"), Some(90.0), Some(30.0), None, None, None, None, None, None),
              Settings(Some(Config(Some(2.0), None, None))))
         == [Anomaly("db-cpu", Spike, High, SpikeDetails(90.0, 30.0, 3.0))]
  {
  }

  /** A budget stream projected at 1300 against a limit of 1000: a high overrun risk and no spike. */
  lemma ScenarioBudgetOverrun()
    ensures ClassifyStream(
              Stream(Some("cloud"), Some("budget"), Some(500.0), Some(1000.0), Some(500.0), Some(1000.0), Some(1300.0), None, None, None),
              Settings(None))
         == [Anomaly("cloud", BudgetOverrunRisk, High, BudgetDetails(500.0, 1000.0, 1300.0))]
  {
  }

  /** 25 failures out of 100 tasks at threshold 0.2: a medium failure burst (0.25 is below 0.30). */
  lemma ScenarioFailureBurst()
    ensures ClassifyStream(
              Stream(Some("jobs"), Some("task_failures"), None, None, None, None, None, Some(100.0), Some(25.0), None),
              Settings(Some(Config(None, Some(0.2), None))))
         == [Anomaly("jobs", FailureBurst, Medium, FailureDetails(0.25, 0.2, 100.0))]
  {
  }
}
