/**
 * The two stages run one after the other: stage one's output document is
 * stage two's input, so its anomalies reach stage two with every key present.
 */
module Pipeline {
  import opened Optional
  import opened AnomalyDetection
  import opened ActionSelection
  import opened AuditTrail

  /** An anomaly as stage one writes it and stage two reads it back. */
  function Encode(a: Anomaly): (r: AnomalyRecord)
    ensures r.stream.Some? && r.kind.Some? && r.severity.Some? && r.details.Some?
  {
    AnomalyRecord(Some(a.stream), Some(TypeName(a.kind)), Some(SeverityName(a.severity)), Some(a.details))
  }

  function EncodeAll(anomalies: seq<Anomaly>): (r: seq<AnomalyRecord>)
    ensures |r| == |anomalies|
  {
    seq(|anomalies|, i requires 0 <= i < |anomalies| => Encode(anomalies[i]))
  }

  /** Distinct anomaly types are written as distinct strings, so each selects its own playbook key. */
  lemma TypeNamesDistinct(k1: AnomalyType, k2: AnomalyType)
    ensures TypeName(k1) == TypeName(k2) <==> k1 == k2
  {
  }

  /**
   * A detected anomaly's actions come from its own type's rules (or the
   * default list), and each is urgent exactly when the anomaly is high and the
   * rule escalates, or the rule was preset to urgent.
   */
  lemma DetectedAnomalyActions(a: Anomaly, rules: Rules)
    ensures Selected(Encode(a), rules) == ResolveAll(SeverityName(a.severity), Candidates(Some(TypeName(a.kind)), rules))
    ensures forall j :: 0 <= j < |Selected(Encode(a), rules)| ==>
      (Selected(Encode(a), rules)[j].priority == Some("urgent")
       <==> (a.severity == High && Candidates(Some(TypeName(a.kind)), rules)[j].escalateOnHigh == Some(true))
            || Candidates(Some(TypeName(a.kind)), rules)[j].priority == Some("urgent"))
  {
    var cands := Candidates(Some(TypeName(a.kind)), rules);
    forall j | 0 <= j < |Selected(Encode(a), rules)|
      ensures Selected(Encode(a), rules)[j].priority == Some("urgent")
          <==> (a.severity == High && cands[j].escalateOnHigh == Some(true)) || cands[j].priority == Some("urgent")
    {
      UrgentIff(SeverityName(a.severity), cands[j]);
    }
  }

  /**
   * The external caller's run of both stages: detect, hand the anomalies on
   * through the output document, select actions, render the audit.
   */
  method RunPipeline(snapshot: Snapshot, playbook: Playbook, detectedAt: string, selectedAt: string)
    returns (report: Report, plan: Plan, audit: Audit)
    ensures report.timestamp == detectedAt && plan.timestamp == selectedAt && audit.timestamp == selectedAt
    ensures report.anomalies == Detected(StreamsOf(snapshot), Settings(snapshot.config))
    ensures |plan.items| == |report.anomalies| == |audit.sections|
    ensures plan.count == report.count == audit.total == |report.anomalies|
    ensures forall i :: 0 <= i < |plan.items| ==>
      && plan.items[i].anomaly == Encode(report.anomalies[i])
      && plan.items[i].actions == Selected(Encode(report.anomalies[i]), RulesOf(playbook))
      && Shows(audit.sections[i], i + 1, plan.items[i])
  {
    report := DetectAnomalies(snapshot, detectedAt);
    plan := TriggerActions(AnomalyDocument(Some(EncodeAll(report.anomalies))), playbook, selectedAt);
    audit := RenderAudit(plan);
  }

  /** An empty snapshot gives no anomalies, no items and an audit with the header only. */
  method ScenarioEmptySnapshot(playbook: Playbook, detectedAt: string, selectedAt: string)
    returns (report: Report, plan: Plan, audit: Audit)
    ensures report.count == 0 && report.anomalies == []
    ensures plan.count == 0 && plan.items == []
    ensures audit.timestamp == selectedAt && audit.total == 0 && audit.sections == []
  {
    report, plan, audit := RunPipeline(Snapshot(None, Some([])), playbook, detectedAt, selectedAt);
    assert StreamsOf(Snapshot(None, Some([]))) == [];
  }
}
