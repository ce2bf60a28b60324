/**
 * The audit document of stage two, as structure rather than text: a header
 * with the timestamp and the total, then one numbered section per item with
 * one bullet per resolved action.
 */
module AuditTrail {
  import opened Optional
  import AnomalyDetection
  import opened ActionSelection

  /** One `- <action> (priority: <priority>)` line. */
  datatype Bullet = Bullet(action: Option<string>, priority: Option<string>)

  /** One `## <n>. <type> [<severity>] on <stream>` section with its details and action bullets. */
  datatype Section = Section(
    number: nat,
    kind: Option<string>,
    severity: Option<string>,
    stream: Option<string>,
    details: Option<AnomalyDetection.Details>,
    bullets: seq<Bullet>)

  datatype Audit = Audit(timestamp: string, total: nat, sections: seq<Section>)

  /** Section `n` shows the item's anomaly as given and one bullet per action, in order. */
  ghost predicate Shows(sec: Section, n: nat, item: Item) {
    && sec.number == n
    && sec.kind == item.anomaly.kind
    && sec.severity == item.anomaly.severity
    && sec.stream == item.anomaly.stream
    && sec.details == item.anomaly.details
    && |sec.bullets| == |item.actions|
    && forall j :: 0 <= j < |item.actions| ==>
         sec.bullets[j] == Bullet(item.actions[j].action, item.actions[j].priority)
  }

  /**
   * The audit writer: the header, then for each item in order a section
   * numbered from 1 whose bullets are written by an inner loop over the actions.
   */
  method RenderAudit(plan: Plan) returns (audit: Audit)
    ensures audit.timestamp == plan.timestamp
    ensures audit.total == |plan.items|
    ensures |audit.sections| == |plan.items|
    ensures forall i :: 0 <= i < |plan.items| ==> Shows(audit.sections[i], i + 1, plan.items[i])
  {
    var sections: seq<Section> := [];
    for i := 0 to |plan.items|
      invariant |sections| == i
      invariant forall k :: 0 <= k < i ==> Shows(sections[k], k + 1, plan.items[k])
    {
      var it := plan.items[i];
      var a := it.anomaly;
      var bullets: seq<Bullet> := [];
      for j := 0 to |it.actions|
        invariant |bullets| == j
        invariant forall m :: 0 <= m < j ==> bullets[m] == Bullet(it.actions[m].action, it.actions[m].priority)
      {
        var act := it.actions[j];
        bullets := bullets + [Bullet(act.action, act.priority)];
      }
      sections := sections + [Section(i + 1, a.kind, a.severity, a.stream, a.details, bullets)];
    }
    audit := Audit(plan.timestamp, |plan.items|, sections);
  }

  /**
   * In an audit of a plan built by stage two, every bullet carries a resolved
   * priority: urgent, the rule's preset, or normal.
   */
  lemma BulletsResolved(sec: Section, n: nat, a: AnomalyRecord, rules: Rules, j: nat)
    requires Shows(sec, n, Item(a, Selected(a, rules)))
    requires j < |sec.bullets|
    ensures sec.bullets[j].priority.Some?
    ensures var rule := Candidates(a.kind, rules)[j];
      sec.bullets[j].priority.value in {"urgent", "normal"} || sec.bullets[j].priority == rule.priority
  {
  }
}
