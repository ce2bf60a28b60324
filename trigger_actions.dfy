/**
 * Stage two of the pipeline: look up the playbook rules for each anomaly,
 * resolve every candidate rule's priority, and pair each anomaly with its
 * resolved actions.
 */
module ActionSelection {
  import opened Optional
  import AnomalyDetection

  /** An anomaly as read back from stage one's output; every key may be missing. */
  datatype AnomalyRecord = AnomalyRecord(
    stream: Option<string>,
    kind: Option<string>,
    severity: Option<string>,
    details: Option<AnomalyDetection.Details>)

  /** A playbook rule; a resolved action is a copy of it with `priority` set. */
  datatype ActionRule = ActionRule(action: Option<string>, escalateOnHigh: Option<bool>, priority: Option<string>)

  /** The playbook's `rules` object: anomaly type (or `default`) to an ordered list of rules. */
  type Rules = map<string, seq<ActionRule>>

  datatype Playbook = Playbook(rules: Option<Rules>)

  datatype AnomalyDocument = AnomalyDocument(anomalies: Option<seq<AnomalyRecord>>)

  datatype Item = Item(anomaly: AnomalyRecord, actions: seq<ActionRule>)

  /** The output document; the timestamp is supplied by the caller. */
  datatype Plan = Plan(timestamp: string, count: nat, items: seq<Item>)

  /** What a missing anomalies file is read as. */
  const MissingAnomalies: AnomalyDocument := AnomalyDocument(Some([]))

  /** What a missing playbook file is read as: a `default` key with no rules. */
  const MissingPlaybook: Playbook := Playbook(Some(map["default" := []]))

  const DefaultKey: string := "default"

  function RulesOf(playbook: Playbook): Rules {
    playbook.rules.GetOr(map[])
  }

  function AnomaliesOf(doc: AnomalyDocument): seq<AnomalyRecord> {
    doc.anomalies.GetOr([])
  }

  /** The severity an anomaly is judged by; a missing one counts as medium. */
  function SeverityOf(a: AnomalyRecord): string {
    a.severity.GetOr("medium")
  }

  /** The candidate rules: the exact type's list if that key is present, else the default list, else none. */
  function Candidates(kind: Option<string>, rules: Rules): (c: seq<ActionRule>)
    ensures kind.Some? && kind.value in rules ==> c == rules[kind.value]
    ensures (kind.None? || kind.value !in rules) && DefaultKey in rules ==> c == rules[DefaultKey]
    ensures (kind.None? || kind.value !in rules) && DefaultKey !in rules ==> c == []
  {
    if kind.Some? && kind.value in rules then rules[kind.value]
    else if DefaultKey in rules then rules[DefaultKey]
    else []
  }

  /** Escalation applies when the anomaly is high and the rule opts in (a missing flag is false). */
  predicate Escalates(severity: string, rule: ActionRule) {
    severity == "high" && rule.escalateOnHigh.GetOr(false)
  }

  /**
   * The resolved copy of one rule: every field is the rule's own except
   * `priority`, which is urgent when escalation applies, otherwise the
   * rule's preset priority, otherwise normal.
   */
  function Resolve(severity: string, rule: ActionRule): (act: ActionRule)
    ensures act.action == rule.action && act.escalateOnHigh == rule.escalateOnHigh
    ensures Escalates(severity, rule) ==> act.priority == Some("urgent")
    ensures !Escalates(severity, rule) && rule.priority.Some? ==> act.priority == rule.priority
    ensures !Escalates(severity, rule) && rule.priority.None? ==> act.priority == Some("normal")
  {
    if Escalates(severity, rule) then rule.(priority := Some("urgent"))
    else if rule.priority.Some? then rule
    else rule.(priority := Some("normal"))
  }

  /** The resolved copies of a list of rules, one per rule and in the same order. */
  function ResolveAll(severity: string, rules: seq<ActionRule>): (acts: seq<ActionRule>)
    ensures |acts| == |rules|
    ensures forall j :: 0 <= j < |rules| ==> acts[j] == Resolve(severity, rules[j])
  {
    if rules == [] then [] else [Resolve(severity, rules[0])] + ResolveAll(severity, rules[1..])
  }

  /** What `select_actions` returns for one anomaly. */
  function Selected(a: AnomalyRecord, rules: Rules): (acts: seq<ActionRule>)
    ensures |acts| == |Candidates(a.kind, rules)|
    ensures forall j :: 0 <= j < |acts| ==> acts[j] == Resolve(SeverityOf(a), Candidates(a.kind, rules)[j])
  {
    ResolveAll(SeverityOf(a), Candidates(a.kind, rules))
  }

  /**
   * `select_actions` as the source runs it: copy each candidate in order and
   * set its priority.
   */
  method SelectActions(a: AnomalyRecord, rules: Rules) returns (actions: seq<ActionRule>)
    ensures actions == Selected(a, rules)
  {
    var sev := SeverityOf(a);
    var candidates := Candidates(a.kind, rules);
    actions := [];
    for i := 0 to |candidates|
      invariant |actions| == i
      invariant forall j :: 0 <= j < i ==> actions[j] == Resolve(sev, candidates[j])
    {
      var rule := candidates[i];
      var act: ActionRule;
      if sev == "high" && rule.escalateOnHigh.GetOr(false) {
        act := rule.(priority := Some("urgent"));
      } else if rule.priority.None? {
        act := rule.(priority := Some("normal"));
      } else {
        act := rule;
      }
      actions := actions + [act];
    }
  }

  /**
   * The item loop of stage two: one item per anomaly, in input order, each
   * carrying the anomaly unchanged and its selected actions.
   */
  method TriggerActions(doc: AnomalyDocument, playbook: Playbook, timestamp: string) returns (plan: Plan)
    ensures plan.timestamp == timestamp
    ensures plan.count == |plan.items| == |AnomaliesOf(doc)|
    ensures forall i :: 0 <= i < |plan.items| ==>
      plan.items[i] == Item(AnomaliesOf(doc)[i], Selected(AnomaliesOf(doc)[i], RulesOf(playbook)))
  {
    var rules := RulesOf(playbook);
    var anomalies := AnomaliesOf(doc);
    var items: seq<Item> := [];
    for i := 0 to |anomalies|
      invariant |items| == i
      invariant forall k :: 0 <= k < i ==> items[k] == Item(anomalies[k], Selected(anomalies[k], rules))
    {
      var acts := SelectActions(anomalies[i], rules);
      items := items + [Item(anomalies[i], acts)];
    }
    plan := Plan(timestamp, |items|, items);
  }

  // ---------------------------------------------------------------------------
  // Properties of rule lookup and priority resolution
  // ---------------------------------------------------------------------------

  /** A type that is a key of the rules uses its own list, even an empty one, and never the default. */
  lemma ExactKeyWins(kind: string, rules: Rules)
    requires kind in rules
    ensures Candidates(Some(kind), rules) == rules[kind]
  {
  }

  /** An anomaly whose type is not a key is resolved exactly as the default list. */
  lemma FallbackToDefault(a: AnomalyRecord, rules: Rules)
    requires a.kind.None? || a.kind.value !in rules
    requires DefaultKey in rules
    ensures Selected(a, rules) == ResolveAll(SeverityOf(a), rules[DefaultKey])
  {
  }

  /** With neither the type nor `default` in the rules there are no actions, and no error. */
  lemma NoRulesNoActions(a: AnomalyRecord, rules: Rules)
    requires a.kind.None? || a.kind.value !in rules
    requires DefaultKey !in rules
    ensures Selected(a, rules) == []
  {
  }

  /** The anomalies document a missing file is read as holds no anomalies, so no items are built. */
  lemma MissingAnomaliesNoItems()
    ensures AnomaliesOf(MissingAnomalies) == []
  {
  }

  /** With the playbook a missing file is read as, no anomaly gets any action. */
  lemma MissingPlaybookNoActions(a: AnomalyRecord)
    ensures Selected(a, RulesOf(MissingPlaybook)) == []
  {
  }

  /** A resolved action is urgent exactly when it escalates or its rule was preset to urgent. */
  lemma UrgentIff(severity: string, rule: ActionRule)
    ensures Resolve(severity, rule).priority == Some("urgent")
        <==> Escalates(severity, rule) || rule.priority == Some("urgent")
  {
  }

  /** The playbook rule itself is not changed: resolution copies, and a copy differs only in priority. */
  lemma ResolveOnlyPriority(severity: string, rule: ActionRule)
    ensures Resolve(severity, rule) == rule.(priority := Resolve(severity, rule).priority)
    ensures Resolve(severity, rule).priority.Some?
  {
  }

  /** A high anomaly and an escalating rule preset to low resolve to urgent, not low. */
  lemma EscalationBeatsPreset(action: Option<string>)
    ensures Resolve("high", ActionRule(action, Some(true), Some("low"))).priority == Some("urgent")
  {
  }

  /** An anomaly with no severity is judged medium, so none of its actions escalates. */
  lemma MissingSeverityNeverEscalates(a: AnomalyRecord, rules: Rules, j: nat)
    requires a.severity.None?
    requires j < |Selected(a, rules)|
    ensures Selected(a, rules)[j].priority == Some(Candidates(a.kind, rules)[j].priority.GetOr("normal"))
  {
  }
}
