# Proactive anomaly detection: a verified model of the two pipeline stages

The system is a two-stage batch pipeline for operational telemetry.

- **Stage one** (`scripts/detect_anomalies.py`) reads a snapshot of named metric streams with a detection config. It checks every stream against four threshold rules: spike, budget overrun risk, failure burst and latency regression. It writes one anomaly record per rule that fires.
- **Stage two** (`scripts/trigger_actions.py`) reads those anomalies and a playbook. The playbook maps anomaly types, plus a `default` key, to ordered lists of action rules. For each anomaly, stage two looks up the candidate rules and copies each one with a resolved priority (`urgent` by escalation, else the rule's preset priority, else `normal`). It writes one item per anomaly and an audit document.

The model is in Dafny, one module per component:

- `optional.dfy`, module `Optional`: `Option` for a JSON key that may be missing, and `GetOr` for Python's `dict.get(key, default)`.
- `detect_anomalies.dfy`, module `AnomalyDetection`:
  - the config and stream defaulting;
  - the four rules;
  - the per-stream classifier `ClassifyStream` and the snapshot function `Detected`;
  - the source's loop as the methods `AppendStreamAnomalies` (the loop body) and `DetectAnomalies` (the loop), each proved equal to those functions.
- `trigger_actions.dfy`, module `ActionSelection`:
  - rule lookup (`Candidates`);
  - priority resolution (`Resolve`, `ResolveAll`);
  - the `select_actions` loop (`SelectActions`);
  - the item loop of `main` (`TriggerActions`).
- `audit_trail.dfy`, module `AuditTrail`: the audit document as structure. It has a header (timestamp, total) and numbered sections with one bullet per action. `RenderAudit` builds it with the source's nested loops.
- `pipeline.dfy`, module `Pipeline`: both stages run one after the other. Stage one's anomalies reach stage two through `Encode`, which writes them with every key present.

Numbers are modelled as exact `real`s where the source uses Python floats. The rules are threshold comparisons, so exact rationals stand in for IEEE doubles. A product such as `limit * 1.2` is exact here but rounded in the source. A stream's `type` is kept as a string (the Dafny field is `kind`, since `type` is a keyword), because the source compares it as a string and accepts any unknown value; so is the `type` of an anomaly as stage two reads it back (`ActionSelection.AnomalyRecord.kind`). Stage one's own anomalies carry the closed type `AnomalyDetection.AnomalyType`, written out as the source's strings by `TypeName`. Timestamps are parameters.

The spike's high margin is `baseline * (spike_multiplier + 1)`, one multiple above its trigger, not a fixed factor of the trigger like the 1.2 and 1.5 of the other rules; the model uses exactly that margin. The details of each anomaly carry the raw values; rounding is described below under Left out.

## Model

| member | source | states |
|---|---|---|
| `AnomalyDetection.Settings` | scripts/detect_anomalies.py:22-27 | The thresholds in force: with no config at all they are 2.0, 0.2 and 60000, and each one is either the config's own value or its default. Characterised key by key by ConfigDefaults. |
| `AnomalyDetection.ConfigDefaults` | scripts/detect_anomalies.py:22-27 | A missing config, or a missing config key, gives spike multiplier 2.0, failure-rate threshold 0.2 and latency threshold 60000. A present key is used as given. |
| `AnomalyDetection.EmptySnapshotDefaults` | scripts/detect_anomalies.py:21-27 | The empty document `{}` gives the default thresholds and no streams. |
| `AnomalyDetection.StreamDefaults` | scripts/detect_anomalies.py:32-35 | A missing name, type, current or baseline gives "unknown", "generic", 0 or 0. The chains hold: spent falls back to current, limit to baseline, projected to spent (and so to current, then 0), and p95 to current. A missing total or failures count gives 0. |
| `AnomalyDetection.SpikeRule` | scripts/detect_anomalies.py:37-44 | At most one anomaly. It is emitted iff baseline > 0 and current >= baseline × multiplier. It is a spike that keeps the soundness invariant (high iff current >= baseline × (multiplier + 1)) and records current, baseline and their ratio. |
| `AnomalyDetection.BudgetRule` | scripts/detect_anomalies.py:51-57 | At most one anomaly. It is emitted iff limit > 0 and projected > limit. It is a budget overrun risk, high iff projected > 1.2 × limit, and records spent, limit and projected. |
| `AnomalyDetection.FailureRule` | scripts/detect_anomalies.py:63-71 | At most one anomaly. It is emitted iff total > 0 and failures/total >= threshold. It is a failure burst, high iff the rate >= 1.5 × threshold, and records rate, threshold and total. |
| `AnomalyDetection.LatencyRule` | scripts/detect_anomalies.py:74-82 | At most one anomaly. It is emitted iff p95 >= threshold. It is a latency regression, high iff p95 >= 1.5 × threshold, and records p95 and threshold. |
| `AnomalyDetection.TypedRule` | scripts/detect_anomalies.py:46-82 | The rule chosen by the stream's exact type yields at most one anomaly and never a spike. A type other than budget, task_failures or latency yields nothing. |
| `AnomalyDetection.ClassifyStream` | scripts/detect_anomalies.py:31-82 | A stream yields at most two anomalies, all named after the stream. When there are two, the spike comes first and the type-specific one second. A stream of any other type yields only spikes. |
| `AnomalyDetection.SpikeIff` | scripts/detect_anomalies.py:37-44 | A stream's output contains a spike iff its baseline is positive and current >= baseline × multiplier. The spike is then the first anomaly. Its severity is high iff current >= baseline × (multiplier + 1). |
| `AnomalyDetection.BudgetIff` | scripts/detect_anomalies.py:46-57 | The output contains a budget overrun risk iff the type is "budget", the defaulted limit is positive and the defaulted projected exceeds it. It is high iff projected > limit × 1.2. Its details are the defaulted spent, limit and projected. |
| `AnomalyDetection.FailureIff` | scripts/detect_anomalies.py:59-71 | The output contains a failure burst iff the type is "task_failures", total > 0 and failures/total >= threshold. It is high iff the rate >= threshold × 1.5. Its details are rate, threshold and total. |
| `AnomalyDetection.NoBurstWithoutTotal` | scripts/detect_anomalies.py:60-63 | With total <= 0 no failure burst is emitted, whatever the failure count (the division is guarded). |
| `AnomalyDetection.LatencyIff` | scripts/detect_anomalies.py:73-82 | The output contains a latency regression iff the type is "latency" and p95 (defaulting to current) >= threshold. It is high iff p95 >= threshold × 1.5. |
| `AnomalyDetection.SpikeAtRatio` | scripts/detect_anomalies.py:38-42 | When current is k times a positive baseline: a spike is emitted iff k >= multiplier, and it is high iff k >= multiplier + 1. |
| `AnomalyDetection.ClassifySound` | scripts/detect_anomalies.py:37-82 | Every anomaly of a stream keeps the invariant. Its type matches its details. Its recorded values meet the rule's base trigger, so nothing is emitted below threshold. It is high exactly when they meet the high margin. |
| `AnomalyDetection.Detected` | scripts/detect_anomalies.py:29-82 | A snapshot of n streams yields at most 2n anomalies. |
| `AnomalyDetection.DetectedSound` | scripts/detect_anomalies.py:29-82 | Every anomaly in a snapshot's output keeps the soundness invariant. |
| `AnomalyDetection.DetectedSnoc` | scripts/detect_anomalies.py:31-82 | One more stream appends exactly that stream's anomalies to the output. |
| `AnomalyDetection.DetectedAppend` | scripts/detect_anomalies.py:29-82 | Detection distributes over concatenation of stream lists, so the output order follows the stream order. |
| `AnomalyDetection.DetectedProvenance` | scripts/detect_anomalies.py:31-82 | Each output anomaly is one of the anomalies of some input stream and carries that stream's name. |
| `AnomalyDetection.AppendStreamAnomalies` | scripts/detect_anomalies.py:31-82 | The loop body (defaulting, then the four rule blocks appending in order) extends the list by exactly the stream's classification. |
| `AnomalyDetection.DetectAnomalies` | scripts/detect_anomalies.py:21-88 | The stage-one run returns the given timestamp. It returns the anomalies of all streams in order under the defaulted thresholds. Its count equals the number of anomalies, so an empty stream list gives count 0. |
| `AnomalyDetection.ScenarioGenericSpike` | scripts/detect_anomalies.py:37-44 | The generic stream db-cpu at 90 against a baseline of 30, with multiplier 2, gives one high spike with ratio 3. |
| `AnomalyDetection.ScenarioBudgetOverrun` | scripts/detect_anomalies.py:46-57 | A budget stream projected at 1300 against a limit of 1000 gives one high overrun risk and no spike. |
| `AnomalyDetection.ScenarioFailureBurst` | scripts/detect_anomalies.py:59-71 | 25 failures out of 100 at threshold 0.2 gives one medium failure burst with rate 0.25. |
| `ActionSelection.Candidates` | scripts/trigger_actions.py:18 | The candidate list is the exact type's list when that key is present (even if empty), otherwise the `default` list when present, otherwise empty. Its cases are restated as ExactKeyWins, FallbackToDefault and NoRulesNoActions. |
| `ActionSelection.Selected` | scripts/trigger_actions.py:15-27 | What `select_actions` returns: one action per candidate, in candidate order, each the resolution of that candidate under the anomaly's severity (medium when missing). Computed by the loop of SelectActions. |
| `ActionSelection.Resolve` | scripts/trigger_actions.py:21-25 | A resolved action keeps the rule's action and escalation flag. Its priority is urgent when the anomaly is high and the rule escalates, even over a preset priority. Otherwise it is the rule's preset priority if one exists, else normal. |
| `ActionSelection.ResolveAll` | scripts/trigger_actions.py:19-27 | The resolved list has the candidates' length, and position j holds the resolution of candidate j. |
| `ActionSelection.SelectActions` | scripts/trigger_actions.py:15-27 | The `select_actions` loop returns exactly the resolution of the candidate list, in order. The severity defaults to medium. |
| `ActionSelection.TriggerActions` | scripts/trigger_actions.py:38-55 | There is one item per input anomaly, in input order. Each carries the anomaly unchanged with its selected actions. The count equals the number of items, and the timestamp is the given one. |
| `ActionSelection.ExactKeyWins` | scripts/trigger_actions.py:18 | A type present as a key uses its own list, even an empty one. |
| `ActionSelection.FallbackToDefault` | scripts/trigger_actions.py:18 | An anomaly whose type is missing or not a key is resolved exactly as the `default` list. |
| `ActionSelection.NoRulesNoActions` | scripts/trigger_actions.py:18-19 | With neither the type nor `default` present, the action list is empty, and this is not an error. |
| `ActionSelection.MissingAnomaliesNoItems` | scripts/trigger_actions.py:38 | The anomalies document a missing file is read as holds no anomalies, so stage two builds no items. |
| `ActionSelection.MissingPlaybookNoActions` | scripts/trigger_actions.py:39 | With the playbook that a missing file is read as, every anomaly gets no actions. |
| `ActionSelection.UrgentIff` | scripts/trigger_actions.py:22-25 | A resolved priority is urgent iff escalation applies or the rule was preset to urgent. |
| `ActionSelection.ResolveOnlyPriority` | scripts/trigger_actions.py:21 | A resolved action is the rule's copy with only `priority` set, and a priority is always present. |
| `ActionSelection.EscalationBeatsPreset` | scripts/trigger_actions.py:22-23 | A rule preset to low that escalates on high resolves to urgent for a high anomaly. |
| `ActionSelection.MissingSeverityNeverEscalates` | scripts/trigger_actions.py:17-25 | An anomaly without a severity is never escalated. Each action keeps its rule's priority, or gets normal. |
| `AuditTrail.RenderAudit` | scripts/trigger_actions.py:62-72 | The audit carries the plan's timestamp and a total equal to the number of items. It has one section per item, numbered from 1. Each section shows the item's type, severity, stream and details, and has one bullet (action, priority) per resolved action, in order. Empty input gives the header only. |
| `AuditTrail.BulletsResolved` | scripts/trigger_actions.py:70-71 | In a section rendered from a selected item, every bullet has a priority: urgent, normal or the rule's preset. |
| `Pipeline.Encode` | scripts/detect_anomalies.py:38-82 | An anomaly written by stage one has its stream, type, severity and details all present. |
| `Pipeline.TypeNamesDistinct` | scripts/detect_anomalies.py:38-82 | The four anomaly types are written as four distinct strings, so each selects its own playbook key. |
| `Pipeline.DetectedAnomalyActions` | scripts/trigger_actions.py:16-25 | For every detected anomaly, its actions are the resolution, under its own severity, of its own type's list (or the default list). Each is urgent iff the anomaly is high and the rule escalates, or the rule was preset to urgent. |
| `Pipeline.RunPipeline` | scripts/trigger_actions.py:38-72 | Both stages run in sequence. The plan count, the report count and the audit total agree. Item i carries the written form of anomaly i with its selected actions, and section i of the audit shows item i. |
| `Pipeline.ScenarioEmptySnapshot` | scripts/detect_anomalies.py:84-88 | An empty stream list gives count 0 and no anomalies, then no items, then an audit with total 0 and no sections. |

## Left out

- Command-line parsing, file existence checks, JSON parsing and writing, directory creation and `print` (both scripts) are I/O. The values a missing file is read as are modelled as `EmptySnapshot`, `MissingAnomalies` and `MissingPlaybook`. A malformed JSON file is a parse failure of the library and is not modelled.
- The wall-clock timestamps are not modelled. They are parameters of `DetectAnomalies`, `TriggerActions` and `RunPipeline`.
- IEEE float semantics are not modelled: rounding of products such as `limit * 1.2`, NaN and infinities. Numbers are exact reals.
- Rounding in the details (`round(cur / base, 2)` and `round(fr, 4)`) is not modelled. The details keep the unrounded ratio and rate.
- `float(...)` coercion of arbitrary JSON values (numeric strings, booleans) and its exceptions are not modelled. Inputs are taken as already numeric.
- JSON structure is only partly modelled. A key is either present with a value of the expected kind or absent. A present `null` value is not distinguished, and neither are non-string names or types, or streams that are not objects.
- Python truthiness of `escalate_on_high` is not modelled. It is an optional boolean that defaults to false.
- Playbook rule keys other than `action`, `escalate_on_high` and `priority` are not modelled. The source copies them unchanged.
- The audit text is not modelled: the Markdown strings and Python's `repr` of the details. The audit is modelled as a structure of header, sections and bullets.
- Idempotence across runs holds by construction, because every member is a deterministic function of its inputs apart from the timestamp parameters. It is not stated as a separate lemma.
