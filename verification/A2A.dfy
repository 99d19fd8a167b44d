/** The mapping to Agent2Agent objects (a2a.py). A JSON object with fixed keys is a record
    whose optional keys are `Option`s; metadata and structured data stay dicts. Fresh ids and
    the clock are parameters. */
module A2A {
  import opened Lists
  import opened Protocol

  const NEXUS_EVIDENCE_EXTENSION: string := "https://ai-nexus-open.org/extensions/evidence/v1"

  datatype Part = Part(structuredData: Option<Dict>)

  datatype Message = Message(
    messageId: string,
    taskId: Option<string>,
    parts: seq<Part>,
    metadata: Dict,
    contextId: Option<string>)

  datatype Artifact = Artifact(id: string, extension: Option<string>, parts: seq<Part>)

  datatype TaskStatus = TaskStatus(state: Option<string>, message: Option<string>, timestamp: string)

  datatype A2ATask = A2ATask(
    id: Option<string>,
    status: Option<TaskStatus>,
    artifacts: seq<Artifact>,
    metadata: Dict,
    contextId: Option<string>)

  datatype Outcome = ResultOutcome(result: Result) | ErrorOutcome(error: ErrorPayload)

  /** The first part that carries structured data. */
  function FirstData(parts: seq<Part>): Option<Dict> {
    if parts == [] then None
    else if parts[0].structuredData.Some? then parts[0].structuredData
    else FirstData(parts[1..])
  }

  method FindData(parts: seq<Part>) returns (data: Option<Dict>)
    ensures data == FirstData(parts)
  {
    for i := 0 to |parts|
      invariant FirstData(parts[i..]) == FirstData(parts)
    {
      if parts[i].structuredData.Some? {
        return parts[i].structuredData;
      }
      assert parts[i..][1..] == parts[i + 1..];
    }
    return None;
  }

  /** The result is the data of the first part that has any, so data parts after it are ignored. */
  lemma {:induction false} FirstDataIsFirst(parts: seq<Part>, i: nat)
    requires i < |parts| && parts[i].structuredData.Some?
    requires forall j :: 0 <= j < i ==> parts[j].structuredData.None?
    ensures FirstData(parts) == parts[i].structuredData
  {
    if i == 0 {
    } else {
      FirstDataIsFirst(parts[1..], i - 1);
    }
  }

  // Tasks

  function TaskMetadata(t: Task): Dict {
    var d0: Dict := map["nexus.objective" := Str(t.objective)];
    var d1 := WithOptional(d0, "nexus.constraints", NonEmptyStrs(t.constraints));
    var d2 := WithOptional(d1, "nexus.risk", StrOption(RiskOption(t.risk)));
    var d3 := WithOptional(d2, "nexus.deadline", StrOption(t.deadline));
    WithOptional(d3, "nexus.context", NonEmptyObj(t.context))
  }

  function TaskToMessage(t: Task, contextId: Option<string>, messageId: string): Message {
    Message(
      messageId, Some(t.id),
      if t.input == map[] then [] else [Part(Some(t.input))],
      TaskMetadata(t), contextId)
  }

  function MessageToTask(m: Message, freshId: string): Decoded<Task> {
    if "nexus.objective" !in m.metadata then Raised(ProtocolError("missing nexus.objective"))
    else
      var input := FirstData(m.parts);
      var id := if m.taskId.None? || m.taskId == Some("") then freshId else m.taskId.value;
      var objective :- StrField(m.metadata, "nexus.objective");
      var constraintItems :- ArrFieldOrEmpty(m.metadata, "nexus.constraints");
      var constraints :- StrsFromJson(constraintItems, "nexus.constraints");
      var riskName :- OptionalStr(m.metadata, "nexus.risk");
      var deadline :- OptionalStr(m.metadata, "nexus.deadline");
      var context :- ObjFieldOrEmpty(m.metadata, "nexus.context");
      var risk :- ParseRisk(riskName);
      Ok(Task(id, objective, if input.Some? then input.value else map[], constraints, risk, deadline, context))
  }

  lemma TaskMetadataReadsBack(t: Task)
    ensures var d := TaskMetadata(t);
            && StrField(d, "nexus.objective") == Ok(t.objective)
            && ArrFieldOrEmpty(d, "nexus.constraints") == Ok(StrsToJson(t.constraints))
            && OptionalStr(d, "nexus.risk") == Ok(RiskOption(t.risk))
            && OptionalStr(d, "nexus.deadline") == Ok(t.deadline)
            && ObjFieldOrEmpty(d, "nexus.context") == Ok(t.context)
  {
  }

  /** A task survives the trip in every field but an empty id, which the decoder replaces by a
      fresh one: for a fresh id that is not empty, the trip is exact iff the task's id is not. */
  lemma TaskMessageRoundTrip(t: Task, contextId: Option<string>, messageId: string, freshId: string)
    ensures var back := MessageToTask(TaskToMessage(t, contextId, messageId), freshId);
            && back == Ok(if t.id == "" then t.(id := freshId) else t)
            && (freshId != "" ==> (back == Ok(t) <==> t.id != ""))
  {
    TaskMetadataReadsBack(t);
    StrsRoundTrip(t.constraints, "nexus.constraints");
    RiskRoundTrip(t.risk);
  }

  /** The keys of a task's message: optional ones only for what the task has. */
  lemma TaskWritten(t: Task, contextId: Option<string>, messageId: string)
    ensures var m := TaskToMessage(t, contextId, messageId);
            && m.messageId == messageId && m.taskId == Some(t.id) && m.contextId == contextId
            && (m.parts == [] <==> t.input == map[])
            && (forall part :: part in m.parts ==> part.structuredData == Some(t.input))
            && ("nexus.constraints" in m.metadata <==> t.constraints != [])
            && ("nexus.risk" in m.metadata <==> t.risk.Some?)
            && ("nexus.deadline" in m.metadata <==> t.deadline.Some?)
            && ("nexus.context" in m.metadata <==> t.context != map[])
            && m.metadata.Keys
               <= {"nexus.objective", "nexus.constraints", "nexus.risk", "nexus.deadline", "nexus.context"}
  {
  }

  /** Which messages of any agent decode to a task, and to which: only the objective is required, a missing
      or empty id is replaced by the fresh one, and the input is the first structured data. */
  lemma MessageDecodes(m: Message, freshId: string)
    ensures var r, d := MessageToTask(m, freshId), m.metadata;
            && (r.Ok? <==>
                  && HasStr(d, "nexus.objective")
                  && StrsOrMissing(d, "nexus.constraints")
                  && RiskOrMissing(d, "nexus.risk")
                  && ("nexus.deadline" in d ==> d["nexus.deadline"].Str? || d["nexus.deadline"] == Null)
                  && ("nexus.context" in d ==> d["nexus.context"].Obj?))
            && ("nexus.objective" !in d ==> r.Raised? && r.error.ProtocolError?)
            && (r.Ok? ==>
                  var task := r.value;
                  && task.id == (if m.taskId.Some? && m.taskId.value != "" then m.taskId.value else freshId)
                  && d["nexus.objective"] == Str(task.objective)
                  && task.input == (if FirstData(m.parts).Some? then FirstData(m.parts).value else map[])
                  && (if "nexus.constraints" in d then StrsAre(d["nexus.constraints"].items, task.constraints)
                      else task.constraints == [])
                  && Optionally(d, "nexus.risk", match task.risk
                                                 case None => None
                                                 case Some(Low) => Some("low")
                                                 case Some(Medium) => Some("medium")
                                                 case Some(High) => Some("high")
                                                 case Some(Critical) => Some("critical"))
                  && Optionally(d, "nexus.deadline", task.deadline)
                  && Obj(task.context) == (if "nexus.context" in d then d["nexus.context"] else Obj(map[])))
  {
    if "nexus.constraints" in m.metadata && m.metadata["nexus.constraints"].Arr? {
      StrsDecode(m.metadata["nexus.constraints"].items, "nexus.constraints");
    }
  }

  // Evidence

  function EvidenceToArtifact(e: Evidence, id: string): Artifact {
    Artifact(id, Some(NEXUS_EVIDENCE_EXTENSION), [Part(Some(EvidenceToDict(e)))])
  }

  predicate IsEvidence(a: Artifact) {
    a.extension == Some(NEXUS_EVIDENCE_EXTENSION)
  }

  function ArtifactToEvidence(a: Artifact, now: string): Decoded<Evidence> {
    if !IsEvidence(a) then Raised(ProtocolError("not an evidence artifact"))
    else
      match FirstData(a.parts)
      case Some(d) => EvidenceFromDict(d, now)
      case None => Raised(ProtocolError("no structuredData part"))
  }

  lemma EvidenceArtifactRoundTrip(e: Evidence, id: string, now: string)
    ensures ArtifactToEvidence(EvidenceToArtifact(e, id), now) == Ok(e)
  {
    EvidenceRoundTrip(e, now);
  }

  // Outcomes

  function EvidenceArtifacts(es: seq<Evidence>, freshId: nat -> string): (r: seq<Artifact>)
    ensures |r| == |es|
  {
    if es == [] then []
    else EvidenceArtifacts(es[..|es| - 1], freshId) + [EvidenceToArtifact(es[|es| - 1], freshId(|es|))]
  }

  function ResultMetadata(r: Result): Dict {
    WithOptional(
      map["nexus.status" := Str(StatusName(r.status))],
      "nexus.confidence", if r.confidence.Some? then Some(Num(r.confidence.value)) else None)
  }

  function ResultToTask(r: Result, contextId: Option<string>, freshId: nat -> string, now: string): A2ATask {
    A2ATask(
      Some(r.taskId),
      Some(TaskStatus(Some(if r.status == Refused then "REJECTED" else "COMPLETED"), None, now)),
      [Artifact(freshId(0), None, [Part(Some(r.output))])] + EvidenceArtifacts(r.evidence, freshId),
      ResultMetadata(r),
      contextId)
  }

  function ErrorToTask(e: ErrorPayload, contextId: Option<string>, now: string): A2ATask {
    A2ATask(
      Some(e.taskId),
      Some(TaskStatus(Some("FAILED"), Some(e.message), now)),
      [],
      map["nexus.error_code" := Str(e.errorCode), "nexus.retryable" := Bool(e.retryable)],
      contextId)
  }

  /** The structured data of a list of parts merged in order, later keys winning. */
  function MergedParts(parts: seq<Part>): Dict {
    if parts == [] then map[]
    else
      var before, last := MergedParts(parts[..|parts| - 1]), parts[|parts| - 1];
      if last.structuredData.Some? then before + last.structuredData.value else before
  }

  datatype Collected = Collected(output: Dict, evidence: seq<Evidence>)

  /** What the loop over the artifacts gathers. */
  function Collect(artifacts: seq<Artifact>, now: string): Decoded<Collected> {
    if artifacts == [] then Ok(Collected(map[], []))
    else
      var before :- Collect(artifacts[..|artifacts| - 1], now);
      CollectOne(before, artifacts[|artifacts| - 1], now)
  }

  function CollectOne(before: Collected, a: Artifact, now: string): Decoded<Collected> {
    if IsEvidence(a) then
      var e :- ArtifactToEvidence(a, now);
      Ok(before.(evidence := before.evidence + [e]))
    else Ok(before.(output := before.output + MergedParts(a.parts)))
  }

  predicate Terminal(state: string) {
    state == "COMPLETED" || state == "FAILED" || state == "CANCELED" || state == "REJECTED"
  }

  function TaskState(t: A2ATask): Decoded<string> {
    if t.status.None? then Raised(KeyError("status"))
    else if t.status.value.state.None? then Raised(KeyError("state"))
    else if !Terminal(t.status.value.state.value) then Raised(ProtocolError("non-terminal task state"))
    else Ok(t.status.value.state.value)
  }

  function TaskId(t: A2ATask): Decoded<string> {
    if t.id.None? then Raised(KeyError("id")) else Ok(t.id.value)
  }

  function FailedOutcome(t: A2ATask): Decoded<Outcome>
    requires t.status.Some?
  {
    var id :- TaskId(t);
    var errorCode :- StrFieldOr(t.metadata, "nexus.error_code", "unknown_error");
    var retryable :- BoolFieldOr(t.metadata, "nexus.retryable", false);
    var message := if t.status.value.message.Some? then t.status.value.message.value else "";
    Ok(ErrorOutcome(ErrorPayload(id, errorCode, message, retryable)))
  }

  function FinishedOutcome(t: A2ATask, state: string, collected: Collected): Decoded<Outcome> {
    var statusName :- if state == "REJECTED" then Ok("refused") else StrFieldOr(t.metadata, "nexus.status", "success");
    var id :- TaskId(t);
    var confidence :- OptionalNum(t.metadata, "nexus.confidence");
    var status :- ParseStatus(statusName);
    Ok(ResultOutcome(Result(id, status, collected.output, confidence, collected.evidence)))
  }

  /** `a2a_task_to_outcome` */
  function Decode(t: A2ATask, now: string): Decoded<Outcome> {
    var state :- TaskState(t);
    if state == "FAILED" then FailedOutcome(t)
    else
      var collected :- Collect(t.artifacts, now);
      FinishedOutcome(t, state, collected)
  }

  method MergeParts(output: Dict, parts: seq<Part>) returns (merged: Dict)
    ensures merged == output + MergedParts(parts)
  {
    merged := output;
    for i := 0 to |parts|
      invariant merged == output + MergedParts(parts[..i])
    {
      assert parts[..i + 1][..i] == parts[..i];
      if parts[i].structuredData.Some? {
        merged := merged + parts[i].structuredData.value;
      }
    }
    assert parts[..|parts|] == parts;
  }

  lemma {:induction false} CollectRaises(artifacts: seq<Artifact>, n: nat, now: string)
    requires n <= |artifacts| && Collect(artifacts[..n], now).Raised?
    ensures Collect(artifacts, now) == Raised(Collect(artifacts[..n], now).error)
  {
    if n < |artifacts| {
      var before := artifacts[..|artifacts| - 1];
      assert before[..n] == artifacts[..n];
      CollectRaises(before, n, now);
    } else {
      assert artifacts[..n] == artifacts;
    }
  }

  lemma CollectStep(artifacts: seq<Artifact>, i: nat, now: string)
    requires i < |artifacts| && Collect(artifacts[..i], now).Ok?
    ensures Collect(artifacts[..i + 1], now) == CollectOne(Collect(artifacts[..i], now).value, artifacts[i], now)
  {
    assert artifacts[..i + 1][..i] == artifacts[..i];
  }

  method CollectArtifacts(artifacts: seq<Artifact>, now: string) returns (r: Decoded<Collected>)
    ensures r == Collect(artifacts, now)
  {
    var output: Dict := map[];
    var evidence: seq<Evidence> := [];
    for i := 0 to |artifacts|
      invariant Collect(artifacts[..i], now) == Ok(Collected(output, evidence))
    {
      CollectStep(artifacts, i, now);
      if IsEvidence(artifacts[i]) {
        var e := ArtifactToEvidence(artifacts[i], now);
        if e.Raised? {
          CollectRaises(artifacts, i + 1, now);
          return Raised(e.error);
        }
        evidence := evidence + [e.value];
      } else {
        output := MergeParts(output, artifacts[i].parts);
      }
    }
    assert artifacts[..|artifacts|] == artifacts;
    return Ok(Collected(output, evidence));
  }

  method TaskToOutcome(t: A2ATask, now: string) returns (r: Decoded<Outcome>)
    ensures r == Decode(t, now)
  {
    var state := TaskState(t);
    if state.Raised? {
      return Raised(state.error);
    }
    if state.value == "FAILED" {
      return FailedOutcome(t);
    }
    var collected := CollectArtifacts(t.artifacts, now);
    if collected.Raised? {
      return Raised(collected.error);
    }
    return FinishedOutcome(t, state.value, collected.value);
  }

  // Round trips

  lemma {:induction false} CollectEvidence(
    first: Artifact, es: seq<Evidence>, freshId: nat -> string, now: string)
    requires !IsEvidence(first)
    ensures Collect([first] + EvidenceArtifacts(es, freshId), now) == Ok(Collected(MergedParts(first.parts), es))
  {
    var artifacts := [first] + EvidenceArtifacts(es, freshId);
    if es == [] {
      assert artifacts == [first] && artifacts[..0] == [];
      assert map[] + MergedParts(first.parts) == MergedParts(first.parts);
    } else {
      var before, e := es[..|es| - 1], es[|es| - 1];
      CollectEvidence(first, before, freshId, now);
      EvidenceArtifactRoundTrip(e, freshId(|es|), now);
      assert artifacts[..|artifacts| - 1] == [first] + EvidenceArtifacts(before, freshId);
      assert before + [e] == es;
    }
  }

  lemma OutputPart(output: Dict)
    ensures MergedParts([Part(Some(output))]) == output
  {
    assert [Part(Some(output))][..0] == [];
    assert map[] + output == output;
  }

  lemma ResultMetadataReadsBack(r: Result)
    ensures StrFieldOr(ResultMetadata(r), "nexus.status", "success") == Ok(StatusName(r.status))
    ensures OptionalNum(ResultMetadata(r), "nexus.confidence") == Ok(r.confidence)
    ensures ParseStatus(StatusName(r.status)) == Ok(r.status)
  {
  }

  lemma {:induction false} EvidenceArtifactsAt(es: seq<Evidence>, freshId: nat -> string, i: nat)
    requires i < |es|
    ensures EvidenceArtifacts(es, freshId)[i] == EvidenceToArtifact(es[i], freshId(i + 1))
  {
    if i < |es| - 1 {
      EvidenceArtifactsAt(es[..|es| - 1], freshId, i);
    }
  }

  /** How a result is written: as a REJECTED task iff it is refused and a COMPLETED one otherwise, under
      its id and the given context; the output in an artifact of its own, then the evidence, one
      artifact of the evidence extension for each entry, all under fresh ids. */
  lemma ResultWritten(r: Result, contextId: Option<string>, freshId: nat -> string, now: string)
    ensures var t := ResultToTask(r, contextId, freshId, now);
            && t.id == Some(r.taskId) && t.contextId == contextId
            && t.status.Some? && t.status.value.message == None && t.status.value.timestamp == now
            && (t.status.value.state == Some("REJECTED") <==> r.status == Refused)
            && (t.status.value.state == Some("COMPLETED") <==> r.status == Success || r.status == Partial)
            && |t.artifacts| == 1 + |r.evidence|
            && t.artifacts[0] == Artifact(freshId(0), None, [Part(Some(r.output))])
            && (forall i :: 1 <= i < |t.artifacts| ==>
                  && t.artifacts[i].id == freshId(i)
                  && t.artifacts[i].extension == Some("https://ai-nexus-open.org/extensions/evidence/v1")
                  && t.artifacts[i].parts == [Part(Some(EvidenceToDict(r.evidence[i - 1])))])
            && (t.metadata.Keys == {"nexus.status"} + if r.confidence.Some? then {"nexus.confidence"} else {})
  {
    var artifacts := ResultToTask(r, contextId, freshId, now).artifacts;
    forall i | 1 <= i < |artifacts| ensures artifacts[i] == EvidenceToArtifact(r.evidence[i - 1], freshId(i)) {
      EvidenceArtifactsAt(r.evidence, freshId, i - 1);
    }
  }

  /** A result comes back unchanged, for every status, confidence and order of evidence. */
  lemma ResultOutcomeRoundTrip(
    r: Result, contextId: Option<string>, freshId: nat -> string, encodedAt: string, decodedAt: string)
    ensures Decode(ResultToTask(r, contextId, freshId, encodedAt), decodedAt) == Ok(ResultOutcome(r))
  {
    var first := Artifact(freshId(0), None, [Part(Some(r.output))]);
    CollectEvidence(first, r.evidence, freshId, decodedAt);
    OutputPart(r.output);
    ResultMetadataReadsBack(r);
  }

  /** An error comes back unchanged, and is sent in the context given. */
  lemma ErrorOutcomeRoundTrip(e: ErrorPayload, contextId: Option<string>, encodedAt: string, decodedAt: string)
    ensures Decode(ErrorToTask(e, contextId, encodedAt), decodedAt) == Ok(ErrorOutcome(e))
    ensures ErrorToTask(e, contextId, encodedAt).contextId == contextId
  {
  }

  // Tasks any agent may send

  /** The state decides what kind of outcome a task decodes to: none unless it is terminal, an
      error iff it is FAILED, a refusal if it is REJECTED. Metadata, or success for none, decide
      the status of a completed task, and also of a canceled one. */
  lemma StateDecidesKind(t: A2ATask, now: string)
    requires t.status.Some? && t.status.value.state.Some?
    ensures var state, r := t.status.value.state.value, Decode(t, now);
            && (!Terminal(state) ==> r.Raised? && r.error.ProtocolError?)
            && (r.Ok? ==> Terminal(state) && (r.value.ErrorOutcome? <==> state == "FAILED"))
            && (r.Ok? && state != "FAILED" ==> StatusDecoded(state, t.metadata, r.value.result.status))
  {
    StatusLaw(t.metadata);
  }

  /** The structured data of the parts of the artifacts that are not evidence, in order. */
  function OutputParts(artifacts: seq<Artifact>): seq<Dict> {
    if artifacts == [] then []
    else
      var before, last := OutputParts(artifacts[..|artifacts| - 1]), artifacts[|artifacts| - 1];
      if IsEvidence(last) then before else before + DataOf(last.parts)
  }

  function DataOf(parts: seq<Part>): seq<Dict> {
    if parts == [] then []
    else
      var before, last := DataOf(parts[..|parts| - 1]), parts[|parts| - 1];
      if last.structuredData.Some? then before + [last.structuredData.value] else before
  }

  function EvidenceOnly(artifacts: seq<Artifact>): seq<Artifact> {
    if artifacts == [] then []
    else
      var before, last := EvidenceOnly(artifacts[..|artifacts| - 1]), artifacts[|artifacts| - 1];
      if IsEvidence(last) then before + [last] else before
  }

  /** `output` maps each key to its last definition in `parts`, and has no other key. */
  ghost predicate LastDefinitions(parts: seq<Dict>, output: Dict) {
    && (forall i, key :: 0 <= i < |parts| && key in parts[i] ==> key in output)
    && (forall key :: key in output ==> DefinedLastAt(parts, key, output[key]))
  }

  ghost predicate DefinedLastAt(parts: seq<Dict>, key: string, value: Json) {
    exists i :: 0 <= i < |parts| && key in parts[i] && parts[i][key] == value
                && forall j :: i < j < |parts| ==> key !in parts[j]
  }

  lemma OneMorePart(parts: seq<Dict>, output: Dict, d: Dict)
    requires LastDefinitions(parts, output)
    ensures LastDefinitions(parts + [d], output + d)
  {
    var more := parts + [d];
    forall key | key in output + d ensures DefinedLastAt(more, key, (output + d)[key]) {
      if key in d {
        assert more[|parts|] == d;
      } else {
        var i :| 0 <= i < |parts| && key in parts[i] && parts[i][key] == output[key]
                 && forall j :: i < j < |parts| ==> key !in parts[j];
        assert more[i] == parts[i];
      }
    }
    forall i, key | 0 <= i < |more| && key in more[i] ensures key in output + d {
      if i < |parts| {
        assert more[i] == parts[i];
      }
    }
  }

  lemma MergingOne(before: seq<Dict>, output: Dict, parts: seq<Part>)
    requires parts != [] && parts[|parts| - 1].structuredData.Some?
    ensures var init, d := parts[..|parts| - 1], parts[|parts| - 1].structuredData.value;
            && before + DataOf(parts) == before + DataOf(init) + [d]
            && output + MergedParts(parts) == output + MergedParts(init) + d
  {
  }

  lemma {:induction false} MergingParts(before: seq<Dict>, output: Dict, parts: seq<Part>)
    requires LastDefinitions(before, output)
    ensures LastDefinitions(before + DataOf(parts), output + MergedParts(parts))
  {
    if parts == [] {
      assert before + DataOf(parts) == before && output + MergedParts(parts) == output;
    } else {
      var init := parts[..|parts| - 1];
      MergingParts(before, output, init);
      if parts[|parts| - 1].structuredData.Some? {
        MergingOne(before, output, parts);
        OneMorePart(before + DataOf(init), output + MergedParts(init), parts[|parts| - 1].structuredData.value);
      }
    }
  }

  /** Collecting raises exactly when some evidence artifact is malformed. Otherwise the
      output maps each key to its last definition over the non-evidence parts, and the
      evidence is what the evidence artifacts decode to, in order. */
  lemma {:induction false} CollectLaw(artifacts: seq<Artifact>, now: string)
    ensures var r, es := Collect(artifacts, now), EvidenceOnly(artifacts);
            && (r.Ok? <==> forall a :: a in es ==> ArtifactToEvidence(a, now).Ok?)
            && (r.Ok? ==> LastDefinitions(OutputParts(artifacts), r.value.output))
            && (r.Ok? ==> |r.value.evidence| == |es|
                          && forall i :: 0 <= i < |es| ==> ArtifactToEvidence(es[i], now) == Ok(r.value.evidence[i]))
  {
    if artifacts == [] {
    } else {
      var init, last := artifacts[..|artifacts| - 1], artifacts[|artifacts| - 1];
      CollectLaw(init, now);
      var r := Collect(init, now);
      if r.Ok? && !IsEvidence(last) {
        MergingParts(OutputParts(init), r.value.output, last.parts);
      }
    }
  }

  /** The status a task that is not FAILED decodes to: REJECTED overrides the metadata, which
      otherwise decides, with success for none. */
  predicate StatusDecoded(state: string, metadata: Dict, status: Status) {
    if state == "REJECTED" then status == Refused
    else if "nexus.status" in metadata then metadata["nexus.status"] == Str(StatusName(status))
    else status == Success
  }

  /** The decode law for a task from any agent that is not FAILED: it decodes exactly when
      the state is terminal, it has an id, every evidence artifact is well formed and the
      metadata it reads are; and then nothing in it is dropped but overwritten keys, and id,
      status and confidence are the ones it carries. */
  lemma DecodeLaw(t: A2ATask, state: string, now: string)
    requires TaskState(t) == Ok(state) && state != "FAILED"
    ensures var r, es := Decode(t, now), EvidenceOnly(t.artifacts);
            && (r.Ok? <==> && t.id.Some?
                           && (forall a :: a in es ==> ArtifactToEvidence(a, now).Ok?)
                           && OptionalNum(t.metadata, "nexus.confidence").Ok?
                           && (state == "REJECTED" || StatusReadable(t.metadata)))
            && (r.Ok? ==> var result := r.value.result;
                          && t.id == Some(result.taskId)
                          && StatusDecoded(state, t.metadata, result.status)
                          && OptionalNum(t.metadata, "nexus.confidence") == Ok(result.confidence)
                          && LastDefinitions(OutputParts(t.artifacts), result.output)
                          && |result.evidence| == |es|
                          && forall i :: 0 <= i < |es| ==> ArtifactToEvidence(es[i], now) == Ok(result.evidence[i]))
  {
    CollectLaw(t.artifacts, now);
    StatusLaw(t.metadata);
    assert ParseStatus("refused").Ok? && ParseStatus("success").Ok?;
  }

  lemma StatusLaw(metadata: Dict)
    ensures var name := StrFieldOr(metadata, "nexus.status", "success");
            && (name.Ok? && ParseStatus(name.value).Ok? <==> StatusReadable(metadata))
            && (StatusReadable(metadata) ==> StatusDecoded("", metadata, ParseStatus(name.value).value))
  {
  }

  predicate StatusReadable(metadata: Dict) {
    "nexus.status" in metadata ==> metadata["nexus.status"] in {Str("success"), Str("partial"), Str("refused")}
  }

  /** A FAILED task decodes to an error exactly when it has an id and its metadata are well
      formed, with defaults for what is missing. */
  lemma FailedLaw(t: A2ATask, now: string)
    requires TaskState(t) == Ok("FAILED")
    ensures var r := Decode(t, now);
            var code, retryable := StrFieldOr(t.metadata, "nexus.error_code", "unknown_error"),
                                   BoolFieldOr(t.metadata, "nexus.retryable", false);
            && (r.Ok? <==> t.id.Some? && code.Ok? && retryable.Ok?)
            && (r.Ok? ==> var e := r.value.error;
                          && t.id == Some(e.taskId) && code == Ok(e.errorCode) && retryable == Ok(e.retryable)
                          && e.message == if t.status.value.message.Some? then t.status.value.message.value else "")
  {
  }

  /** A canceled task that decodes is a success exactly if it does not say otherwise. */
  lemma CanceledSuccessIff(t: A2ATask, now: string)
    requires TaskState(t) == Ok("CANCELED") && Decode(t, now).Ok?
    ensures Decode(t, now).value.result.status == Success
            <==> "nexus.status" !in t.metadata || t.metadata["nexus.status"] == Str("success")
  {
    DecodeLaw(t, "CANCELED", now);
  }

  /** The smallest such task: canceled, with an id and nothing else. */
  lemma CanceledBecomesSuccess(now: string)
    ensures var t := A2ATask(Some("t"), Some(TaskStatus(Some("CANCELED"), None, now)), [], map[], None);
            Decode(t, now) == Ok(ResultOutcome(Result("t", Success, map[], None, [])))
  {
  }
}
