/** Wire objects of the Nexus protocol (protocol.py) and their dict encodings. */
module Protocol {
  import opened Lists

  datatype Json =
    | Null
    | Bool(b: bool)
    | Num(r: real)
    | Str(s: string)
    | Arr(items: seq<Json>)
    | Obj(fields: Dict)

  type Dict = map<string, Json>

  /** A value up to Python's `==`, which takes True for 1 and False for 0. */
  function Value(j: Json): Json {
    match j
    case Bool(b) => Num(if b then 1.0 else 0.0)
    case Arr(items) => Arr(seq(|items|, i requires 0 <= i < |items| => Value(items[i])))
    case Obj(fields) => Obj(map key | key in fields :: Value(fields[key]))
    case _ => j
  }

  /** `x == y` on dicts */
  predicate SameDict(x: Dict, y: Dict) {
    Value(Obj(x)) == Value(Obj(y))
  }

  lemma TrueEqualsOne(d: Dict, key: string)
    ensures SameDict(d[key := Bool(true)], d[key := Num(1.0)])
    ensures !SameDict(d[key := Bool(true)], d[key := Num(0.0)])
  {
    var yes, one, no := d[key := Bool(true)], d[key := Num(1.0)], d[key := Num(0.0)];
    assert Value(yes[key]) == Num(1.0) == Value(one[key]) && Value(no[key]) == Num(0.0);
    forall k | k in yes ensures Value(yes[k]) == Value(one[k]) {
      assert k != key ==> yes[k] == one[k];
    }
    assert Value(Obj(yes)).fields == Value(Obj(one)).fields;
    assert Value(Obj(yes)).fields[key] != Value(Obj(no)).fields[key];
  }

  function Number(j: Json): real
    requires j.Num? || j.Bool?
  {
    if j.Num? then j.r else if j.b then 1.0 else 0.0
  }

  /** Python's `==` on JSON values, case by case. */
  predicate Equal(x: Json, y: Json)
    decreases x
  {
    match x
    case Null => y.Null?
    case Bool(_) => (y.Num? || y.Bool?) && Number(x) == Number(y)
    case Num(_) => (y.Num? || y.Bool?) && Number(x) == Number(y)
    case Str(s) => y == Str(s)
    case Arr(items) => y.Arr? && |y.items| == |items| && forall i :: 0 <= i < |items| ==> Equal(items[i], y.items[i])
    case Obj(fields) => y.Obj? && y.fields.Keys == fields.Keys && forall k :: k in fields ==> Equal(fields[k], y.fields[k])
  }

  lemma ValueOfArr(xs: seq<Json>, ys: seq<Json>)
    ensures Value(Arr(xs)) == Value(Arr(ys))
            <==> |xs| == |ys| && forall i :: 0 <= i < |xs| ==> Value(xs[i]) == Value(ys[i])
  {
    var v, w := Value(Arr(xs)).items, Value(Arr(ys)).items;
    assert v == w <==> |v| == |w| && forall i :: 0 <= i < |v| ==> v[i] == w[i];
    assert forall i :: 0 <= i < |v| ==> v[i] == Value(xs[i]);
    assert forall i :: 0 <= i < |w| ==> w[i] == Value(ys[i]);
  }

  lemma ValueOfObj(x: Dict, y: Dict)
    ensures Value(Obj(x)) == Value(Obj(y))
            <==> x.Keys == y.Keys && forall k :: k in x ==> Value(x[k]) == Value(y[k])
  {
    var v, w := Value(Obj(x)).fields, Value(Obj(y)).fields;
    assert v.Keys == x.Keys && w.Keys == y.Keys;
    assert v == w ==> forall k :: k in v ==> k in w && v[k] == w[k];
  }

  /** Comparing values is comparing case by case. */
  lemma {:induction false} ValueIsEqual(x: Json, y: Json)
    ensures Value(x) == Value(y) <==> Equal(x, y)
    decreases x
  {
    if x.Arr? && y.Arr? {
      ValueOfArr(x.items, y.items);
      if |x.items| == |y.items| {
        forall i | 0 <= i < |x.items| ensures Value(x.items[i]) == Value(y.items[i]) <==> Equal(x.items[i], y.items[i]) {
          ValueIsEqual(x.items[i], y.items[i]);
        }
      }
    } else if x.Obj? && y.Obj? {
      ValueOfObj(x.fields, y.fields);
      if x.fields.Keys == y.fields.Keys {
        forall k | k in x.fields ensures Value(x.fields[k]) == Value(y.fields[k]) <==> Equal(x.fields[k], y.fields[k]) {
          ValueIsEqual(x.fields[k], y.fields[k]);
        }
      }
    }
  }

  /** Two outputs are the same exactly if they have the same keys with equal values. */
  lemma SameDictIsEqual(x: Dict, y: Dict)
    ensures SameDict(x, y) <==> x.Keys == y.Keys && forall k :: k in x ==> Equal(x[k], y[k])
  {
    ValueIsEqual(Obj(x), Obj(y));
  }

  /** The exceptions a decoder raises. `IllTyped` stands for a value whose JSON type is
      not the one the field declares. */
  datatype Exception =
    | ProtocolError(what: string)
    | KeyError(key: string)
    | ValueError(why: string)
    | IllTyped(field: string)

  datatype Decoded<+T> = Ok(value: T) | Raised(error: Exception) {
    predicate IsFailure() { Raised? }

    function PropagateFailure<U>(): Decoded<U>
      requires Raised?
    {
      Raised(error)
    }

    function Extract(): T
      requires Ok?
    {
      value
    }
  }

  function StrField(d: Dict, key: string): Decoded<string> {
    if key !in d then Raised(KeyError(key))
    else if d[key].Str? then Ok(d[key].s)
    else Raised(IllTyped(key))
  }

  function NumField(d: Dict, key: string): Decoded<real> {
    if key !in d then Raised(KeyError(key))
    else if d[key].Num? then Ok(d[key].r)
    else Raised(IllTyped(key))
  }

  /** `d.get(key, default)` */
  function StrFieldOr(d: Dict, key: string, default: string): Decoded<string> {
    if key !in d then Ok(default) else StrField(d, key)
  }

  /** `d.get(key)` for an optional string */
  function OptionalStr(d: Dict, key: string): Decoded<Option<string>> {
    if key !in d || d[key] == Null then Ok(None)
    else
      var s :- StrField(d, key);
      Ok(Some(s))
  }

  /** `d.get(key)` for an optional number */
  function OptionalNum(d: Dict, key: string): Decoded<Option<real>> {
    if key !in d || d[key] == Null then Ok(None)
    else
      var r :- NumField(d, key);
      Ok(Some(r))
  }

  /** `d.get(key, {})` */
  function ObjFieldOrEmpty(d: Dict, key: string): Decoded<Dict> {
    if key !in d then Ok(map[])
    else if d[key].Obj? then Ok(d[key].fields)
    else Raised(IllTyped(key))
  }

  /** `d.get(key, [])` */
  function ArrFieldOrEmpty(d: Dict, key: string): Decoded<seq<Json>> {
    if key !in d then Ok([])
    else if d[key].Arr? then Ok(d[key].items)
    else Raised(IllTyped(key))
  }

  function BoolFieldOr(d: Dict, key: string, default: bool): Decoded<bool> {
    if key !in d then Ok(default)
    else if d[key].Bool? then Ok(d[key].b)
    else Raised(IllTyped(key))
  }

  function WithOptional(d: Dict, key: string, value: Option<Json>): Dict {
    if value.Some? then d[key := value.value] else d
  }

  function StrOption(o: Option<string>): Option<Json> {
    if o.Some? then Some(Str(o.value)) else None
  }

  function StrsToJson(xs: seq<string>): seq<Json> {
    Map(xs, (x: string) => Str(x))
  }

  /** `[decode(x) for x in items]`: the first exception from the left ends it. */
  function DecodeList<T>(items: seq<Json>, decode: Json -> Decoded<T>): Decoded<seq<T>> {
    if items == [] then Ok([])
    else
      var before :- DecodeList(items[..|items| - 1], decode);
      var last :- decode(items[|items| - 1]);
      Ok(before + [last])
  }

  lemma {:induction false} DecodesTo<T>(items: seq<Json>, xs: seq<T>, decode: Json -> Decoded<T>)
    requires |items| == |xs| && forall i :: 0 <= i < |xs| ==> decode(items[i]) == Ok(xs[i])
    ensures DecodeList(items, decode) == Ok(xs)
  {
    if xs == [] {
    } else {
      var before, last := xs[..|xs| - 1], xs[|xs| - 1];
      DecodesTo(items[..|xs| - 1], before, decode);
      assert before + [last] == xs;
    }
  }

  lemma ListRoundTrip<T>(xs: seq<T>, encode: T -> Json, decode: Json -> Decoded<T>)
    requires forall i :: 0 <= i < |xs| ==> decode(encode(xs[i])) == Ok(xs[i])
    ensures DecodeList(Map(xs, encode), decode) == Ok(xs)
  {
    DecodesTo(Map(xs, encode), xs, decode);
  }

  lemma {:induction false} DecodeListRaises<T>(items: seq<Json>, n: nat, decode: Json -> Decoded<T>)
    requires n <= |items| && DecodeList(items[..n], decode).Raised?
    ensures DecodeList(items, decode) == Raised(DecodeList(items[..n], decode).error)
  {
    if n < |items| {
      assert items[..|items| - 1][..n] == items[..n];
      DecodeListRaises(items[..|items| - 1], n, decode);
    } else {
      assert items[..n] == items;
    }
  }

  lemma DecodeListStep<T>(items: seq<Json>, i: nat, decode: Json -> Decoded<T>)
    requires i < |items| && DecodeList(items[..i], decode).Ok?
    ensures match decode(items[i])
            case Ok(x) => DecodeList(items[..i + 1], decode) == Ok(DecodeList(items[..i], decode).value + [x])
            case Raised(error) => DecodeList(items, decode) == Raised(error)
  {
    assert items[..i + 1][..i] == items[..i];
    if decode(items[i]).Raised? {
      DecodeListRaises(items, i + 1, decode);
    }
  }

  function StrsFromJson(items: seq<Json>, field: string): Decoded<seq<string>> {
    DecodeList(items, (j: Json) => if j.Str? then Ok(j.s) else Raised(IllTyped(field)))
  }

  lemma StrsRoundTrip(xs: seq<string>, field: string)
    ensures StrsFromJson(StrsToJson(xs), field) == Ok(xs)
  {
    ListRoundTrip(xs, (x: string) => Str(x), (j: Json) => if j.Str? then Ok(j.s) else Raised(IllTyped(field)));
  }

  // Evidence

  datatype Transformation = ExtractedVerbatim | Summarized | Computed | Inferred

  function TransformationName(t: Transformation): string {
    match t
    case ExtractedVerbatim => "extracted_verbatim"
    case Summarized => "summarized"
    case Computed => "computed"
    case Inferred => "inferred"
  }

  function ParseTransformation(name: string): Decoded<Transformation> {
    match name
    case "extracted_verbatim" => Ok(ExtractedVerbatim)
    case "summarized" => Ok(Summarized)
    case "computed" => Ok(Computed)
    case "inferred" => Ok(Inferred)
    case _ => Raised(ProtocolError("invalid transformation"))
  }

  /** `Evidence.__post_init__` admits no other confidence. */
  type Confidence = r: real | 0.0 <= r <= 1.0 witness 0.0

  datatype Evidence = Evidence(
    claim: string,
    source: string,
    agentId: string,
    transformation: Transformation,
    confidence: Confidence,
    retrievedAt: string,
    location: Option<string>)

  function EvidenceToDict(e: Evidence): Dict {
    WithOptional(
      map[
        "claim" := Str(e.claim),
        "source" := Str(e.source),
        "retrieved_at" := Str(e.retrievedAt),
        "transformation" := Str(TransformationName(e.transformation)),
        "confidence" := Num(e.confidence),
        "agent_id" := Str(e.agentId)],
      "location", StrOption(e.location))
  }

  function EvidenceFromDict(d: Dict, now: string): Decoded<Evidence> {
    var claim :- StrField(d, "claim");
    var source :- StrField(d, "source");
    var agentId :- StrField(d, "agent_id");
    var transformationName :- StrField(d, "transformation");
    var confidence :- NumField(d, "confidence");
    var retrievedAt :- StrFieldOr(d, "retrieved_at", now);
    var location :- OptionalStr(d, "location");
    var transformation :- ParseTransformation(transformationName);
    if 0.0 <= confidence <= 1.0 then
      Ok(Evidence(claim, source, agentId, transformation, confidence, retrievedAt, location))
    else
      Raised(ProtocolError("confidence out of range"))
  }

  /** Encoding an evidence entry loses nothing, whatever the clock says on decoding. */
  lemma EvidenceRoundTrip(e: Evidence, now: string)
    ensures EvidenceFromDict(EvidenceToDict(e), now) == Ok(e)
  {
    var d := EvidenceToDict(e);
    assert d["confidence"] == Num(e.confidence);
    assert ParseTransformation(TransformationName(e.transformation)) == Ok(e.transformation);
  }

  predicate HasStr(d: Dict, key: string) {
    key in d && d[key].Str?
  }

  /** The value of a key that may be missing or null. */
  predicate Optionally(d: Dict, key: string, s: Option<string>) {
    if key !in d || d[key] == Null then s == None else d[key].Str? && s == Some(d[key].s)
  }

  /** Which dicts decode to evidence, and to which: four texts, one of them the name of a
      transformation, and a confidence in [0,1] are required. */
  lemma EvidenceDecodes(d: Dict, now: string)
    ensures var r := EvidenceFromDict(d, now);
            && (r.Ok? <==>
                  && HasStr(d, "claim") && HasStr(d, "source") && HasStr(d, "agent_id") && HasStr(d, "transformation")
                  && (|| d["transformation"].s == "extracted_verbatim" || d["transformation"].s == "summarized"
                      || d["transformation"].s == "computed" || d["transformation"].s == "inferred")
                  && "confidence" in d && d["confidence"].Num? && 0.0 <= d["confidence"].r <= 1.0
                  && ("retrieved_at" in d ==> d["retrieved_at"].Str?)
                  && ("location" in d ==> d["location"].Str? || d["location"] == Null))
            && (r.Ok? ==>
                  var e := r.value;
                  && d["claim"] == Str(e.claim) && d["source"] == Str(e.source) && d["agent_id"] == Str(e.agentId)
                  && d["confidence"] == Num(e.confidence)
                  && Str(e.retrievedAt) == (if "retrieved_at" in d then d["retrieved_at"] else Str(now))
                  && Optionally(d, "location", e.location)
                  && d["transformation"] == Str(match e.transformation
                                                case ExtractedVerbatim => "extracted_verbatim"
                                                case Summarized => "summarized"
                                                case Computed => "computed"
                                                case Inferred => "inferred"))
  {
  }

  function EvidenceListToJson(es: seq<Evidence>): seq<Json> {
    Map(es, (e: Evidence) => Obj(EvidenceToDict(e)))
  }

  function EvidenceFromJson(item: Json, now: string): Decoded<Evidence> {
    if item.Obj? then EvidenceFromDict(item.fields, now) else Raised(IllTyped("evidence"))
  }

  function EvidenceListFromJson(items: seq<Json>, now: string): Decoded<seq<Evidence>> {
    DecodeList(items, (item: Json) => EvidenceFromJson(item, now))
  }

  lemma EvidenceListRoundTrip(es: seq<Evidence>, now: string)
    ensures EvidenceListFromJson(EvidenceListToJson(es), now) == Ok(es)
  {
    var encode, decode := (e: Evidence) => Obj(EvidenceToDict(e)), (item: Json) => EvidenceFromJson(item, now);
    forall i | 0 <= i < |es| ensures decode(encode(es[i])) == Ok(es[i]) {
      EvidenceRoundTrip(es[i], now);
    }
    ListRoundTrip(es, encode, decode);
  }

  // Task

  datatype Risk = Low | Medium | High | Critical

  function RiskName(r: Risk): string {
    match r
    case Low => "low"
    case Medium => "medium"
    case High => "high"
    case Critical => "critical"
  }

  /** `Task.__post_init__`: a risk is absent or one of the four levels. */
  function ParseRisk(risk: Option<string>): Decoded<Option<Risk>> {
    match risk
    case None => Ok(None)
    case Some("low") => Ok(Some(Low))
    case Some("medium") => Ok(Some(Medium))
    case Some("high") => Ok(Some(High))
    case Some("critical") => Ok(Some(Critical))
    case Some(_) => Raised(ProtocolError("invalid risk level"))
  }

  function RiskOption(r: Option<Risk>): Option<string> {
    if r.Some? then Some(RiskName(r.value)) else None
  }

  lemma RiskRoundTrip(r: Option<Risk>)
    ensures ParseRisk(RiskOption(r)) == Ok(r)
  {
  }

  datatype Task = Task(
    id: string,
    objective: string,
    input: Dict,
    constraints: seq<string>,
    risk: Option<Risk>,
    deadline: Option<string>,
    context: Dict)

  function NonEmptyObj(d: Dict): Option<Json> {
    if d == map[] then None else Some(Obj(d))
  }

  function NonEmptyStrs(xs: seq<string>): Option<Json> {
    if xs == [] then None else Some(Arr(StrsToJson(xs)))
  }

  function TaskFields(t: Task): Dict {
    var d0: Dict := map["id" := Str(t.id), "objective" := Str(t.objective)];
    var d1 := WithOptional(d0, "input", NonEmptyObj(t.input));
    var d2 := WithOptional(d1, "constraints", NonEmptyStrs(t.constraints));
    var d3 := WithOptional(d2, "risk", StrOption(RiskOption(t.risk)));
    WithOptional(d3, "deadline", StrOption(t.deadline))
  }

  function TaskToPayload(t: Task): Dict {
    map["task" := Obj(TaskFields(t)), "context" := Obj(t.context)]
  }

  function TaskFromPayload(payload: Dict): Decoded<Task> {
    if "task" !in payload then Raised(KeyError("task"))
    else
      var t :- ObjFieldOrEmpty(payload, "task");
      var id :- StrField(t, "id");
      var objective :- StrField(t, "objective");
      var input :- ObjFieldOrEmpty(t, "input");
      var constraintItems :- ArrFieldOrEmpty(t, "constraints");
      var constraints :- StrsFromJson(constraintItems, "constraints");
      var riskName :- OptionalStr(t, "risk");
      var deadline :- OptionalStr(t, "deadline");
      var context :- ObjFieldOrEmpty(payload, "context");
      var risk :- ParseRisk(riskName);
      Ok(Task(id, objective, input, constraints, risk, deadline, context))
  }

  lemma TaskRoundTrip(t: Task)
    ensures TaskFromPayload(TaskToPayload(t)) == Ok(t)
  {
    StrsRoundTrip(t.constraints, "constraints");
    RiskRoundTrip(t.risk);
    var d := TaskFields(t);
    assert OptionalStr(d, "risk") == Ok(RiskOption(t.risk));
    assert OptionalStr(d, "deadline") == Ok(t.deadline);
  }

  predicate StrsOrMissing(d: Dict, key: string) {
    key in d ==> d[key].Arr? && forall i :: 0 <= i < |d[key].items| ==> d[key].items[i].Str?
  }

  lemma {:induction false} StrsDecode(items: seq<Json>, field: string)
    ensures var r := StrsFromJson(items, field);
            && (r.Ok? <==> forall i :: 0 <= i < |items| ==> items[i].Str?)
            && (r.Ok? ==> |r.value| == |items| && forall i :: 0 <= i < |items| ==> items[i] == Str(r.value[i]))
  {
    if items == [] {
    } else {
      StrsDecode(items[..|items| - 1], field);
    }
  }

  predicate RiskOrMissing(d: Dict, key: string) {
    key in d && d[key] != Null ==>
      && d[key].Str?
      && (d[key].s == "low" || d[key].s == "medium" || d[key].s == "high" || d[key].s == "critical")
  }

  /** Which payloads decode to a task, and to which: only id and objective are required. */
  lemma TaskDecodes(payload: Dict)
    ensures var r := TaskFromPayload(payload);
            && (r.Ok? <==>
                  && "task" in payload && payload["task"].Obj?
                  && ("context" in payload ==> payload["context"].Obj?)
                  && var t := payload["task"].fields;
                     && HasStr(t, "id") && HasStr(t, "objective")
                     && ("input" in t ==> t["input"].Obj?)
                     && StrsOrMissing(t, "constraints")
                     && RiskOrMissing(t, "risk")
                     && ("deadline" in t ==> t["deadline"].Str? || t["deadline"] == Null))
            && (r.Ok? ==>
                  var t, task := payload["task"].fields, r.value;
                  && t["id"] == Str(task.id) && t["objective"] == Str(task.objective)
                  && Obj(task.input) == (if "input" in t then t["input"] else Obj(map[]))
                  && Obj(task.context) == (if "context" in payload then payload["context"] else Obj(map[]))
                  && (if "constraints" in t then StrsAre(t["constraints"].items, task.constraints) else task.constraints == [])
                  && Optionally(t, "risk", match task.risk
                                           case None => None
                                           case Some(Low) => Some("low")
                                           case Some(Medium) => Some("medium")
                                           case Some(High) => Some("high")
                                           case Some(Critical) => Some("critical"))
                  && Optionally(t, "deadline", task.deadline))
  {
    if "task" in payload && payload["task"].Obj? {
      var t := payload["task"].fields;
      if "constraints" in t && t["constraints"].Arr? {
        StrsDecode(t["constraints"].items, "constraints");
      }
    }
  }

  predicate StrsAre(items: seq<Json>, xs: seq<string>) {
    |items| == |xs| && forall i :: 0 <= i < |xs| ==> items[i] == Str(xs[i])
  }

  // Result and error payloads

  datatype Status = Success | Partial | Refused

  function StatusName(s: Status): string {
    match s
    case Success => "success"
    case Partial => "partial"
    case Refused => "refused"
  }

  function ParseStatus(name: string): Decoded<Status> {
    match name
    case "success" => Ok(Success)
    case "partial" => Ok(Partial)
    case "refused" => Ok(Refused)
    case _ => Raised(ProtocolError("invalid result status"))
  }

  datatype Result = Result(
    taskId: string,
    status: Status,
    output: Dict,
    confidence: Option<real>,
    evidence: seq<Evidence>)

  function ResultToPayload(r: Result): Dict {
    var d0: Dict := map["task_id" := Str(r.taskId), "status" := Str(StatusName(r.status)), "output" := Obj(r.output)];
    var d1 := WithOptional(d0, "confidence", if r.confidence.Some? then Some(Num(r.confidence.value)) else None);
    WithOptional(d1, "evidence", if r.evidence == [] then None else Some(Arr(EvidenceListToJson(r.evidence))))
  }

  function ResultFromPayload(payload: Dict, now: string): Decoded<Result> {
    var taskId :- StrField(payload, "task_id");
    var statusName :- StrFieldOr(payload, "status", "success");
    var output :- ObjFieldOrEmpty(payload, "output");
    var confidence :- OptionalNum(payload, "confidence");
    var items :- ArrFieldOrEmpty(payload, "evidence");
    var evidence :- EvidenceListFromJson(items, now);
    var status :- ParseStatus(statusName);
    Ok(Result(taskId, status, output, confidence, evidence))
  }

  lemma ResultPayloadReadsBack(r: Result)
    ensures var d := ResultToPayload(r);
            && StrField(d, "task_id") == Ok(r.taskId)
            && StrFieldOr(d, "status", "success") == Ok(StatusName(r.status))
            && ObjFieldOrEmpty(d, "output") == Ok(r.output)
            && OptionalNum(d, "confidence") == Ok(r.confidence)
            && ArrFieldOrEmpty(d, "evidence") == Ok(EvidenceListToJson(r.evidence))
  {
  }

  lemma ResultRoundTrip(r: Result, now: string)
    ensures ResultFromPayload(ResultToPayload(r), now) == Ok(r)
  {
    ResultPayloadReadsBack(r);
    EvidenceListRoundTrip(r.evidence, now);
    assert ParseStatus(StatusName(r.status)) == Ok(r.status);
  }

  lemma {:induction false} EvidenceListDecodes(items: seq<Json>, now: string)
    ensures var r := EvidenceListFromJson(items, now);
            && (r.Ok? <==> forall i :: 0 <= i < |items| ==> EvidenceFromJson(items[i], now).Ok?)
            && (r.Ok? ==> |r.value| == |items| && forall i :: 0 <= i < |items| ==>
                            EvidenceFromJson(items[i], now) == Ok(r.value[i]))
  {
    if items == [] {
    } else {
      EvidenceListDecodes(items[..|items| - 1], now);
    }
  }

  predicate ArrOrMissing(d: Dict, key: string) {
    key in d ==> d[key].Arr?
  }

  function ItemsOf(d: Dict, key: string): seq<Json>
    requires ArrOrMissing(d, key)
  {
    if key in d then d[key].items else []
  }

  /** Which payloads decode to a result, and to which: only the task's id is required, and no
      status means success. */
  lemma ResultDecodes(payload: Dict, now: string)
    ensures var r := ResultFromPayload(payload, now);
            && (r.Ok? <==>
                  && HasStr(payload, "task_id")
                  && ("status" in payload ==>
                        && payload["status"].Str?
                        && (|| payload["status"].s == "success" || payload["status"].s == "partial"
                            || payload["status"].s == "refused"))
                  && ("output" in payload ==> payload["output"].Obj?)
                  && ("confidence" in payload ==> payload["confidence"].Num? || payload["confidence"] == Null)
                  && ArrOrMissing(payload, "evidence")
                  && forall i :: 0 <= i < |ItemsOf(payload, "evidence")| ==>
                       EvidenceFromJson(ItemsOf(payload, "evidence")[i], now).Ok?)
            && (r.Ok? ==>
                  var result := r.value;
                  && payload["task_id"] == Str(result.taskId)
                  && Str(match result.status
                         case Success => "success"
                         case Partial => "partial"
                         case Refused => "refused") == (if "status" in payload then payload["status"] else Str("success"))
                  && Obj(result.output) == (if "output" in payload then payload["output"] else Obj(map[]))
                  && (if "confidence" !in payload || payload["confidence"] == Null then result.confidence == None
                      else payload["confidence"].Num? && result.confidence == Some(payload["confidence"].r))
                  && |result.evidence| == |ItemsOf(payload, "evidence")|
                  && forall i :: 0 <= i < |result.evidence| ==>
                       EvidenceFromJson(ItemsOf(payload, "evidence")[i], now) == Ok(result.evidence[i]))
  {
    if ArrOrMissing(payload, "evidence") {
      EvidenceListDecodes(ItemsOf(payload, "evidence"), now);
    }
  }

  datatype ErrorPayload = ErrorPayload(taskId: string, errorCode: string, message: string, retryable: bool)

  function ErrorToPayload(e: ErrorPayload): Dict {
    map[
      "task_id" := Str(e.taskId),
      "error_code" := Str(e.errorCode),
      "message" := Str(e.message),
      "retryable" := Bool(e.retryable)]
  }

  function ErrorFromPayload(payload: Dict): Decoded<ErrorPayload> {
    var taskId :- StrField(payload, "task_id");
    var errorCode :- StrField(payload, "error_code");
    var message :- StrField(payload, "message");
    var retryable :- BoolFieldOr(payload, "retryable", false);
    Ok(ErrorPayload(taskId, errorCode, message, retryable))
  }

  lemma ErrorRoundTrip(e: ErrorPayload)
    ensures ErrorFromPayload(ErrorToPayload(e)) == Ok(e)
  {
  }

  /** Which payloads decode to an error, and to which: an error is not retryable unless it says so. */
  lemma ErrorDecodes(payload: Dict)
    ensures var r := ErrorFromPayload(payload);
            && (r.Ok? <==>
                  && HasStr(payload, "task_id") && HasStr(payload, "error_code") && HasStr(payload, "message")
                  && ("retryable" in payload ==> payload["retryable"].Bool?))
            && (r.Ok? ==>
                  && payload["task_id"] == Str(r.value.taskId)
                  && payload["error_code"] == Str(r.value.errorCode)
                  && payload["message"] == Str(r.value.message)
                  && Bool(r.value.retryable) == (if "retryable" in payload then payload["retryable"] else Bool(false)))
  {
  }

  // Envelope

  datatype MessageType = TaskMessage | ResultMessage | ErrorMessage

  datatype Envelope = Envelope(
    messageId: string,
    messageType: MessageType,
    sender: string,
    correlationId: Option<string>,
    payload: Dict)
}
