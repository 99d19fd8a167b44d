/** The lessons ledger (adapters/lessons.py). The slug, vagueness and mechanism detectors
    are arbitrary functions; the store is one file per signature. */
module Lessons {
  import opened Lists
  import opened StringOrder
  import opened StableSort

  const LAYERS: seq<string> := ["Guides", "Sensors", "Tools", "Constraints", "Memory"]

  datatype Lesson = Lesson(
    signature: string,
    symptom: string,
    correction: string,
    mechanism: string,
    layer: string,
    rule: string,
    cause: string,
    recordedAt: string,
    recurrences: nat,
    agentId: Option<string>)

  datatype Rules = Rules(slug: string -> string, vague: string -> bool, mechanism: string -> Option<string>)

  /** The arguments of one `record` call, and the date it is made on. */
  datatype Report = Report(
    symptom: string,
    correction: string,
    rule: Option<string>,
    layer: string,
    cause: string,
    agentId: Option<string>,
    today: string)

  datatype Recorded = Accepted(lesson: Lesson) | Rejected

  predicate Acceptable(rules: Rules, r: Report) {
    !rules.vague(r.correction) && rules.mechanism(r.correction).Some?
  }

  function SignatureOf(rules: Rules, r: Report): string {
    rules.slug(r.symptom)
  }

  /** The lesson a first report creates. */
  function NewLesson(rules: Rules, r: Report): Lesson
    requires Acceptable(rules, r)
  {
    Lesson(
      SignatureOf(rules, r), r.symptom, r.correction, rules.mechanism(r.correction).value,
      if r.layer in LAYERS then r.layer else "Guides",
      if r.rule.Some? && r.rule.value != "" then r.rule.value else r.symptom,
      r.cause, r.today, 0, r.agentId)
  }

  /** What a lesson keeps of the report that created it, field by field. */
  predicate Reports(rules: Rules, l: Lesson, r: Report) {
    && l.signature == rules.slug(r.symptom)
    && l.symptom == r.symptom
    && l.correction == r.correction
    && rules.mechanism(r.correction) == Some(l.mechanism)
    && l.layer == (if r.layer in ["Guides", "Sensors", "Tools", "Constraints", "Memory"] then r.layer else "Guides")
    && l.rule == (if r.rule.None? || r.rule == Some("") then r.symptom else r.rule.value)
    && l.cause == r.cause
    && l.recordedAt == r.today
    && l.agentId == r.agentId
  }

  function FileName(signature: string): string {
    signature + ".json"
  }

  function Stem(fileName: string): string {
    if |fileName| < 5 then "" else fileName[..|fileName| - 5]
  }

  /** Signatures in the order of their sorted file names. */
  function Signatures(files: map<string, Lesson>): (r: seq<string>)
    ensures |r| == |Sorted(set s | s in files :: FileName(s))|
    ensures forall i :: 0 <= i < |r| ==> r[i] in files && FileName(r[i]) == Sorted(set s | s in files :: FileName(s))[i]
  {
    var names := Sorted(set s | s in files :: FileName(s));
    assert forall i :: 0 <= i < |names| ==> names[i] in names;
    assert forall s :: s in files ==> Stem(FileName(s)) == s;
    Map(names, (n: string) => Stem(n))
  }

  /** `LessonStore.all` */
  function AllLessons(files: map<string, Lesson>): seq<Lesson> {
    var sigs := Signatures(files);
    seq(|sigs|, i requires 0 <= i < |sigs| => files[sigs[i]])
  }

  /** Lessons attributed to an agent, summed up by their recurrences. */
  function SumRecurrences(ls: seq<Lesson>, agentId: string): nat {
    if ls == [] then 0
    else (if ls[0].agentId == Some(agentId) then ls[0].recurrences else 0) + SumRecurrences(ls[1..], agentId)
  }

  /** `LessonStore.recurrences_for` */
  function RecurrencesFor(files: map<string, Lesson>, agentId: string): nat {
    SumRecurrences(AllLessons(files), agentId)
  }

  class LessonStore {
    const rules: Rules
    var files: map<string, Lesson>

    constructor (rules: Rules)
      ensures files == map[] && this.rules == rules
    {
      this.rules := rules;
      files := map[];
    }

    method Record(r: Report) returns (answer: Recorded)
      modifies this
      ensures files == AfterRecord(rules, old(files), r)
      ensures answer.Accepted? <==> !rules.vague(r.correction) && rules.mechanism(r.correction).Some?
      ensures answer.Rejected? ==> files == old(files)
      ensures var s := rules.slug(r.symptom);
              answer.Accepted? ==>
                && files == old(files)[s := answer.lesson]
                && if s in old(files)
                   then answer.lesson == old(files)[s].(recurrences := old(files)[s].recurrences + 1)
                   else Reports(rules, answer.lesson, r) && answer.lesson.recurrences == 0
    {
      if rules.vague(r.correction) {
        return Rejected;
      }
      var mechanism := rules.mechanism(r.correction);
      if mechanism.None? {
        return Rejected;
      }
      var layer := r.layer;
      if layer !in LAYERS {
        layer := "Guides";
      }
      var signature := rules.slug(r.symptom);
      if signature in files {
        var existing := files[signature];
        existing := existing.(recurrences := existing.recurrences + 1);
        files := files[signature := existing];
        return Accepted(existing);
      }
      var rule := if r.rule.Some? && r.rule.value != "" then r.rule.value else r.symptom;
      var lesson := Lesson(signature, r.symptom, r.correction, mechanism.value, layer, rule, r.cause, r.today, 0, r.agentId);
      files := files[signature := lesson];
      return Accepted(lesson);
    }

    method RecurrencesOf(agentId: string) returns (n: nat)
      ensures n == RecurrencesFor(files, agentId)
    {
      n := RecurrencesFor(files, agentId);
    }
  }

  // The ledger as a function of the calls made

  function AfterRecord(rules: Rules, files: map<string, Lesson>, r: Report): map<string, Lesson> {
    if !Acceptable(rules, r) then files
    else
      var s := SignatureOf(rules, r);
      if s in files then files[s := files[s].(recurrences := files[s].recurrences + 1)]
      else files[s := NewLesson(rules, r)]
  }

  function AfterAll(rules: Rules, reports: seq<Report>): map<string, Lesson> {
    if reports == [] then map[]
    else AfterRecord(rules, AfterAll(rules, reports[..|reports| - 1]), reports[|reports| - 1])
  }

  /** The accepted calls with a given signature. */
  function Reported(rules: Rules, reports: seq<Report>, s: string): (r: seq<Report>)
    ensures forall x :: x in r ==> Acceptable(rules, x) && SignatureOf(rules, x) == s
  {
    if reports == [] then []
    else
      var last := reports[|reports| - 1];
      Reported(rules, reports[..|reports| - 1], s)
      + if Acceptable(rules, last) && SignatureOf(rules, last) == s then [last] else []
  }

  /** Those are the calls whose correction is not vague and has a mechanism, and whose symptom has
      the signature for its slug. */
  lemma {:induction false} ReportedAre(rules: Rules, reports: seq<Report>, s: string)
    ensures Reported(rules, reports, s)
            == Filter(reports, (r: Report) =>
                 !rules.vague(r.correction) && rules.mechanism(r.correction).Some? && rules.slug(r.symptom) == s)
  {
    var accepted := (r: Report) =>
      !rules.vague(r.correction) && rules.mechanism(r.correction).Some? && rules.slug(r.symptom) == s;
    if reports == [] {
    } else {
      var before, last := reports[..|reports| - 1], reports[|reports| - 1];
      ReportedAre(rules, before, s);
      FilterConcat(before, [last], accepted);
      FilterOne(last, accepted);
      assert reports == before + [last];
    }
  }

  lemma {:induction false} FiledLesson(rules: Rules, reports: seq<Report>, s: string)
    ensures var files, calls := AfterAll(rules, reports), Reported(rules, reports, s);
            && (s in files <==> calls != [])
            && (s in files ==> files[s] == NewLesson(rules, calls[0]).(recurrences := |calls| - 1))
  {
    if reports == [] {
    } else {
      FiledLesson(rules, reports[..|reports| - 1], s);
    }
  }

  lemma NewLessonReports(rules: Rules, r: Report, recurrences: nat)
    requires Acceptable(rules, r)
    ensures Reports(rules, NewLesson(rules, r).(recurrences := recurrences), r)
  {
  }

  /** The whole store in closed form: a signature has a file exactly when it was accepted
      once, and the file is the lesson of the first accepted call (its agent, layer and text
      included) with one recurrence for every further accepted call. */
  lemma StoreClosedForm(rules: Rules, reports: seq<Report>, s: string)
    ensures var files, calls := AfterAll(rules, reports), Reported(rules, reports, s);
            && (s in files <==> calls != [])
            && (s in files ==> Reports(rules, files[s], calls[0]) && files[s].recurrences == |calls| - 1)
  {
    FiledLesson(rules, reports, s);
    var calls := Reported(rules, reports, s);
    if calls != [] {
      NewLessonReports(rules, calls[0], |calls| - 1);
    }
  }

  // Conservation

  function AcceptedCalls(rules: Rules, reports: seq<Report>): nat {
    Count(reports, (r: Report) => Acceptable(rules, r))
  }

  ghost predicate Distinct(names: seq<string>) {
    forall i, j :: 0 <= i < j < |names| ==> names[i] != names[j]
  }

  /** Accepted calls over the signatures `sigs`. */
  function CallsOn(rules: Rules, reports: seq<Report>, sigs: seq<string>): nat {
    if sigs == [] then 0 else |Reported(rules, reports, sigs[0])| + CallsOn(rules, reports, sigs[1..])
  }

  lemma {:induction false} OneMoreCall(rules: Rules, before: seq<Report>, r: Report, sigs: seq<string>)
    requires Distinct(sigs)
    ensures CallsOn(rules, before + [r], sigs)
            == CallsOn(rules, before, sigs) + if Acceptable(rules, r) && SignatureOf(rules, r) in sigs then 1 else 0
  {
    if sigs == [] {
    } else {
      OneMoreCall(rules, before, r, sigs[1..]);
      assert (before + [r])[..|before|] == before;
      assert sigs == [sigs[0]] + sigs[1..];
      assert sigs[0] !in sigs[1..] by {
        forall i | 0 <= i < |sigs[1..]| ensures sigs[1..][i] != sigs[0] {
          assert sigs[1..][i] == sigs[i + 1];
        }
      }
    }
  }

  lemma {:induction false} NoCalls(rules: Rules, sigs: seq<string>)
    ensures CallsOn(rules, [], sigs) == 0
  {
    if sigs == [] {
    } else {
      NoCalls(rules, sigs[1..]);
    }
  }

  /** Counting calls by signature counts each accepted call on them once. */
  lemma {:induction false} CallsCounted(rules: Rules, reports: seq<Report>, sigs: seq<string>)
    requires Distinct(sigs)
    ensures CallsOn(rules, reports, sigs)
            == Count(reports, (r: Report) => Acceptable(rules, r) && SignatureOf(rules, r) in sigs)
  {
    if reports == [] {
      NoCalls(rules, sigs);
    } else {
      var before, r := reports[..|reports| - 1], reports[|reports| - 1];
      CallsCounted(rules, before, sigs);
      OneMoreCall(rules, before, r, sigs);
      assert reports == before + [r];
    }
  }

  function LessonsAt(files: map<string, Lesson>, sigs: seq<string>): seq<Lesson>
    requires forall s :: s in sigs ==> s in files
  {
    seq(|sigs|, i requires 0 <= i < |sigs| => files[sigs[i]])
  }

  /** Every signature appears in the listing exactly once, in file-name order. */
  lemma SignaturesListed(files: map<string, Lesson>)
    ensures Distinct(Signatures(files))
    ensures forall s :: s in Signatures(files) <==> s in files
    ensures forall i, j :: 0 <= i < j < |Signatures(files)| ==>
              Less(FileName(Signatures(files)[i]), FileName(Signatures(files)[j]))
  {
    var names, sigs := Sorted(set s | s in files :: FileName(s)), Signatures(files);
    forall i, j | 0 <= i < j < |sigs| ensures Less(FileName(sigs[i]), FileName(sigs[j])) && sigs[i] != sigs[j] {
      assert Less(names[i], names[j]);
      LessAsymmetric(names[i], names[j]);
    }
    forall s | s in files ensures s in sigs {
      assert FileName(s) in names;
      var i :| 0 <= i < |names| && names[i] == FileName(s);
      assert Stem(FileName(sigs[i])) == sigs[i] && Stem(FileName(s)) == s;
    }
  }

  /** Reports on file: one for each lesson and one for each recurrence. */
  function TotalReports(ls: seq<Lesson>): nat {
    if ls == [] then 0 else ls[0].recurrences + 1 + TotalReports(ls[1..])
  }

  function LessonsBy(ls: seq<Lesson>, agentId: string): nat {
    if ls == [] then 0 else (if ls[0].agentId == Some(agentId) then 1 else 0) + LessonsBy(ls[1..], agentId)
  }

  lemma {:induction false} TotalIsCalls(rules: Rules, reports: seq<Report>, sigs: seq<string>)
    requires forall s :: s in sigs ==> s in AfterAll(rules, reports)
    ensures TotalReports(LessonsAt(AfterAll(rules, reports), sigs)) == CallsOn(rules, reports, sigs)
  {
    if sigs == [] {
    } else {
      FiledLesson(rules, reports, sigs[0]);
      TotalIsCalls(rules, reports, sigs[1..]);
      assert LessonsAt(AfterAll(rules, reports), sigs)[1..] == LessonsAt(AfterAll(rules, reports), sigs[1..]);
    }
  }

  /** The signatures whose lesson is attributed to an agent. */
  function SignaturesBy(files: map<string, Lesson>, sigs: seq<string>, agentId: string): (r: seq<string>)
    ensures forall s :: s in r <==> s in sigs && s in files && files[s].agentId == Some(agentId)
    ensures Distinct(sigs) ==> Distinct(r)
  {
    if sigs == [] then []
    else
      var rest := SignaturesBy(files, sigs[1..], agentId);
      assert sigs == [sigs[0]] + sigs[1..];
      assert Distinct(sigs) ==> sigs[0] !in sigs[1..];
      if sigs[0] in files && files[sigs[0]].agentId == Some(agentId) then [sigs[0]] + rest else rest
  }

  lemma {:induction false} AgentCalls(rules: Rules, reports: seq<Report>, sigs: seq<string>, agentId: string)
    requires forall s :: s in sigs ==> s in AfterAll(rules, reports)
    ensures var files := AfterAll(rules, reports);
            SumRecurrences(LessonsAt(files, sigs), agentId) + LessonsBy(LessonsAt(files, sigs), agentId)
            == CallsOn(rules, reports, SignaturesBy(files, sigs, agentId))
  {
    if sigs == [] {
    } else {
      var files := AfterAll(rules, reports);
      FiledLesson(rules, reports, sigs[0]);
      AgentCalls(rules, reports, sigs[1..], agentId);
      assert LessonsAt(files, sigs)[1..] == LessonsAt(files, sigs[1..]);
    }
  }

  /** The accepted calls reporting a lesson that is attributed to `agentId`, that is, whose
      first accepted call named `agentId`. */
  function CallsAgainst(rules: Rules, reports: seq<Report>, files: map<string, Lesson>, agentId: string): nat {
    Count(reports, (r: Report) =>
      Acceptable(rules, r) && SignatureOf(rules, r) in files && files[SignatureOf(rules, r)].agentId == Some(agentId))
  }

  lemma AcceptedIsFiled(rules: Rules, reports: seq<Report>, r: Report)
    requires r in reports && Acceptable(rules, r)
    ensures SignatureOf(rules, r) in AfterAll(rules, reports)
  {
    ReportedContains(rules, reports, r);
    FiledLesson(rules, reports, SignatureOf(rules, r));
  }

  lemma {:induction false} ReportedContains(rules: Rules, reports: seq<Report>, r: Report)
    requires r in reports && Acceptable(rules, r)
    ensures r in Reported(rules, reports, SignatureOf(rules, r))
  {
    if r == reports[|reports| - 1] {
    } else {
      assert r in reports[..|reports| - 1];
      ReportedContains(rules, reports[..|reports| - 1], r);
    }
  }

  /** Conservation: nothing reported is lost or counted twice. The lessons and recurrences on
      file add up to the accepted calls, and an agent's recurrences are the accepted calls on
      lessons first attributed to it less one for each such lesson. */
  lemma LedgerConservation(rules: Rules, reports: seq<Report>, agentId: string)
    ensures var files := AfterAll(rules, reports);
            && TotalReports(AllLessons(files)) == AcceptedCalls(rules, reports)
            && RecurrencesFor(files, agentId)
               == CallsAgainst(rules, reports, files, agentId) - LessonsBy(AllLessons(files), agentId)
  {
    var files := AfterAll(rules, reports);
    var sigs := Signatures(files);
    SignaturesListed(files);
    assert AllLessons(files) == LessonsAt(files, sigs);
    TotalIsCalls(rules, reports, sigs);
    CallsCounted(rules, reports, sigs);
    forall r | r in reports && Acceptable(rules, r) ensures SignatureOf(rules, r) in files {
      AcceptedIsFiled(rules, reports, r);
    }
    CountSame(reports, (r: Report) => Acceptable(rules, r),
              (r: Report) => Acceptable(rules, r) && SignatureOf(rules, r) in sigs);
    var own := SignaturesBy(files, sigs, agentId);
    AgentCalls(rules, reports, sigs, agentId);
    CallsCounted(rules, reports, own);
    CountSame(reports, (r: Report) => Acceptable(rules, r) && SignatureOf(rules, r) in own,
              (r: Report) => Acceptable(rules, r) && SignatureOf(rules, r) in files
                             && files[SignatureOf(rules, r)].agentId == Some(agentId));
  }

  // Recurrences of an agent, from the calls alone

  /** The repeats of the calls with signature `s`, if the first of them names the agent. */
  function RepeatsOf(rules: Rules, reports: seq<Report>, agentId: string, s: string): nat {
    var calls := Reported(rules, reports, s);
    if calls != [] && calls[0].agentId == Some(agentId) then |calls| - 1 else 0
  }

  function SumRepeats(rules: Rules, reports: seq<Report>, agentId: string, sigs: seq<string>): nat {
    if sigs == [] then 0
    else RepeatsOf(rules, reports, agentId, sigs[0]) + SumRepeats(rules, reports, agentId, sigs[1..])
  }

  lemma {:induction false} SumRepeatsConcat(
    rules: Rules, reports: seq<Report>, agentId: string, xs: seq<string>, ys: seq<string>)
    ensures SumRepeats(rules, reports, agentId, xs + ys)
            == SumRepeats(rules, reports, agentId, xs) + SumRepeats(rules, reports, agentId, ys)
  {
    if xs == [] {
      assert xs + ys == ys;
    } else {
      assert (xs + ys)[1..] == xs[1..] + ys;
      SumRepeatsConcat(rules, reports, agentId, xs[1..], ys);
    }
  }

  lemma {:induction false} SumRepeatsOrder(
    rules: Rules, reports: seq<Report>, agentId: string, xs: seq<string>, ys: seq<string>)
    requires multiset(xs) == multiset(ys)
    ensures SumRepeats(rules, reports, agentId, xs) == SumRepeats(rules, reports, agentId, ys)
  {
    if xs == [] {
      assert |multiset(ys)| == 0;
    } else {
      var i := MatchHead(xs, ys);
      SumRepeatsOrder(rules, reports, agentId, xs[1..], Without(ys, i));
      assert ys == ys[..i] + ([ys[i]] + ys[i + 1..]);
      SumRepeatsConcat(rules, reports, agentId, ys[..i], [ys[i]] + ys[i + 1..]);
      SumRepeatsConcat(rules, reports, agentId, ys[..i], ys[i + 1..]);
      assert ([ys[i]] + ys[i + 1..])[1..] == ys[i + 1..];
    }
  }

  lemma {:induction false} DistinctMultiset(names: seq<string>, s: string)
    requires Distinct(names)
    ensures multiset(names)[s] == if s in names then 1 else 0
  {
    if names == [] {
    } else {
      var before, last := names[..|names| - 1], names[|names| - 1];
      assert names == before + [last];
      DistinctMultiset(before, s);
      assert last !in before;
    }
  }

  lemma {:induction false} SumOnFile(rules: Rules, reports: seq<Report>, agentId: string, sigs: seq<string>)
    requires forall s :: s in sigs ==> s in AfterAll(rules, reports)
    ensures SumRecurrences(LessonsAt(AfterAll(rules, reports), sigs), agentId) == SumRepeats(rules, reports, agentId, sigs)
  {
    if sigs == [] {
    } else {
      FiledLesson(rules, reports, sigs[0]);
      SumOnFile(rules, reports, agentId, sigs[1..]);
      assert LessonsAt(AfterAll(rules, reports), sigs)[1..] == LessonsAt(AfterAll(rules, reports), sigs[1..]);
    }
  }

  /** What `recurrences_for` says after any calls, without looking at the store: over the signatures
      accepted, in any order, the repeats of those first reported for the agent. */
  lemma RecurrencesAreRepeats(rules: Rules, reports: seq<Report>, agentId: string, sigs: seq<string>)
    requires Distinct(sigs) && forall s :: s in sigs <==> Reported(rules, reports, s) != []
    ensures RecurrencesFor(AfterAll(rules, reports), agentId) == SumRepeats(rules, reports, agentId, sigs)
  {
    var files := AfterAll(rules, reports);
    SignaturesListed(files);
    forall s ensures multiset(sigs)[s] == multiset(Signatures(files))[s] {
      FiledLesson(rules, reports, s);
      DistinctMultiset(sigs, s);
      DistinctMultiset(Signatures(files), s);
    }
    SumRepeatsOrder(rules, reports, agentId, Signatures(files), sigs);
    SumOnFile(rules, reports, agentId, Signatures(files));
    assert AllLessons(files) == LessonsAt(files, Signatures(files));
  }

  /** The smallest ledger with a recurrence: one report made twice counts once against its agent. */
  lemma ReportedTwice(rules: Rules, r: Report, agentId: string)
    requires !rules.vague(r.correction) && rules.mechanism(r.correction).Some? && r.agentId == Some(agentId)
    ensures RecurrencesFor(AfterAll(rules, [r, r]), agentId) == 1
  {
    var s := rules.slug(r.symptom);
    assert [r, r][..1] == [r] && [r][..0] == [];
    forall t ensures Reported(rules, [r, r], t) == if t == s then [r, r] else [] {
      assert Reported(rules, [r, r][..1], t) == Reported(rules, [r][..0], t) + if t == s then [r] else [];
    }
    RecurrencesAreRepeats(rules, [r, r], agentId, [s]);
    assert SumRepeats(rules, [r, r], agentId, [s])
           == RepeatsOf(rules, [r, r], agentId, s) + SumRepeats(rules, [r, r], agentId, [s][1..]);
  }
}
