/** The arbitration engine (arbitration.py): strongest evidence wins, history only breaks
    exact ties, the number of agreeing answers never counts. */
module Arbitration {
  import opened Lists
  import opened Protocol
  import opened Trust

  datatype Candidate = Candidate(agentId: string, result: Result)

  datatype Description = Description(agentId: string, output: Dict, evidenceStrength: real, trustScore: real)

  /** The explanation texts, by what they report. */
  datatype Reasoning =
    | OnlyOneResponded
    | SameOutput(count: nat)
    | TiedOnEvidence(count: nat, strength: real, winner: string, trust: real)
    | StrongestEvidence(count: nat, winner: string, strength: real)

  datatype Verdict = Verdict(
    taskId: string,
    winnerAgentId: string,
    winningResult: Result,
    agreement: bool,
    reasoning: Reasoning,
    candidates: seq<Description>)

  function Describe(weights: Weights, c: Candidate, history: seq<Evidence>): Description {
    Description(
      c.agentId,
      c.result.output,
      EvidenceStrength(c.result.evidence, weights),
      if history == [] then 0.0 else Evaluate(weights, c.agentId, history, 0).score)
  }

  function Descriptions(weights: Weights, cs: seq<Candidate>, history: seq<Evidence>): seq<Description> {
    Map(cs, (c: Candidate) => Describe(weights, c, history))
  }

  /** `x` has the greater (evidence strength, trust) pair. */
  predicate Beats(x: Description, y: Description) {
    || x.evidenceStrength > y.evidenceStrength
    || (x.evidenceStrength == y.evidenceStrength && x.trustScore > y.trustScore)
  }

  ghost predicate LeftmostBest(ds: seq<Description>, best: int) {
    && 0 <= best < |ds|
    && (forall i :: 0 <= i < best ==> Beats(ds[best], ds[i]))
    && (forall i :: best <= i < |ds| ==> !Beats(ds[i], ds[best]))
  }

  /** Python's `max`: the running best is replaced only by a strictly greater element. */
  function ArgMax(ds: seq<Description>): (best: nat)
    requires ds != []
    ensures LeftmostBest(ds, best)
  {
    var last := |ds| - 1;
    if last == 0 then 0
    else
      var best := ArgMax(ds[..last]);
      if Beats(ds[last], ds[best]) then last else best
  }

  predicate Concur(c: Candidate, d: Candidate) {
    SameDict(c.result.output, d.result.output)
  }

  predicate Agree(cs: seq<Candidate>) {
    forall i :: 0 <= i < |cs| ==> Concur(cs[i], cs[0])
  }

  function Winner(weights: Weights, cs: seq<Candidate>, history: seq<Evidence>): (w: nat)
    requires cs != []
    ensures w < |cs|
  {
    if Agree(cs) then 0 else ArgMax(Descriptions(weights, cs, history))
  }

  function TiedWith(ds: seq<Description>, strength: real): seq<Description> {
    Filter(ds, (d: Description) => d.evidenceStrength == strength)
  }

  function Arbitrate(weights: Weights, taskId: string, cs: seq<Candidate>, history: seq<Evidence>): Decoded<Verdict> {
    var ds := Descriptions(weights, cs, history);
    if cs == [] then
      Raised(ValueError("arbitrate() needs at least one candidate"))
    else if |cs| == 1 then
      Ok(Verdict(taskId, cs[0].agentId, cs[0].result, true, OnlyOneResponded, ds))
    else if Agree(cs) then
      Ok(Verdict(taskId, cs[0].agentId, cs[0].result, true, SameOutput(|cs|), ds))
    else
      var w := ArgMax(ds);
      var why :=
        if |TiedWith(ds, ds[w].evidenceStrength)| > 1
        then TiedOnEvidence(|cs|, ds[w].evidenceStrength, cs[w].agentId, ds[w].trustScore)
        else StrongestEvidence(|cs|, cs[w].agentId, ds[w].evidenceStrength);
      Ok(Verdict(taskId, cs[w].agentId, cs[w].result, false, why, ds))
  }

  // What a verdict says

  /** The strength of a candidate's own evidence. */
  function Strength(weights: Weights, c: Candidate): real {
    EvidenceStrength(c.result.evidence, weights)
  }

  /** A candidate's score on the history, without recurrences. */
  function PastScore(weights: Weights, c: Candidate, history: seq<Evidence>): real {
    Evaluate(weights, c.agentId, history, 0).score
  }

  /** `d` tells a candidate's id and output, the strength of its evidence and its past score. */
  predicate Describes(weights: Weights, history: seq<Evidence>, d: Description, c: Candidate) {
    d == Description(c.agentId, c.result.output, Strength(weights, c), PastScore(weights, c, history))
  }

  /** A candidate that stands before the winner, or else after it, gives way to it: its evidence is
      weaker, or as strong and its past score smaller, or for a later one at most the same. */
  predicate GivesWay(weights: Weights, history: seq<Evidence>, other: Candidate, winner: Candidate, before: bool) {
    || Strength(weights, other) < Strength(weights, winner)
    || (&& Strength(weights, other) == Strength(weights, winner)
        && if before then PastScore(weights, other, history) < PastScore(weights, winner, history)
           else PastScore(weights, other, history) <= PastScore(weights, winner, history))
  }

  lemma LeftmostBestUnique(ds: seq<Description>, i: int, j: int)
    requires LeftmostBest(ds, i) && LeftmostBest(ds, j)
    ensures i == j
  {
    var iBeatsJ, jBeatsI := Beats(ds[i], ds[j]), Beats(ds[j], ds[i]);
  }

  /** Arbitration raises exactly on an empty pool. Otherwise it crowns one candidate: the
      first when all outputs agree, else the leftmost maximum of (strength, trust); and it
      describes every candidate in order, by the strength of its evidence and its score on the
      history. */
  lemma VerdictCharacterised(weights: Weights, taskId: string, cs: seq<Candidate>, history: seq<Evidence>)
    ensures Arbitrate(weights, taskId, cs, history).Raised? <==> cs == []
    ensures cs != [] ==>
              var v, w := Arbitrate(weights, taskId, cs, history).value, Winner(weights, cs, history);
              && v.taskId == taskId
              && v.winnerAgentId == cs[w].agentId
              && v.winningResult == cs[w].result
              && (v.agreement <==> SameOutputs(cs))
              && (v.agreement ==> w == 0)
              && (!v.agreement ==> LeftmostBest(v.candidates, w))
              && |v.candidates| == |cs|
              && (forall i :: 0 <= i < |cs| ==> Describes(weights, history, v.candidates[i], cs[i]))
  {
    if cs != [] {
      AgreeOnOutputs(cs);
      forall i | 0 <= i < |cs| ensures Describes(weights, history, Describe(weights, cs[i], history), cs[i]) {
        DescribeScores(weights, cs[i], history);
      }
    }
  }

  /** All outputs equal the first. */
  predicate SameOutputs(cs: seq<Candidate>)
    requires cs != []
  {
    forall c :: c in cs ==> SameDict(c.result.output, cs[0].result.output)
  }

  lemma AgreeOnOutputs(cs: seq<Candidate>)
    requires cs != []
    ensures Agree(cs) <==> SameOutputs(cs)
  {
    forall i | 0 <= i < |cs| ensures Concur(cs[i], cs[0]) <==> SameDict(cs[i].result.output, cs[0].result.output) {
    }
  }

  lemma DescribeScores(weights: Weights, c: Candidate, history: seq<Evidence>)
    ensures Describes(weights, history, Describe(weights, c, history), c)
  {
  }

  /** Who is crowned in a disagreement: the candidate with the strongest evidence; among those that
      share that strength one with the greatest score on the history; and among those that share
      this too the first. */
  lemma TrustBreaksTies(weights: Weights, taskId: string, cs: seq<Candidate>, history: seq<Evidence>)
    returns (w: nat)
    requires cs != [] && exists c :: c in cs && !SameDict(c.result.output, cs[0].result.output)
    ensures w < |cs| && Arbitrate(weights, taskId, cs, history).Ok?
    ensures var v := Arbitrate(weights, taskId, cs, history).value;
            !v.agreement && v.winnerAgentId == cs[w].agentId && v.winningResult == cs[w].result
    ensures forall i :: 0 <= i < |cs| ==> GivesWay(weights, history, cs[i], cs[w], i < w)
  {
    VerdictCharacterised(weights, taskId, cs, history);
    w := Winner(weights, cs, history);
    var v := Arbitrate(weights, taskId, cs, history).value;
    assert !Agree(cs);
    forall i | 0 <= i < |cs| ensures GivesWay(weights, history, cs[i], cs[w], i < w) {
      assert Describes(weights, history, v.candidates[i], cs[i]);
      assert Describes(weights, history, v.candidates[w], cs[w]);
    }
  }

  /** History does decide: two agents with different answers and no evidence, of which the one the
      history knows an entry of full weight and confidence by is crowned. */
  lemma HistoryMovesWin(weights: Weights, e: Evidence, x: Dict, y: Dict)
    requires !SameDict(y, x) && weights == map[] && e.transformation == ExtractedVerbatim && e.confidence == 1.0
    ensures var cs := [Candidate("agent:a", Result("t", Success, x, None, [])),
                       Candidate("agent:b", Result("t", Success, y, None, []))];
            && Arbitrate(weights, "t", cs, [e.(agentId := "agent:a")]).value.winnerAgentId == "agent:a"
            && Arbitrate(weights, "t", cs, [e.(agentId := "agent:b")]).value.winnerAgentId == "agent:b"
  {
    var cs := [Candidate("agent:a", Result("t", Success, x, None, [])),
               Candidate("agent:b", Result("t", Success, y, None, []))];
    assert cs[0].result.output == x && cs[1].result.output == y;
    assert Strength(weights, cs[0]) == 0.0 == Strength(weights, cs[1]);
    LoneScores(e.(agentId := "agent:a"), "agent:b");
    LoneScores(e.(agentId := "agent:b"), "agent:a");
    TrustedWins(weights, cs, [e.(agentId := "agent:a")], 0, 1);
    TrustedWins(weights, cs, [e.(agentId := "agent:b")], 1, 0);
  }

  lemma LoneScores(e: Evidence, other: string)
    requires e.transformation == ExtractedVerbatim && e.confidence == 1.0 && other != e.agentId
    ensures Evaluate(map[], e.agentId, [e], 0).score == 1.0 && Evaluate(map[], other, [e], 0).score == 0.0
  {
    assert [] + [e] + [] == [e];
    FullEntryScore(e, [], [], 0);
    ScoreInUnit(map[], other, [e], 0);
  }

  lemma TrustedWins(weights: Weights, cs: seq<Candidate>, history: seq<Evidence>, i: nat, j: nat)
    requires |cs| == 2 && i < 2 && j < 2 && i != j && Strength(weights, cs[i]) == Strength(weights, cs[j])
    requires !SameDict(cs[1].result.output, cs[0].result.output)
    requires PastScore(weights, cs[i], history) > PastScore(weights, cs[j], history)
    ensures Arbitrate(weights, "t", cs, history).value.winnerAgentId == cs[i].agentId
  {
    assert cs[1] in cs;
    var w := TrustBreaksTies(weights, "t", cs, history);
    TrustedOfTwo(weights, cs, history, i, j, w);
  }

  lemma TrustedOfTwo(weights: Weights, cs: seq<Candidate>, history: seq<Evidence>, i: nat, j: nat, w: nat)
    requires |cs| == 2 && i < 2 && j < 2 && i != j && Strength(weights, cs[i]) == Strength(weights, cs[j])
    requires PastScore(weights, cs[i], history) > PastScore(weights, cs[j], history)
    requires w < 2 && GivesWay(weights, history, cs[i], cs[w], i < w)
    ensures w == i
  {
  }

  lemma OthersKept<T>(xs: seq<T>, w: nat, keep: T -> bool)
    requires w < |xs| && keep(xs[w])
    ensures |Filter(xs, keep)| > 1 <==> exists i :: 0 <= i < |xs| && i != w && keep(xs[i])
  {
    var before, after := xs[..w], xs[w + 1..];
    assert xs == before + ([xs[w]] + after);
    FilterConcat(before, [xs[w]] + after, keep);
    assert ([xs[w]] + after)[1..] == after;
    NothingKept(before, keep);
    NothingKept(after, keep);
    assert forall i :: 0 <= i < |after| ==> after[i] == xs[w + 1 + i];
    assert forall i :: w < i < |xs| ==> xs[i] == after[i - w - 1];
    assert forall i :: 0 <= i < w ==> xs[i] == before[i];
  }

  /** What a verdict gives as its reason: a lone answer; the number of agreeing answers; or for a
      disagreement a tie exactly if another candidate has the winner's evidence strength. */
  lemma ReasoningCharacterised(weights: Weights, taskId: string, cs: seq<Candidate>, history: seq<Evidence>)
    requires cs != []
    ensures var v, w := Arbitrate(weights, taskId, cs, history).value, Winner(weights, cs, history);
            && (v.reasoning == OnlyOneResponded <==> |cs| == 1)
            && (v.reasoning.SameOutput? <==> v.agreement && |cs| > 1)
            && (v.reasoning.SameOutput? ==> v.reasoning.count == |cs|)
            && (v.reasoning.TiedOnEvidence?
                <==> !v.agreement && exists i :: 0 <= i < |cs| && i != w && SameStrength(v.candidates, i, w))
            && (!v.agreement ==>
                  && v.reasoning.count == |cs|
                  && v.reasoning.winner == v.winnerAgentId
                  && v.reasoning.strength == v.candidates[w].evidenceStrength
                  && (v.reasoning.TiedOnEvidence? ==> v.reasoning.trust == v.candidates[w].trustScore))
  {
    if !Agree(cs) {
      var ds, w := Descriptions(weights, cs, history), Winner(weights, cs, history);
      OthersKept(ds, w, (d: Description) => d.evidenceStrength == ds[w].evidenceStrength);
      assert forall i :: 0 <= i < |cs| ==>
               (SameStrength(ds, i, w) <==> ds[i].evidenceStrength == ds[w].evidenceStrength);
    }
  }

  predicate SameStrength(ds: seq<Description>, i: int, j: int) {
    0 <= i < |ds| && 0 <= j < |ds| && ds[i].evidenceStrength == ds[j].evidenceStrength
  }

  /** Two members with different outputs are enough for a disagreement. */
  lemma DisagreementPersists(cs: seq<Candidate>, ds: seq<Candidate>)
    requires !Agree(cs) && forall c :: c in cs ==> c in ds
    ensures !Agree(ds)
  {
    var i :| 0 <= i < |cs| && !Concur(cs[i], cs[0]);
    assert cs[i] in ds && cs[0] in ds;
  }

  /** Where position `w` ends up when position `i` is deleted. */
  function AfterDeletion(w: nat, i: nat): int {
    if w > i then w - 1 else w
  }

  lemma DescriptionsWithout(weights: Weights, cs: seq<Candidate>, history: seq<Evidence>, i: nat)
    requires i < |cs|
    ensures Descriptions(weights, Without(cs, i), history) == Without(Descriptions(weights, cs, history), i)
  {
  }

  lemma BestSurvivesDeletion(ds: seq<Description>, w: nat, i: nat)
    requires LeftmostBest(ds, w) && i < |ds| && i != w
    ensures LeftmostBest(Without(ds, i), AfterDeletion(w, i))
  {
    var rest := Without(ds, i);
    forall j | 0 <= j < |rest| ensures rest[j] == ds[if j < i then j else j + 1] {
    }
  }

  /** Deleting any loser, from any pool, never changes the winning output. */
  lemma LosersDoNotMatter(weights: Weights, cs: seq<Candidate>, history: seq<Evidence>, i: nat)
    requires |cs| > 1 && i < |cs| && i != Winner(weights, cs, history)
    ensures var rest := Without(cs, i);
            Concur(rest[Winner(weights, rest, history)], cs[Winner(weights, cs, history)])
  {
    var w, rest := Winner(weights, cs, history), Without(cs, i);
    if Agree(rest) {
      LoserInAgreement(cs, w, i);
    } else {
      LoserInDisagreement(weights, cs, history, i);
    }
    WinnerMoves(cs, w, i);
  }

  /** The winning candidate stays too, unless the deletion turns a disagreement into an
      agreement: then the first of the agreeing answers is crowned. */
  lemma LosersDoNotUnseat(weights: Weights, cs: seq<Candidate>, history: seq<Evidence>, i: nat)
    requires |cs| > 1 && i < |cs| && i != Winner(weights, cs, history)
    ensures var w, rest := Winner(weights, cs, history), Without(cs, i);
            Winner(weights, rest, history) == AfterDeletion(w, i)
            <==> !Agree(rest) || Agree(cs) || AfterDeletion(w, i) == 0
  {
    if !Agree(Without(cs, i)) {
      LoserInDisagreement(weights, cs, history, i);
    }
  }

  /** It can happen: of three answers the first and the third agree, the third alone has
      evidence. It wins; without the second answer the first wins. */
  lemma LoserUnseatsWinner(weights: Weights, e: Evidence, x: Dict, y: Dict)
    requires !SameDict(x, y) && weights == map[] && e.transformation == ExtractedVerbatim && e.confidence == 1.0
    ensures var cs := [Candidate("agent:a", Result("t", Success, x, None, [])),
                       Candidate("agent:b", Result("t", Success, y, None, [])),
                       Candidate("agent:c", Result("t", Success, x, None, [e]))];
            && Winner(weights, cs, []) == 2
            && Winner(weights, Without(cs, 1), []) == 0
  {
    var a := Candidate("agent:a", Result("t", Success, x, None, []));
    var b := Candidate("agent:b", Result("t", Success, y, None, []));
    var c := Candidate("agent:c", Result("t", Success, x, None, [e]));
    var cs := [a, b, c];
    assert Without(cs, 1) == [a, c];
    assert !Concur(cs[1], cs[0]);
    StrengthOfOne(weights, e);
    var ds := Descriptions(weights, cs, []);
    assert Beats(ds[2], ds[0]) && Beats(ds[2], ds[1]);
    LeftmostBestUnique(ds, ArgMax(ds), 2);
  }

  lemma StrengthOfOne(weights: Weights, e: Evidence)
    requires weights == map[] && e.transformation == ExtractedVerbatim && e.confidence == 1.0
    ensures EvidenceStrength([e], weights) == 1.0
  {
    assert WeightedSum([e], weights) == Weighted(e, weights) + WeightedSum([e][1..], weights);
    assert [e][1..] == [] && Weighted(e, weights) == 1.0;
  }

  lemma WinnerMoves(cs: seq<Candidate>, w: nat, i: nat)
    requires w < |cs| && i < |cs| && i != w
    ensures Without(cs, i)[AfterDeletion(w, i)] == cs[w]
  {
  }

  lemma LoserInAgreement(cs: seq<Candidate>, w: nat, i: nat)
    requires w < |cs| && i < |cs| && i != w && Agree(Without(cs, i))
    ensures Concur(Without(cs, i)[0], cs[w])
  {
    var rest := Without(cs, i);
    WinnerMoves(cs, w, i);
    assert Concur(rest[AfterDeletion(w, i)], rest[0]);
  }

  lemma LoserInDisagreement(weights: Weights, cs: seq<Candidate>, history: seq<Evidence>, i: nat)
    requires |cs| > 1 && i < |cs| && i != Winner(weights, cs, history) && !Agree(Without(cs, i))
    ensures Winner(weights, Without(cs, i), history) == AfterDeletion(Winner(weights, cs, history), i)
  {
    var w, rest := Winner(weights, cs, history), Without(cs, i);
    assert forall c :: c in rest ==> c in cs;
    DisagreementPersists(rest, cs);
    DescriptionsWithout(weights, cs, history, i);
    BestSurvivesDeletion(Descriptions(weights, cs, history), w, i);
    LeftmostBestUnique(Descriptions(weights, rest, history), Winner(weights, rest, history), AfterDeletion(w, i));
  }

  /** `xs` with `x` put before position `p` */
  function InsertedAt<T>(xs: seq<T>, p: nat, x: T): seq<T>
    requires p <= |xs|
  {
    xs[..p] + [x] + xs[p..]
  }

  /** Where the best stands once `d` is inserted at `p`. */
  function BestAfterInsertion(ds: seq<Description>, w: nat, p: nat, d: Description): nat
    requires w < |ds|
  {
    if Beats(d, ds[w]) || (p <= w && !Beats(ds[w], d)) then p
    else if w < p then w
    else w + 1
  }

  lemma BestWithNewcomer(ds: seq<Description>, w: nat, p: nat, d: Description)
    requires LeftmostBest(ds, w) && p <= |ds|
    ensures LeftmostBest(InsertedAt(ds, p, d), BestAfterInsertion(ds, w, p, d))
  {
    var es, best := InsertedAt(ds, p, d), BestAfterInsertion(ds, w, p, d);
    forall i | 0 <= i < |es| && i != p ensures es[i] == ds[if i < p then i else i - 1] {
    }
    forall i | 0 <= i < best ensures Beats(es[best], es[i]) {
    }
  }

  lemma MapInserted<S, T>(xs: seq<S>, p: nat, x: S, f: S -> T)
    requires p <= |xs|
    ensures Map(InsertedAt(xs, p, x), f) == InsertedAt(Map(xs, f), p, f(x))
  {
    var mapped, inserted := Map(InsertedAt(xs, p, x), f), InsertedAt(Map(xs, f), p, f(x));
    forall i | 0 <= i < |xs| + 1 ensures mapped[i] == inserted[i] {
      assert InsertedAt(xs, p, x)[i] == if i < p then xs[i] else if i == p then x else xs[i - 1];
    }
  }

  lemma DescriptionsInserted(weights: Weights, cs: seq<Candidate>, history: seq<Evidence>, p: nat, c: Candidate)
    requires p <= |cs|
    ensures Descriptions(weights, InsertedAt(cs, p, c), history)
            == InsertedAt(Descriptions(weights, cs, history), p, Describe(weights, c, history))
  {
    MapInserted(cs, p, c, (x: Candidate) => Describe(weights, x, history));
  }

  /** A newcomer at any position of a disagreeing pool wins exactly when its key is greater
      than the old winner's, or equal to it and the newcomer stands earlier. Otherwise the
      old winner keeps the verdict. */
  lemma NewcomerWinsIff(weights: Weights, cs: seq<Candidate>, history: seq<Evidence>, p: nat, c: Candidate)
    requires cs != [] && !Agree(cs) && p <= |cs|
    ensures var w, w' := Winner(weights, cs, history), Winner(weights, InsertedAt(cs, p, c), history);
            var d, best := Describe(weights, c, history), Describe(weights, cs[w], history);
            if Beats(d, best) || (p <= w && !Beats(best, d))
            then w' == p
            else w' == if w < p then w else w + 1
  {
    var more := InsertedAt(cs, p, c);
    InsertionKeeps(cs, p, c);
    DisagreementPersists(cs, more);
    var ds := Descriptions(weights, cs, history);
    DescriptionsInserted(weights, cs, history, p, c);
    BestWithNewcomer(ds, Winner(weights, cs, history), p, Describe(weights, c, history));
    LeftmostBestUnique(
      Descriptions(weights, more, history), Winner(weights, more, history),
      BestAfterInsertion(ds, Winner(weights, cs, history), p, Describe(weights, c, history)));
  }

  lemma InsertionKeeps<T>(xs: seq<T>, p: nat, x: T)
    requires p <= |xs|
    ensures forall y :: y in xs ==> y in InsertedAt(xs, p, x)
  {
    assert xs == xs[..p] + xs[p..];
  }

  lemma BestSurvivesAppend(ds: seq<Description>, w: nat, es: seq<Description>)
    requires LeftmostBest(ds, w) && forall i :: 0 <= i < |es| ==> !Beats(es[i], ds[w])
    ensures LeftmostBest(ds + es, w)
  {
  }

  /** Appending any number of answers with keys no greater than the winner's to a
      disagreeing pool changes nothing. */
  lemma WeakerAnswersDoNotMatter(
    weights: Weights, cs: seq<Candidate>, extra: seq<Candidate>, history: seq<Evidence>)
    requires cs != [] && !Agree(cs)
    requires forall c :: c in extra ==>
               !Beats(Describe(weights, c, history), Describe(weights, cs[Winner(weights, cs, history)], history))
    ensures Winner(weights, cs + extra, history) == Winner(weights, cs, history)
  {
    var ds, es := Descriptions(weights, cs, history), Descriptions(weights, extra, history);
    DisagreementPersists(cs, cs + extra);
    MapConcat(cs, extra, (c: Candidate) => Describe(weights, c, history));
    BestSurvivesAppend(ds, Winner(weights, cs, history), es);
    LeftmostBestUnique(ds + es, Winner(weights, cs + extra, history), Winner(weights, cs, history));
  }

  /** No voting: repeating answers already in a disagreeing pool, however often, never
      changes the winner. */
  lemma RepetitionCarriesNoWeight(
    weights: Weights, cs: seq<Candidate>, repeats: seq<Candidate>, history: seq<Evidence>)
    requires cs != [] && !Agree(cs) && forall c :: c in repeats ==> c in cs
    ensures Winner(weights, cs + repeats, history) == Winner(weights, cs, history)
  {
    var ds, w := Descriptions(weights, cs, history), Winner(weights, cs, history);
    forall c | c in repeats
      ensures !Beats(Describe(weights, c, history), Describe(weights, cs[w], history))
    {
      var i :| 0 <= i < |cs| && cs[i] == c;
      assert ds[i] == Describe(weights, c, history);
      assert i < w ==> Beats(ds[w], ds[i]);
    }
    WeakerAnswersDoNotMatter(weights, cs, repeats, history);
  }

  /** History is a tie-break only: whatever two histories say, both winners of one pool
      carry the same, maximal, evidence strength. */
  lemma HistoryOnlyBreaksTies(weights: Weights, cs: seq<Candidate>, h1: seq<Evidence>, h2: seq<Evidence>)
    requires cs != [] && !Agree(cs)
    ensures var s1 := EvidenceStrength(cs[Winner(weights, cs, h1)].result.evidence, weights);
            && s1 == EvidenceStrength(cs[Winner(weights, cs, h2)].result.evidence, weights)
            && forall c :: c in cs ==> EvidenceStrength(c.result.evidence, weights) <= s1
  {
    StrongestEvidenceWins(weights, cs, h1);
    StrongestEvidenceWins(weights, cs, h2);
  }

  lemma StrongestEvidenceWins(weights: Weights, cs: seq<Candidate>, history: seq<Evidence>)
    requires cs != [] && !Agree(cs)
    ensures forall c :: c in cs ==>
              EvidenceStrength(c.result.evidence, weights)
              <= EvidenceStrength(cs[Winner(weights, cs, history)].result.evidence, weights)
  {
    var ds, w := Descriptions(weights, cs, history), Winner(weights, cs, history);
    forall c | c in cs
      ensures EvidenceStrength(c.result.evidence, weights) <= EvidenceStrength(cs[w].result.evidence, weights)
    {
      var i :| 0 <= i < |cs| && cs[i] == c;
      assert ds[i].evidenceStrength <= ds[w].evidenceStrength by {
        assert i < w ==> Beats(ds[w], ds[i]);
      }
    }
  }
}
