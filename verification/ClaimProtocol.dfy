/** The claim / complete / release protocol of the message bus as a transition system: any
    number of workers, each file operation one atomic step, any interleaving. A worker that
    halts simply takes no further step. A worker handles one message at a time and calls
    `complete` or `release` only on the message its own `claim` returned, once. */
module ClaimProtocol {
  import opened Lists
  import opened StringOrder
  import opened Filesystem

  // Steps

  /** Where a worker stands: the file operation it performs next. */
  datatype Pc =
    | Idle
    | CheckDone(slot: Slot, agentId: string)
    | ReadInbox(slot: Slot, agentId: string)
    | CreateClaim(slot: Slot, agentId: string, envelope: Envelope)
    | Recheck(slot: Slot, agentId: string, envelope: Envelope)
    | Rollback(slot: Slot, agentId: string)
    | Holding(slot: Slot, envelope: Envelope)
    | CompleteCheck(slot: Slot)
    | CompleteMark(slot: Slot)
    | CompleteUnlink(slot: Slot)
    | ReleaseCheck(slot: Slot)
    | ReleaseUnlink(slot: Slot)

  datatype State = State(fs: Files, pcs: map<nat, Pc>)

  const INITIAL := State(Files(map[], map[], {}), map[])

  function PcOf(s: State, p: nat): Pc {
    if p in s.pcs then s.pcs[p] else Idle
  }

  datatype Action =
    | Send(envelope: Envelope)
    | Claim(p: nat, agentId: string, id: string)
    | Complete(p: nat)
    | Release(p: nat)
    | Go(p: nat)

  /** What a step lets the caller of an operation see. */
  datatype Event =
    | Silent
    | Sent(envelope: Envelope)
    | SendFailed(envelope: Envelope, why: Failure)
    | ClaimReturned(p: nat, slot: Slot, envelope: Envelope)
    | ClaimFailed(p: nat, agentId: string, id: string, why: Failure)
    | CompleteReturned(p: nat, slot: Slot)
    | CompleteFailed(p: nat, slot: Slot, why: Failure)
    | ReleaseReturned(p: nat, slot: Slot)
    | ReleaseFailed(p: nat, slot: Slot, why: Failure)

  function Move(s: State, p: nat, pc: Pc): State {
    s.(pcs := s.pcs[p := pc])
  }

  /** The next file operation of worker `p`. */
  function Operate(s: State, p: nat): (State, Event) {
    var fs := s.fs;
    match PcOf(s, p)
    case Idle => (s, Silent)
    case Holding(_, _) => (s, Silent)
    case CheckDone(slot, agentId) =>
      if slot in fs.done then (Move(s, p, Idle), ClaimFailed(p, agentId, slot.id, AlreadyProcessed))
      else (Move(s, p, ReadInbox(slot, agentId)), Silent)
    case ReadInbox(slot, agentId) =>
      if slot !in fs.inbox then (Move(s, p, Idle), ClaimFailed(p, agentId, slot.id, NoSuchMessage))
      else if fs.inbox[slot].receiver != agentId then (Move(s, p, Idle), ClaimFailed(p, agentId, slot.id, NotAddressed))
      else (Move(s, p, CreateClaim(slot, agentId, fs.inbox[slot])), Silent)
    case CreateClaim(slot, agentId, envelope) =>
      if slot in fs.claims then (Move(s, p, Idle), ClaimFailed(p, agentId, slot.id, AlreadyClaimed))
      else (Move(s.(fs := fs.(claims := fs.claims[slot := p])), p, Recheck(slot, agentId, envelope)), Silent)
    case Recheck(slot, agentId, envelope) =>
      if slot in fs.done then (Move(s, p, Rollback(slot, agentId)), Silent)
      else (Move(s, p, Holding(slot, envelope)), ClaimReturned(p, slot, envelope))
    case Rollback(slot, agentId) =>
      (Move(s.(fs := fs.(claims := fs.claims - {slot})), p, Idle), ClaimFailed(p, agentId, slot.id, ProcessedConcurrently))
    case CompleteCheck(slot) =>
      if slot !in fs.claims then (Move(s, p, Idle), CompleteFailed(p, slot, NoClaimHeld))
      else (Move(s, p, CompleteMark(slot)), Silent)
    case CompleteMark(slot) =>
      if slot in fs.done then (Move(s, p, Idle), CompleteFailed(p, slot, FileExists))
      else (Move(s.(fs := fs.(done := fs.done + {slot})), p, CompleteUnlink(slot)), Silent)
    case CompleteUnlink(slot) =>
      if slot !in fs.claims then (Move(s, p, Idle), CompleteFailed(p, slot, FileMissing))
      else (Move(s.(fs := fs.(claims := fs.claims - {slot})), p, Idle), CompleteReturned(p, slot))
    case ReleaseCheck(slot) =>
      if slot !in fs.claims then (Move(s, p, Idle), ReleaseFailed(p, slot, NoClaimHeld))
      else (Move(s, p, ReleaseUnlink(slot)), Silent)
    case ReleaseUnlink(slot) =>
      if slot !in fs.claims then (Move(s, p, Idle), ReleaseFailed(p, slot, FileMissing))
      else (Move(s.(fs := fs.(claims := fs.claims - {slot})), p, Idle), ReleaseReturned(p, slot))
  }

  /** One step. An action that is not enabled leaves the state unchanged; message ids come
      from a generator of valid ids. */
  function Step(s: State, a: Action): (State, Event) {
    match a
    case Send(envelope) =>
      if !ValidMessageId(envelope.messageId) then (s, Silent)
      else
        var (fs, r) := SendSpec(s.fs, envelope);
        (s.(fs := fs), if r.Returned? then Sent(envelope) else SendFailed(envelope, r.why))
    case Claim(p, agentId, id) =>
      if PcOf(s, p) != Idle then (s, Silent)
      else
        var place := SlotOf(agentId, id);
        if place.Failed? then (s, ClaimFailed(p, agentId, id, place.why))
        else (Move(s, p, CheckDone(place.value, agentId)), Silent)
    case Complete(p) =>
      if PcOf(s, p).Holding? then (Move(s, p, CompleteCheck(PcOf(s, p).slot)), Silent) else (s, Silent)
    case Release(p) =>
      if PcOf(s, p).Holding? then (Move(s, p, ReleaseCheck(PcOf(s, p).slot)), Silent) else (s, Silent)
    case Go(p) => Operate(s, p)
  }

  // The atomic machine: one status per message

  datatype Status = Available | Held(p: nat) | Done

  type Board = map<Slot, Status>

  function StatusOf(b: Board, slot: Slot): Status {
    if slot in b then b[slot] else Available
  }

  datatype Label =
    | Stutter
    | Take(p: nat, slot: Slot)
    | Finish(p: nat, slot: Slot)
    | Drop(p: nat, slot: Slot)

  /** `None` when the machine does not allow the move. */
  function Apply(b: Board, l: Label): Option<Board> {
    match l
    case Stutter => Some(b)
    case Take(p, slot) => if StatusOf(b, slot) == Available then Some(b[slot := Held(p)]) else None
    case Finish(p, slot) => if StatusOf(b, slot) == Held(p) then Some(b[slot := Done]) else None
    case Drop(p, slot) => if StatusOf(b, slot) == Held(p) then Some(b[slot := Available]) else None
  }

  function Replay(labels: seq<Label>): Option<Board> {
    if labels == [] then Some(map[])
    else
      var b := Replay(labels[..|labels| - 1]);
      if b.None? then None else Apply(b.value, labels[|labels| - 1])
  }

  function One(b: bool): nat { if b then 1 else 0 }

  /** Whose steps and calls to count: one worker's, or everybody's. */
  type Who = Option<nat>

  predicate By(who: Who, p: nat) { who == None || who == Some(p) }

  predicate IsTake(l: Label, who: Who, slot: Slot) { l.Take? && l.slot == slot && By(who, l.p) }

  predicate IsFinish(l: Label, who: Who, slot: Slot) { l.Finish? && l.slot == slot && By(who, l.p) }

  predicate IsDrop(l: Label, who: Who, slot: Slot) { l.Drop? && l.slot == slot && By(who, l.p) }

  function Takes(labels: seq<Label>, who: Who, slot: Slot): nat { Count(labels, l => IsTake(l, who, slot)) }

  function Finishes(labels: seq<Label>, who: Who, slot: Slot): nat { Count(labels, l => IsFinish(l, who, slot)) }

  function Drops(labels: seq<Label>, who: Who, slot: Slot): nat { Count(labels, l => IsDrop(l, who, slot)) }

  /** The atomic machine finishes a message at most once, exactly when it is Done, and every
      take is dropped, finished or still held: holds never overlap and none follows Done. */
  lemma {:induction false} AtomicMachineSafety(labels: seq<Label>, slot: Slot)
    requires Replay(labels).Some?
    ensures var status := StatusOf(Replay(labels).value, slot);
            && Finishes(labels, None, slot) == One(status == Done)
            && Takes(labels, None, slot) == Drops(labels, None, slot) + Finishes(labels, None, slot) + One(status.Held?)
  {
    if labels == [] {
    } else {
      AtomicMachineSafety(labels[..|labels| - 1], slot);
    }
  }

  // Refinement

  /** A done marker decides; otherwise the claim file names the holder. A claim file created
      after the done marker is invisible here. */
  function Abstract(fs: Files, slot: Slot): Status {
    if slot in fs.done then Done
    else if slot in fs.claims then Held(fs.claims[slot])
    else Available
  }

  /** Where operations take effect: a claim at the exclusive create, a completion at the
      creation of the done marker, a release at the unlink. */
  function LabelOf(s: State, a: Action): Label {
    if !a.Go? then Stutter
    else
      match PcOf(s, a.p)
      case CreateClaim(slot, _, _) =>
        if slot !in s.fs.claims && slot !in s.fs.done then Take(a.p, slot) else Stutter
      case CompleteMark(slot) => if slot !in s.fs.done then Finish(a.p, slot) else Stutter
      case ReleaseUnlink(slot) => if slot in s.fs.claims then Drop(a.p, slot) else Stutter
      case _ => Stutter
  }

  /** The message whose claim file the worker wrote, if any. */
  function Owned(pc: Pc): Option<Slot> {
    match pc
    case Idle => None
    case CheckDone(_, _) => None
    case ReadInbox(_, _) => None
    case CreateClaim(_, _, _) => None
    case _ => Some(pc.slot)
  }

  /** What a worker may rely on at each point. */
  predicate PcHolds(fs: Files, pc: Pc) {
    && (pc.CheckDone? || pc.ReadInbox? || pc.CreateClaim? || pc.Recheck? || pc.Rollback? ==>
          SlotOf(pc.agentId, pc.slot.id) == Returned(pc.slot))
    && (pc.CreateClaim? || pc.Recheck? || pc.Holding? ==> pc.slot in fs.inbox && fs.inbox[pc.slot] == pc.envelope)
    && (pc.Rollback? || pc.CompleteUnlink? ==> pc.slot in fs.done)
    && (pc.Holding? || pc.CompleteCheck? || pc.CompleteMark? || pc.ReleaseCheck? || pc.ReleaseUnlink? ==>
          pc.slot !in fs.done)
  }

  /** Claim files and the workers that own them correspond one to one. */
  ghost predicate Invariant(s: State) {
    && WellFormed(s.fs)
    && (forall p :: Owned(PcOf(s, p)).Some? ==>
          Owned(PcOf(s, p)).value in s.fs.claims && s.fs.claims[Owned(PcOf(s, p)).value] == p)
    && (forall slot :: slot in s.fs.claims ==> Owned(PcOf(s, s.fs.claims[slot])) == Some(slot))
    && (forall p :: PcHolds(s.fs, PcOf(s, p)))
  }

  lemma MoveKeeps(s: State, p: nat, pc: Pc)
    requires Invariant(s) && Owned(pc) == Owned(PcOf(s, p)) && PcHolds(s.fs, pc)
    ensures Invariant(Move(s, p, pc))
  {
    var s' := Move(s, p, pc);
    assert forall q :: PcOf(s', q) == if q == p then pc else PcOf(s, q);
  }

  lemma SendKeeps(s: State, envelope: Envelope)
    requires Invariant(s) && ValidMessageId(envelope.messageId)
    ensures Invariant(s.(fs := SendSpec(s.fs, envelope).0))
  {
    var s' := s.(fs := SendSpec(s.fs, envelope).0);
    forall q ensures PcOf(s', q) == PcOf(s, q) && PcHolds(s'.fs, PcOf(s', q)) {
      assert PcHolds(s.fs, PcOf(s, q));
    }
  }

  lemma CreateKeeps(s: State, p: nat, pc: Pc)
    requires Invariant(s) && Owned(PcOf(s, p)) == None && PcHolds(s.fs, pc)
    requires Owned(pc).Some? && Owned(pc).value !in s.fs.claims
    ensures Invariant(Move(s.(fs := s.fs.(claims := s.fs.claims[Owned(pc).value := p])), p, pc))
  {
    var slot := Owned(pc).value;
    var s' := Move(s.(fs := s.fs.(claims := s.fs.claims[slot := p])), p, pc);
    forall q
      ensures PcOf(s', q) == if q == p then pc else PcOf(s, q)
      ensures PcHolds(s'.fs, PcOf(s', q))
    {
      assert PcHolds(s.fs, PcOf(s, q));
    }
    forall other | other in s'.fs.claims ensures Owned(PcOf(s', s'.fs.claims[other])) == Some(other) {
      if other != slot {
        assert Owned(PcOf(s, s.fs.claims[other])) == Some(other);
      }
    }
  }

  lemma UnlinkKeeps(s: State, p: nat)
    requires Invariant(s) && Owned(PcOf(s, p)).Some?
    ensures Invariant(Move(s.(fs := s.fs.(claims := s.fs.claims - {Owned(PcOf(s, p)).value})), p, Idle))
  {
    var s' := Move(s.(fs := s.fs.(claims := s.fs.claims - {Owned(PcOf(s, p)).value})), p, Idle);
    assert forall q :: PcOf(s', q) == if q == p then Idle else PcOf(s, q);
  }

  lemma MarkKeeps(s: State, p: nat)
    requires Invariant(s) && PcOf(s, p).CompleteMark?
    ensures var slot := PcOf(s, p).slot;
            Invariant(Move(s.(fs := s.fs.(done := s.fs.done + {slot})), p, CompleteUnlink(slot)))
  {
    var slot := PcOf(s, p).slot;
    var s' := Move(s.(fs := s.fs.(done := s.fs.done + {slot})), p, CompleteUnlink(slot));
    assert forall q :: PcOf(s', q) == if q == p then CompleteUnlink(slot) else PcOf(s, q);
    forall q ensures PcHolds(s'.fs, PcOf(s', q)) {
      assert PcHolds(s.fs, PcOf(s, q));
      assert Owned(PcOf(s, q)) == Some(slot) ==> q == p;
    }
  }

  lemma InvariantStep(s: State, a: Action)
    requires Invariant(s)
    ensures Invariant(Step(s, a).0)
  {
    match a
    case Send(envelope) =>
      if ValidMessageId(envelope.messageId) {
        SendKeeps(s, envelope);
      }
    case Claim(p, agentId, id) =>
      if PcOf(s, p) == Idle && SlotOf(agentId, id).Returned? {
        MoveKeeps(s, p, CheckDone(SlotOf(agentId, id).value, agentId));
      }
    case Complete(p) =>
      assert PcHolds(s.fs, PcOf(s, p));
      if PcOf(s, p).Holding? {
        MoveKeeps(s, p, CompleteCheck(PcOf(s, p).slot));
      }
    case Release(p) =>
      assert PcHolds(s.fs, PcOf(s, p));
      if PcOf(s, p).Holding? {
        MoveKeeps(s, p, ReleaseCheck(PcOf(s, p).slot));
      }
    case Go(p) => OperateKeeps(s, p);
  }

  lemma OperateKeeps(s: State, p: nat)
    requires Invariant(s)
    ensures Invariant(Operate(s, p).0)
  {
    var pc, next := PcOf(s, p), PcOf(Operate(s, p).0, p);
    assert PcHolds(s.fs, pc);
    match pc
    case CreateClaim(slot, agentId, envelope) =>
      if slot in s.fs.claims {
        MoveKeeps(s, p, Idle);
      } else {
        CreateKeeps(s, p, next);
      }
    case Rollback(_, _) => UnlinkKeeps(s, p);
    case CompleteUnlink(_) => UnlinkKeeps(s, p);
    case ReleaseUnlink(_) => UnlinkKeeps(s, p);
    case CompleteMark(_) => MarkKeeps(s, p);
    case _ => if !pc.Idle? && !pc.Holding? { MoveKeeps(s, p, next); }
  }

  /** The status a label leaves a message in. */
  function After(l: Label, slot: Slot, status: Status): Status {
    match l
    case Take(p, t) => if t == slot then Held(p) else status
    case Finish(_, t) => if t == slot then Done else status
    case Drop(_, t) => if t == slot then Available else status
    case Stutter => status
  }

  lemma StatusStep(s: State, a: Action, slot: Slot)
    requires Invariant(s)
    ensures Abstract(Step(s, a).0.fs, slot) == After(LabelOf(s, a), slot, Abstract(s.fs, slot))
  {
    if a.Go? {
      var pc := PcOf(s, a.p);
      assert PcHolds(s.fs, pc);
      assert Owned(pc).Some? ==> pc.slot in s.fs.claims && s.fs.claims[pc.slot] == a.p;
    }
  }

  lemma LabelEnabled(s: State, a: Action)
    requires Invariant(s)
    ensures match LabelOf(s, a)
            case Take(p, slot) => Abstract(s.fs, slot) == Available
            case Finish(p, slot) => Abstract(s.fs, slot) == Held(p)
            case Drop(p, slot) => Abstract(s.fs, slot) == Held(p)
            case Stutter => true
  {
    if a.Go? {
      var pc := PcOf(s, a.p);
      assert PcHolds(s.fs, pc);
      assert Owned(pc).Some? ==> pc.slot in s.fs.claims && s.fs.claims[pc.slot] == a.p;
    }
  }

  /** Each step is a step of the atomic machine on one message, or invisible to it. */
  lemma StepRefines(s: State, a: Action, b: Board)
    requires Invariant(s) && forall slot :: StatusOf(b, slot) == Abstract(s.fs, slot)
    ensures Apply(b, LabelOf(s, a)).Some?
    ensures forall slot :: StatusOf(Apply(b, LabelOf(s, a)).value, slot) == Abstract(Step(s, a).0.fs, slot)
  {
    LabelEnabled(s, a);
    var l := LabelOf(s, a);
    assert l != Stutter ==> StatusOf(b, l.slot) == Abstract(s.fs, l.slot);
    forall slot ensures StatusOf(Apply(b, l).value, slot) == Abstract(Step(s, a).0.fs, slot) {
      StatusStep(s, a, slot);
      assert StatusOf(b, slot) == Abstract(s.fs, slot);
    }
  }

  // Runs

  datatype History = History(state: State, labels: seq<Label>, events: seq<Event>)

  function Run(s: State, actions: seq<Action>): History {
    if actions == [] then History(s, [], [])
    else
      var a := actions[|actions| - 1];
      var h := Run(s, actions[..|actions| - 1]);
      var (next, event) := Step(h.state, a);
      History(next, h.labels + [LabelOf(h.state, a)], h.events + [event])
  }

  lemma {:induction false} InvariantAlways(actions: seq<Action>)
    ensures Invariant(Run(INITIAL, actions).state)
  {
    if actions == [] {
    } else {
      InvariantAlways(actions[..|actions| - 1]);
      InvariantStep(Run(INITIAL, actions[..|actions| - 1]).state, actions[|actions| - 1]);
    }
  }

  /** Every run is a run of the atomic machine, with the same status for every message. */
  lemma {:induction false} Refinement(actions: seq<Action>)
    ensures var h := Run(INITIAL, actions);
            && Replay(h.labels).Some?
            && forall slot :: StatusOf(Replay(h.labels).value, slot) == Abstract(h.state.fs, slot)
  {
    if actions == [] {
    } else {
      var before := Run(INITIAL, actions[..|actions| - 1]);
      Refinement(actions[..|actions| - 1]);
      InvariantAlways(actions[..|actions| - 1]);
      StepRefines(before.state, actions[|actions| - 1], Replay(before.labels).value);
      var labels := Run(INITIAL, actions).labels;
      assert labels[..|labels| - 1] == before.labels;
    }
  }

  // What callers see

  predicate IsClaimReturn(e: Event, who: Who, slot: Slot) { e.ClaimReturned? && e.slot == slot && By(who, e.p) }

  predicate IsCompleteReturn(e: Event, who: Who, slot: Slot) { e.CompleteReturned? && e.slot == slot && By(who, e.p) }

  predicate IsReleaseReturn(e: Event, who: Who, slot: Slot) { e.ReleaseReturned? && e.slot == slot && By(who, e.p) }

  function ClaimReturns(events: seq<Event>, who: Who, slot: Slot): nat {
    Count(events, e => IsClaimReturn(e, who, slot))
  }

  function CompleteReturns(events: seq<Event>, who: Who, slot: Slot): nat {
    Count(events, e => IsCompleteReturn(e, who, slot))
  }

  function ReleaseReturns(events: seq<Event>, who: Who, slot: Slot): nat {
    Count(events, e => IsReleaseReturn(e, who, slot))
  }

  /** Where the worker that wrote the claim file of a message stands. */
  function OwnerPc(s: State, slot: Slot): Pc {
    if slot in s.fs.claims then PcOf(s, s.fs.claims[slot]) else Idle
  }

  /** A take has happened but its `claim` has not returned yet. */
  predicate TakePending(s: State, who: Who, slot: Slot) {
    OwnerPc(s, slot).Recheck? && slot !in s.fs.done && By(who, s.fs.claims[slot])
  }

  /** A message is finished but its `complete` has not returned yet. */
  predicate FinishPending(s: State, who: Who, slot: Slot) {
    OwnerPc(s, slot).CompleteUnlink? && By(who, s.fs.claims[slot])
  }

  /** The worker of the step is about to act on `slot`. */
  predicate Touches(s: State, a: Action, slot: Slot) {
    !a.Send? && (Owned(PcOf(s, a.p)) == Some(slot) || (PcOf(s, a.p).CreateClaim? && PcOf(s, a.p).slot == slot))
  }

  /** A step elsewhere changes neither the claim on `slot` nor its done marker. */
  lemma UntouchedFiles(s: State, a: Action, slot: Slot)
    requires Invariant(s) && !Touches(s, a, slot)
    ensures var fs, fs' := s.fs, Step(s, a).0.fs;
            && (slot in fs'.done <==> slot in fs.done)
            && (slot in fs'.claims <==> slot in fs.claims)
            && (slot in fs.claims ==> fs'.claims[slot] == fs.claims[slot])
  {
  }

  lemma UntouchedSilent(s: State, a: Action, who: Who, slot: Slot)
    requires Invariant(s) && !Touches(s, a, slot)
    ensures !IsTake(LabelOf(s, a), who, slot) && !IsFinish(LabelOf(s, a), who, slot)
    ensures !IsClaimReturn(Step(s, a).1, who, slot) && !IsCompleteReturn(Step(s, a).1, who, slot)
  {
  }

  lemma UntouchedStep(s: State, a: Action, slot: Slot)
    requires Invariant(s) && !Touches(s, a, slot)
    ensures OwnerPc(Step(s, a).0, slot) == OwnerPc(s, slot)
  {
    UntouchedFiles(s, a, slot);
    if slot in s.fs.claims && !a.Send? {
      var q := s.fs.claims[slot];
      assert Owned(PcOf(s, q)) == Some(slot);
      assert q != a.p;
      assert PcOf(Step(s, a).0, q) == PcOf(s, q);
    }
  }

  lemma TakeStep(s: State, a: Action, who: Who, slot: Slot)
    requires Invariant(s)
    ensures One(IsTake(LabelOf(s, a), who, slot)) + One(TakePending(s, who, slot))
            == One(IsClaimReturn(Step(s, a).1, who, slot)) + One(TakePending(Step(s, a).0, who, slot))
  {
    if !Touches(s, a, slot) {
      UntouchedFiles(s, a, slot);
      UntouchedStep(s, a, slot);
      UntouchedSilent(s, a, who, slot);
    } else {
      var pc := PcOf(s, a.p);
      assert PcHolds(s.fs, pc);
      assert Owned(pc) == Some(slot) ==> OwnerPc(s, slot) == pc;
    }
  }

  lemma FinishStep(s: State, a: Action, who: Who, slot: Slot)
    requires Invariant(s)
    ensures One(IsFinish(LabelOf(s, a), who, slot)) + One(FinishPending(s, who, slot))
            == One(IsCompleteReturn(Step(s, a).1, who, slot)) + One(FinishPending(Step(s, a).0, who, slot))
  {
    if !Touches(s, a, slot) {
      UntouchedFiles(s, a, slot);
      UntouchedStep(s, a, slot);
      UntouchedSilent(s, a, who, slot);
    } else {
      var pc := PcOf(s, a.p);
      assert PcHolds(s.fs, pc);
      assert Owned(pc) == Some(slot) ==> OwnerPc(s, slot) == pc;
    }
  }

  lemma DropStep(s: State, a: Action, who: Who, slot: Slot)
    requires Invariant(s)
    ensures IsDrop(LabelOf(s, a), who, slot) <==> IsReleaseReturn(Step(s, a).1, who, slot)
  {
  }

  lemma {:induction false} ClaimReturnsMatchTakes(actions: seq<Action>, who: Who, slot: Slot)
    ensures var h := Run(INITIAL, actions);
            Takes(h.labels, who, slot) == ClaimReturns(h.events, who, slot) + One(TakePending(h.state, who, slot))
  {
    if actions == [] {
    } else {
      var before, a := Run(INITIAL, actions[..|actions| - 1]), actions[|actions| - 1];
      ClaimReturnsMatchTakes(actions[..|actions| - 1], who, slot);
      InvariantAlways(actions[..|actions| - 1]);
      TakeStep(before.state, a, who, slot);
      CountSnoc(before.labels, LabelOf(before.state, a), l => IsTake(l, who, slot));
      CountSnoc(before.events, Step(before.state, a).1, e => IsClaimReturn(e, who, slot));
    }
  }

  lemma {:induction false} CompleteReturnsMatchFinishes(actions: seq<Action>, who: Who, slot: Slot)
    ensures var h := Run(INITIAL, actions);
            Finishes(h.labels, who, slot) == CompleteReturns(h.events, who, slot) + One(FinishPending(h.state, who, slot))
  {
    if actions == [] {
    } else {
      var before, a := Run(INITIAL, actions[..|actions| - 1]), actions[|actions| - 1];
      CompleteReturnsMatchFinishes(actions[..|actions| - 1], who, slot);
      InvariantAlways(actions[..|actions| - 1]);
      FinishStep(before.state, a, who, slot);
      CountSnoc(before.labels, LabelOf(before.state, a), l => IsFinish(l, who, slot));
      CountSnoc(before.events, Step(before.state, a).1, e => IsCompleteReturn(e, who, slot));
    }
  }

  lemma {:induction false} ReleaseReturnsMatchDrops(actions: seq<Action>, who: Who, slot: Slot)
    ensures var h := Run(INITIAL, actions);
            Drops(h.labels, who, slot) == ReleaseReturns(h.events, who, slot)
  {
    if actions == [] {
    } else {
      var before, a := Run(INITIAL, actions[..|actions| - 1]), actions[|actions| - 1];
      ReleaseReturnsMatchDrops(actions[..|actions| - 1], who, slot);
      InvariantAlways(actions[..|actions| - 1]);
      DropStep(before.state, a, who, slot);
      CountSnoc(before.labels, LabelOf(before.state, a), l => IsDrop(l, who, slot));
      CountSnoc(before.events, Step(before.state, a).1, e => IsReleaseReturn(e, who, slot));
    }
  }

  /** Worker by worker, and for all workers together, returned calls match the steps where they
      took effect one to one, but for the calls still on their way back; so results seen by
      callers are those of the atomic machine. */
  lemma ReturnsMatchEffects(actions: seq<Action>, who: Who, slot: Slot)
    ensures var h := Run(INITIAL, actions);
            && Takes(h.labels, who, slot) == ClaimReturns(h.events, who, slot) + One(TakePending(h.state, who, slot))
            && Finishes(h.labels, who, slot)
               == CompleteReturns(h.events, who, slot) + One(FinishPending(h.state, who, slot))
            && Drops(h.labels, who, slot) == ReleaseReturns(h.events, who, slot)
  {
    ClaimReturnsMatchTakes(actions, who, slot);
    CompleteReturnsMatchFinishes(actions, who, slot);
    ReleaseReturnsMatchDrops(actions, who, slot);
  }

  /** Between a returned `claim` and the return of its `complete` or `release`. */
  predicate Working(pc: Pc, slot: Slot) {
    (pc.Holding? || pc.CompleteCheck? || pc.CompleteMark? || pc.CompleteUnlink? || pc.ReleaseCheck? || pc.ReleaseUnlink?)
    && pc.slot == slot
  }

  /** In every run, also one in which workers halt for good anywhere: a message is completed
      at most once, at most one worker at a time works on it, and the claims returned for it
      exceed the releases and completions by at most one. */
  lemma ClaimSafety(actions: seq<Action>, slot: Slot, p: nat, q: nat)
    ensures var h := Run(INITIAL, actions);
            && CompleteReturns(h.events, None, slot) <= 1
            && ClaimReturns(h.events, None, slot)
               <= ReleaseReturns(h.events, None, slot) + Finishes(h.labels, None, slot) + 1
            && (Working(PcOf(h.state, p), slot) && Working(PcOf(h.state, q), slot) ==> p == q)
            && (CompleteReturns(h.events, None, slot) == 1 ==> slot in h.state.fs.done)
  {
    var h := Run(INITIAL, actions);
    Refinement(actions);
    AtomicMachineSafety(h.labels, slot);
    ReturnsMatchEffects(actions, None, slot);
    InvariantAlways(actions);
    assert Working(PcOf(h.state, p), slot) ==> Owned(PcOf(h.state, p)) == Some(slot);
    assert Working(PcOf(h.state, q), slot) ==> Owned(PcOf(h.state, q)) == Some(slot);
    assert StatusOf(Replay(h.labels).value, slot) == Abstract(h.state.fs, slot);
  }

  /** In every reachable state: a `claim` returns only the addressed message, only while no
      done marker exists and nobody else works on it; every failed `claim` has its stated
      reason; and `complete` and `release` by the holder never fail. */
  lemma StepOutcomes(s: State, a: Action)
    requires Invariant(s)
    ensures match Step(s, a).1
            case ClaimReturned(p, slot, envelope) =>
              && slot !in s.fs.done && Abstract(s.fs, slot) == Held(p)
              && slot in s.fs.inbox && s.fs.inbox[slot] == envelope
              && SafeDir(envelope.receiver) == Some(slot.dir)
              && (forall q :: Working(PcOf(s, q), slot) ==> q == p)
            case ClaimFailed(p, agentId, id, why) =>
              && (SlotOf(agentId, id).Failed? ==> SlotOf(agentId, id).why == why)
              && (SlotOf(agentId, id).Returned? ==>
                    var slot := SlotOf(agentId, id).value;
                    match why
                    case AlreadyProcessed => Abstract(s.fs, slot) == Done
                    case ProcessedConcurrently => Abstract(s.fs, slot) == Done
                    case NoSuchMessage => slot !in s.fs.inbox
                    case NotAddressed => slot in s.fs.inbox && s.fs.inbox[slot].receiver != agentId
                    case AlreadyClaimed =>
                      Abstract(s.fs, slot) == Done || exists q :: q != p && Abstract(s.fs, slot) == Held(q)
                    case _ => false)
            case CompleteReturned(p, slot) => Abstract(s.fs, slot) == Done
            case ReleaseReturned(p, slot) => Abstract(s.fs, slot) == Held(p) && Abstract(Step(s, a).0.fs, slot) == Available
            case CompleteFailed(_, _, _) => false
            case ReleaseFailed(_, _, _) => false
            case _ => true
  {
    if a.Go? {
      var pc := PcOf(s, a.p);
      assert PcHolds(s.fs, pc);
    }
  }

  // The methods of the transport against the steps

  predicate ByOthers(a: Action, p: nat) {
    a.Send? || a.p != p
  }

  /** Inbox files and done markers only accumulate. */
  lemma StepGrows(s: State, a: Action)
    ensures Grown(s.fs, Step(s, a).0.fs)
  {
  }

  lemma OthersLeaveMyClaims(s: State, a: Action, p: nat)
    requires Invariant(s) && ByOthers(a, p)
    ensures Mine(s.fs, p) == Mine(Step(s, a).0.fs, p)
  {
    var fs, fs' := s.fs, Step(s, a).0.fs;
    assert !a.Send? && Owned(PcOf(s, a.p)).Some? ==> fs.claims[Owned(PcOf(s, a.p)).value] == a.p;
    forall slot ensures slot in Mine(fs, p) <==> slot in Mine(fs', p) {
    }
  }

  lemma OthersLeaveMyMessages(s: State, a: Action, p: nat, slot: Slot)
    requires Invariant(s) && ByOthers(a, p) && slot in Mine(s.fs, p)
    ensures slot in Step(s, a).0.fs.done <==> slot in s.fs.done
  {
    assert !a.Send? && Owned(PcOf(s, a.p)).Some? ==> s.fs.claims[Owned(PcOf(s, a.p)).value] == a.p;
  }

  lemma OthersStepInterferes(s: State, a: Action, p: nat)
    requires Invariant(s) && ByOthers(a, p)
    ensures Interference(s.fs, Step(s, a).0.fs, p)
  {
    StepGrows(s, a);
    OthersLeaveMyClaims(s, a, p);
    forall slot | slot in Mine(s.fs, p) ensures slot in Step(s, a).0.fs.done <==> slot in s.fs.done {
      OthersLeaveMyMessages(s, a, p, slot);
    }
  }

  lemma OthersLeaveMyPc(s: State, a: Action, p: nat)
    requires ByOthers(a, p)
    ensures PcOf(Step(s, a).0, p) == PcOf(s, p)
  {
  }

  /** `p` has not moved and has met only interference since `s`. */
  ghost predicate OnlyInterference(s: State, t: State, p: nat) {
    Interference(s.fs, t.fs, p) && PcOf(t, p) == PcOf(s, p)
  }

  lemma OnlyInterferenceTransitive(s: State, t: State, u: State, p: nat)
    requires OnlyInterference(s, t, p) && OnlyInterference(t, u, p)
    ensures OnlyInterference(s, u, p)
  {
  }

  /** Whatever the other workers do between two steps of `p` is covered by the interference
      the methods of `FilesystemTransport` are proved under. */
  lemma {:induction false} OthersInterfere(s: State, actions: seq<Action>, p: nat)
    requires Invariant(s) && forall a :: a in actions ==> ByOthers(a, p)
    ensures Invariant(Run(s, actions).state)
    ensures OnlyInterference(s, Run(s, actions).state, p)
  {
    if actions == [] {
    } else {
      var before, a := Run(s, actions[..|actions| - 1]).state, actions[|actions| - 1];
      var after := Step(before, a).0;
      assert a in actions;
      OthersInterfere(s, actions[..|actions| - 1], p);
      InvariantStep(before, a);
      OthersStepInterferes(before, a, p);
      OthersLeaveMyPc(before, a, p);
      OnlyInterferenceTransitive(s, before, after, p);
      assert Run(s, actions).state == after;
    }
  }

  /** The file operations of `p`, `n` of them, with nobody in between. */
  function Gos(p: nat, n: nat): seq<Action> {
    if n == 0 then [] else [Go(p)] + Gos(p, n - 1)
  }

  function ClaimOutcome(p: nat, agentId: string, id: string, r: Answer<Envelope>): Event {
    match r
    case Returned(envelope) =>
      if SlotOf(agentId, id).Returned? then ClaimReturned(p, SlotOf(agentId, id).value, envelope) else Silent
    case Failed(why) => ClaimFailed(p, agentId, id, why)
  }

  /** Running `actions` leaves the files `fs` and shows callers nothing but `outcome`. */
  ghost predicate Yields(s: State, actions: seq<Action>, fs: Files, outcome: Event) {
    && Run(s, actions).state.fs == fs
    && outcome in Run(s, actions).events
    && forall e :: e in Run(s, actions).events ==> e == Silent || e == outcome
  }

  lemma {:induction false} RunFront(s: State, a: Action, rest: seq<Action>)
    ensures var h, t := Run(s, [a] + rest), Run(Step(s, a).0, rest);
            h.state == t.state && h.events == [Step(s, a).1] + t.events
  {
    if rest == [] {
      assert [a] + rest == [a];
      assert [a][..0] == [];
    } else {
      RunFront(s, a, rest[..|rest| - 1]);
      assert ([a] + rest)[..|rest|] == [a] + rest[..|rest| - 1];
    }
  }

  lemma {:induction false} RestingRun(s: State, p: nat, n: nat)
    requires PcOf(s, p).Idle? || PcOf(s, p).Holding?
    ensures Run(s, Gos(p, n)).state == s
    ensures forall e :: e in Run(s, Gos(p, n)).events ==> e == Silent
  {
    if n == 0 {
    } else {
      assert Step(s, Go(p)) == (s, Silent);
      RunFront(s, Go(p), Gos(p, n - 1));
      RestingRun(s, p, n - 1);
    }
  }

  lemma YieldsNow(s: State, a: Action, p: nat, n: nat)
    requires PcOf(Step(s, a).0, p).Idle? || PcOf(Step(s, a).0, p).Holding?
    ensures Yields(s, [a] + Gos(p, n), Step(s, a).0.fs, Step(s, a).1)
  {
    RunFront(s, a, Gos(p, n));
    RestingRun(Step(s, a).0, p, n);
  }

  lemma YieldsLater(s: State, a: Action, rest: seq<Action>, fs: Files, outcome: Event)
    requires Step(s, a).1 == Silent && Yields(Step(s, a).0, rest, fs, outcome)
    ensures Yields(s, [a] + rest, fs, outcome)
  {
    RunFront(s, a, rest);
  }

  lemma ClaimFromCreate(s: State, p: nat)
    requires PcOf(s, p).CreateClaim? && PcOf(s, p).slot !in s.fs.done
    ensures var pc := PcOf(s, p);
            if pc.slot in s.fs.claims
            then Yields(s, Gos(p, 2), s.fs, ClaimFailed(p, pc.agentId, pc.slot.id, AlreadyClaimed))
            else Yields(s, Gos(p, 2), s.fs.(claims := s.fs.claims[pc.slot := p]), ClaimReturned(p, pc.slot, pc.envelope))
  {
    var pc, s' := PcOf(s, p), Operate(s, p).0;
    if pc.slot in s.fs.claims {
      YieldsNow(s, Go(p), p, 1);
    } else {
      assert PcOf(s', p) == Recheck(pc.slot, pc.agentId, pc.envelope);
      YieldsNow(s', Go(p), p, 0);
      assert [Go(p)] + Gos(p, 0) == Gos(p, 1);
      YieldsLater(s, Go(p), Gos(p, 1), s'.fs, ClaimReturned(p, pc.slot, pc.envelope));
    }
  }

  lemma ClaimFromCheck(s: State, p: nat)
    requires PcOf(s, p).CheckDone?
    requires SlotOf(PcOf(s, p).agentId, PcOf(s, p).slot.id) == Returned(PcOf(s, p).slot)
    ensures var pc := PcOf(s, p);
            var (fs, r) := ClaimSpec(s.fs, pc.agentId, pc.slot.id, p);
            Yields(s, Gos(p, 4), fs, ClaimOutcome(p, pc.agentId, pc.slot.id, r))
  {
    var pc := PcOf(s, p);
    var slot, agentId := pc.slot, pc.agentId;
    var (fs, r) := ClaimSpec(s.fs, agentId, slot.id, p);
    var outcome := ClaimOutcome(p, agentId, slot.id, r);
    if slot in s.fs.done {
      YieldsNow(s, Go(p), p, 3);
    } else {
      var s' := Operate(s, p).0;
      assert PcOf(s', p) == ReadInbox(slot, agentId) && s'.fs == s.fs;
      if slot !in s.fs.inbox || s.fs.inbox[slot].receiver != agentId {
        YieldsNow(s', Go(p), p, 2);
      } else {
        var s'' := Operate(s', p).0;
        assert PcOf(s'', p) == CreateClaim(slot, agentId, s.fs.inbox[slot]) && s''.fs == s.fs;
        ClaimFromCreate(s'', p);
        YieldsLater(s', Go(p), Gos(p, 2), fs, outcome);
      }
      assert Gos(p, 3) == [Go(p)] + Gos(p, 2);
      YieldsLater(s, Go(p), Gos(p, 3), fs, outcome);
    }
  }

  /** Run alone from any state with `p` idle, the steps of `claim` leave the files and give
      the answer that `ClaimSpec` says, and nothing else is observed. */
  lemma ClaimStepsMeetSpec(s: State, p: nat, agentId: string, id: string)
    requires PcOf(s, p) == Idle
    ensures var (fs, r) := ClaimSpec(s.fs, agentId, id, p);
            Yields(s, [Claim(p, agentId, id)] + Gos(p, 4), fs, ClaimOutcome(p, agentId, id, r))
  {
    var c: Action := Claim(p, agentId, id);
    if SlotOf(agentId, id).Failed? {
      YieldsNow(s, c, p, 4);
    } else {
      var slot := SlotOf(agentId, id).value;
      var s' := Move(s, p, CheckDone(slot, agentId));
      assert slot.id == id;
      ClaimFromCheck(s', p);
      var (fs, r) := ClaimSpec(s.fs, agentId, id, p);
      YieldsLater(s, c, Gos(p, 4), fs, ClaimOutcome(p, agentId, id, r));
    }
  }

  lemma CompleteFromMark(s: State, p: nat)
    requires Invariant(s) && PcOf(s, p).CompleteMark?
    ensures var slot := PcOf(s, p).slot;
            Yields(s, Gos(p, 2),
                   s.fs.(claims := s.fs.claims - {slot}, done := s.fs.done + {slot}), CompleteReturned(p, slot))
  {
    var slot := PcOf(s, p).slot;
    assert PcHolds(s.fs, PcOf(s, p)) && Owned(PcOf(s, p)) == Some(slot);
    var marked := Operate(s, p).0;
    assert PcOf(marked, p) == CompleteUnlink(slot) && marked.fs == s.fs.(done := s.fs.done + {slot});
    YieldsNow(marked, Go(p), p, 0);
    assert Gos(p, 1) == [Go(p)] + Gos(p, 0);
    assert Gos(p, 2) == [Go(p)] + Gos(p, 1);
    YieldsLater(s, Go(p), Gos(p, 1), Operate(marked, p).0.fs, CompleteReturned(p, slot));
  }

  /** The holder's `complete`, run alone from any reachable state, takes effect and returns. */
  lemma CompleteStepsMeetSpec(s: State, p: nat)
    requires Invariant(s) && PcOf(s, p).Holding?
    ensures var slot := PcOf(s, p).slot;
            Yields(s, [Complete(p)] + Gos(p, 3),
                   s.fs.(claims := s.fs.claims - {slot}, done := s.fs.done + {slot}), CompleteReturned(p, slot))
  {
    var slot := PcOf(s, p).slot;
    var effect := s.fs.(claims := s.fs.claims - {slot}, done := s.fs.done + {slot});
    assert PcHolds(s.fs, PcOf(s, p)) && Owned(PcOf(s, p)) == Some(slot);
    var checking := Move(s, p, CompleteCheck(slot));
    var marking := Move(checking, p, CompleteMark(slot));
    MoveKeeps(s, p, CompleteCheck(slot));
    MoveKeeps(checking, p, CompleteMark(slot));
    CompleteFromMark(marking, p);
    assert Operate(checking, p) == (marking, Silent);
    assert Gos(p, 3) == [Go(p)] + Gos(p, 2);
    YieldsLater(checking, Go(p), Gos(p, 2), effect, CompleteReturned(p, slot));
    YieldsLater(s, Complete(p), Gos(p, 3), effect, CompleteReturned(p, slot));
  }

  lemma ReleaseFromUnlink(s: State, p: nat)
    requires Invariant(s) && PcOf(s, p).ReleaseUnlink?
    ensures var slot := PcOf(s, p).slot;
            Yields(s, Gos(p, 1), s.fs.(claims := s.fs.claims - {slot}), ReleaseReturned(p, slot))
  {
    assert Owned(PcOf(s, p)) == Some(PcOf(s, p).slot);
    YieldsNow(s, Go(p), p, 0);
    assert Gos(p, 1) == [Go(p)] + Gos(p, 0);
  }

  /** So does its `release`. */
  lemma ReleaseStepsMeetSpec(s: State, p: nat)
    requires Invariant(s) && PcOf(s, p).Holding?
    ensures var slot := PcOf(s, p).slot;
            Yields(s, [Release(p)] + Gos(p, 2), s.fs.(claims := s.fs.claims - {slot}), ReleaseReturned(p, slot))
  {
    var slot := PcOf(s, p).slot;
    var effect := s.fs.(claims := s.fs.claims - {slot});
    assert PcHolds(s.fs, PcOf(s, p)) && Owned(PcOf(s, p)) == Some(slot);
    var checking := Move(s, p, ReleaseCheck(slot));
    var unlinking := Move(checking, p, ReleaseUnlink(slot));
    MoveKeeps(s, p, ReleaseCheck(slot));
    MoveKeeps(checking, p, ReleaseUnlink(slot));
    ReleaseFromUnlink(unlinking, p);
    assert Operate(checking, p) == (unlinking, Silent);
    assert Gos(p, 2) == [Go(p)] + Gos(p, 1);
    YieldsLater(checking, Go(p), Gos(p, 1), effect, ReleaseReturned(p, slot));
    YieldsLater(s, Release(p), Gos(p, 2), effect, ReleaseReturned(p, slot));
  }

  /** A worker that halts anywhere between creating and unlinking its claim file, in particular
      while it works on the message, blocks the message for good: whatever the others do, no
      claim of it ever returns. */
  lemma {:induction false} HaltedWorkerBlocks(s: State, actions: seq<Action>, p: nat, slot: Slot)
    requires Invariant(s) && Owned(PcOf(s, p)) == Some(slot) && forall a :: a in actions ==> ByOthers(a, p)
    ensures ClaimReturns(Run(s, actions).events, None, slot) == 0
  {
    if actions == [] {
    } else {
      var before, a := actions[..|actions| - 1], actions[|actions| - 1];
      var t := Run(s, before).state;
      HaltedWorkerBlocks(s, before, p, slot);
      OthersInterfere(s, before, p);
      assert a in actions;
      BlockedStep(t, a, p, slot);
      assert Run(s, actions).events == Run(s, before).events + [Step(t, a).1];
      CountSnoc(Run(s, before).events, Step(t, a).1, e => IsClaimReturn(e, None, slot));
    }
  }

  lemma BlockedStep(s: State, a: Action, p: nat, slot: Slot)
    requires Invariant(s) && Owned(PcOf(s, p)) == Some(slot) && ByOthers(a, p)
    ensures !IsClaimReturn(Step(s, a).1, None, slot)
  {
    StepOutcomes(s, a);
    ReturnsToMover(s, a);
    assert s.fs.claims[slot] == p;
  }

  lemma ReturnsToMover(s: State, a: Action)
    ensures Step(s, a).1.ClaimReturned? ==> a.Go? && Step(s, a).1.p == a.p
  {
  }

  ghost predicate Reachable(s: State) {
    exists actions :: Run(INITIAL, actions).state == s
  }

  lemma ReachableStep(s: State, a: Action, t: State)
    requires Reachable(s) && Step(s, a).0 == t
    ensures Reachable(t)
  {
    var actions :| Run(INITIAL, actions).state == s;
    assert (actions + [a])[..|actions|] == actions;
    assert Run(INITIAL, actions + [a]).state == t;
  }

  lemma HoldingReachable(s: State, agentId: string, envelope: Envelope, slot: Slot) returns (t: State)
    requires Reachable(s) && PcOf(s, 0) == Idle
    requires SlotOf(agentId, slot.id) == Returned(slot) && envelope.receiver == agentId
    requires s.fs == Files(map[slot := envelope], map[], {})
    ensures Reachable(t) && t.fs == Files(map[slot := envelope], map[slot := 0], {})
    ensures PcOf(t, 0) == Holding(slot, envelope) && PcOf(t, 1) == PcOf(s, 1)
  {
    var s1 := Move(s, 0, CheckDone(slot, agentId));
    var s2 := Move(s1, 0, ReadInbox(slot, agentId));
    var s3 := Move(s2, 0, CreateClaim(slot, agentId, envelope));
    var s4 := Move(s3.(fs := Files(map[slot := envelope], map[slot := 0], {})), 0, Recheck(slot, agentId, envelope));
    t := Move(s4, 0, Holding(slot, envelope));
    ReachableStep(s, Claim(0, agentId, slot.id), s1);
    ReachableStep(s1, Go(0), s2);
    ReachableStep(s2, Go(0), s3);
    ReachableStep(s3, Go(0), s4);
    ReachableStep(s4, Go(0), t);
  }

  lemma DoneReachable(s: State, envelope: Envelope, slot: Slot) returns (t: State)
    requires Reachable(s) && PcOf(s, 0) == Holding(slot, envelope)
    requires s.fs == Files(map[slot := envelope], map[slot := 0], {})
    ensures Reachable(t) && t.fs == Files(map[slot := envelope], map[], {slot}) && PcOf(t, 1) == PcOf(s, 1)
  {
    var s1 := Move(s, 0, CompleteCheck(slot));
    var s2 := Move(s1, 0, CompleteMark(slot));
    var s3 := Move(s2.(fs := Files(map[slot := envelope], map[slot := 0], {slot})), 0, CompleteUnlink(slot));
    t := Move(s3.(fs := Files(map[slot := envelope], map[], {slot})), 0, Idle);
    ReachableStep(s, Complete(0), s1);
    ReachableStep(s1, Go(0), s2);
    ReachableStep(s2, Go(0), s3);
    assert s3.fs.claims - {slot} == map[];
    ReachableStep(s3, Go(0), t);
  }

  /** The second look at the done marker is needed: for any sendable message worker 1 may
      look before, and create its claim file after, worker 0 claims and completes it. */
  lemma TentativeClaimReachable(envelope: Envelope) returns (t: State)
    requires ValidMessageId(envelope.messageId) && envelope.respondsTo == None && SafeDir(envelope.receiver).Some?
    ensures var slot := Slot(SafeDir(envelope.receiver).value, envelope.messageId);
            Reachable(t) && PcOf(t, 1) == Recheck(slot, envelope.receiver, envelope) && slot in t.fs.done
  {
    var agentId := envelope.receiver;
    var slot := Slot(SafeDir(agentId).value, envelope.messageId);
    var s0 := INITIAL.(fs := Files(map[slot := envelope], map[], {}));
    var s1 := Move(s0, 1, CheckDone(slot, agentId));
    var s2 := Move(s1, 1, ReadInbox(slot, agentId));
    var s3 := Move(s2, 1, CreateClaim(slot, agentId, envelope));
    assert Run(INITIAL, []).state == INITIAL;
    ReachableStep(INITIAL, Send(envelope), s0);
    ReachableStep(s0, Claim(1, agentId, slot.id), s1);
    ReachableStep(s1, Go(1), s2);
    ReachableStep(s2, Go(1), s3);
    var held := HoldingReachable(s3, agentId, envelope, slot);
    var done := DoneReachable(held, envelope, slot);
    t := Move(done.(fs := done.fs.(claims := map[slot := 1])), 1, Recheck(slot, agentId, envelope));
    ReachableStep(done, Go(1), t);
  }

  /** When the send of a freshly minted id is successful, in any state, and else why not. */
  lemma SendStepOutcome(s: State, e: Envelope)
    requires MessageId(e.messageId)
    ensures var event, dir := Step(s, Send(e)).1, SafeDir(e.receiver);
            var nowhere := e.receiver == "" || e.receiver == "." || e.receiver == "..";
            && (event == Sent(e) <==>
                  && (e.respondsTo == None || MessageId(e.respondsTo.value))
                  && !nowhere
                  && Slot(dir.value, e.messageId) !in s.fs.inbox)
            && (event != Sent(e) ==>
                  event == SendFailed(e, if e.respondsTo.Some? && !MessageId(e.respondsTo.value) then InvalidRespondsTo
                                         else if nowhere then UnsafeAgentId
                                         else FileExists))
  {
    MessageIdCharacters(e.messageId);
    SafeDirCharacters(e.receiver);
    SendOutcome(s.fs, e);
  }

  // Listing

  /** The message `envelope` is filed at `slot`. */
  predicate FiledAt(envelope: Envelope, slot: Slot) {
    SafeDir(envelope.receiver) == Some(slot.dir) && envelope.messageId == slot.id
  }

  lemma InboxStep(s: State, a: Action, slot: Slot, envelope: Envelope)
    requires WellFormed(s.fs)
    ensures slot in Step(s, a).0.fs.inbox && Step(s, a).0.fs.inbox[slot] == envelope
            <==> || (slot in s.fs.inbox && s.fs.inbox[slot] == envelope)
                 || (Step(s, a).1 == Sent(envelope) && FiledAt(envelope, slot))
  {
  }

  lemma {:induction false} InboxIsWhatWasSent(actions: seq<Action>, slot: Slot, envelope: Envelope)
    ensures var h := Run(INITIAL, actions);
            slot in h.state.fs.inbox && h.state.fs.inbox[slot] == envelope
            <==> Sent(envelope) in h.events && FiledAt(envelope, slot)
  {
    if actions == [] {
    } else {
      var before, a := Run(INITIAL, actions[..|actions| - 1]), actions[|actions| - 1];
      InboxIsWhatWasSent(actions[..|actions| - 1], slot, envelope);
      InvariantAlways(actions[..|actions| - 1]);
      InboxStep(before.state, a, slot, envelope);
      assert Run(INITIAL, actions).events == before.events + [Step(before.state, a).1];
    }
  }

  ghost predicate FinishedIn(labels: seq<Label>, slot: Slot) {
    exists p :: Finish(p, slot) in labels
  }

  lemma DoneStep(s: State, a: Action, slot: Slot)
    ensures slot in Step(s, a).0.fs.done <==> slot in s.fs.done || IsFinish(LabelOf(s, a), None, slot)
  {
  }

  lemma {:induction false} DoneIsWhatWasFinished(actions: seq<Action>, slot: Slot)
    ensures var h := Run(INITIAL, actions);
            slot in h.state.fs.done <==> FinishedIn(h.labels, slot)
  {
    if actions == [] {
    } else {
      var before, a := Run(INITIAL, actions[..|actions| - 1]), actions[|actions| - 1];
      DoneIsWhatWasFinished(actions[..|actions| - 1], slot);
      var l := LabelOf(before.state, a);
      DoneStep(before.state, a, slot);
      assert Run(INITIAL, actions).labels == before.labels + [l];
      if FinishedIn(before.labels, slot) {
        var p :| Finish(p, slot) in before.labels;
        assert Finish(p, slot) in before.labels + [l];
      }
      if l.Finish? {
        assert l in before.labels + [l];
      }
    }
  }

  lemma PendingMembers(fs: Files, dir: string, envelope: Envelope)
    requires WellFormed(fs)
    ensures envelope in PendingSpec(fs, dir) <==>
              var slot := Slot(dir, envelope.messageId);
              slot in fs.inbox && fs.inbox[slot] == envelope && slot !in fs.done
  {
    var ids := Sorted(PendingIds(fs, dir));
    if envelope in PendingSpec(fs, dir) {
      var i :| 0 <= i < |ids| && PendingSpec(fs, dir)[i] == envelope;
      assert ids[i] in PendingIds(fs, dir);
    }
    var slot := Slot(dir, envelope.messageId);
    if slot in fs.inbox && fs.inbox[slot] == envelope && slot !in fs.done {
      assert slot.id in ids;
      var i :| 0 <= i < |ids| && ids[i] == slot.id;
      assert PendingSpec(fs, dir)[i] == envelope;
    }
  }

  /** In every run, whatever claims and releases happened, the listing of a directory is the
      messages filed there and not completed. */
  lemma PendingIsSentMinusFinished(actions: seq<Action>, dir: string, envelope: Envelope)
    ensures var h := Run(INITIAL, actions);
            envelope in PendingSpec(h.state.fs, dir) <==>
              && Sent(envelope) in h.events
              && SafeDir(envelope.receiver) == Some(dir)
              && !FinishedIn(h.labels, Slot(dir, envelope.messageId))
  {
    InvariantAlways(actions);
    PendingMembers(Run(INITIAL, actions).state.fs, dir, envelope);
    InboxIsWhatWasSent(actions, Slot(dir, envelope.messageId), envelope);
    DoneIsWhatWasFinished(actions, Slot(dir, envelope.messageId));
  }

  /** When all receivers are canonical, `pending(a)` is exactly the messages sent to `a` and
      not completed. */
  lemma PendingOfCanonicalAgent(actions: seq<Action>, agentId: string, envelope: Envelope)
    requires CanonicalAgentId(agentId)
    requires forall e: Envelope :: Sent(e) in Run(INITIAL, actions).events ==> CanonicalAgentId(e.receiver)
    ensures SafeDir(agentId).Some?
    ensures var h, dir := Run(INITIAL, actions), SafeDir(agentId).value;
            envelope in PendingSpec(h.state.fs, dir) <==>
              && Sent(envelope) in h.events
              && envelope.receiver == agentId
              && !FinishedIn(h.labels, Slot(dir, envelope.messageId))
  {
    SafeDirInjective(agentId, agentId);
    PendingIsSentMinusFinished(actions, SafeDir(agentId).value, envelope);
    if Sent(envelope) in Run(INITIAL, actions).events && SafeDir(envelope.receiver) == SafeDir(agentId) {
      SafeDirInjective(envelope.receiver, agentId);
    }
  }

  /** The listing is in message-id order. */
  lemma PendingInIdOrder(fs: Files, dir: string)
    requires WellFormed(fs)
    ensures Increasing(Map(PendingSpec(fs, dir), (e: Envelope) => e.messageId))
  {
    var ids := Sorted(PendingIds(fs, dir));
    forall i | 0 <= i < |ids| ensures PendingSpec(fs, dir)[i].messageId == ids[i] {
      assert ids[i] in PendingIds(fs, dir);
    }
  }

  /** A listed message that belongs to another agent of the same directory cannot be claimed:
      the listing does not look at the receiver, the claim does. */
  lemma ListedButNotAddressed(fs: Files, agentId: string, envelope: Envelope, pid: nat)
    requires WellFormed(fs) && SafeDir(agentId).Some? && envelope in PendingSpec(fs, SafeDir(agentId).value)
    ensures ClaimSpec(fs, agentId, envelope.messageId, pid).1 == Failed(NotAddressed) <==> envelope.receiver != agentId
  {
    PendingMembers(fs, SafeDir(agentId).value, envelope);
  }
}
