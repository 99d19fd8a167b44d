/** The filesystem message bus (transport/filesystem.py). A file is present or absent and
    holds an immutable record; each file operation is one atomic step. Between two steps of
    a method other processes may run: `Yield` stands for anything they can do. */
module Filesystem {
  import opened Lists
  import opened StringOrder
  import Protocol

  datatype Kind = MessageKind | TaskKind

  datatype Envelope = Envelope(
    messageId: string,
    sender: string,
    receiver: string,
    kind: Kind,
    payload: Protocol.Dict,
    respondsTo: Option<string>,
    createdAt: string)

  // Names

  predicate HexDigit(c: char) {
    '0' <= c <= '9' || 'a' <= c <= 'f'
  }

  predicate ValidMessageId(id: string) {
    |id| == 36 && id[..4] == "msg-" && forall i :: 4 <= i < 36 ==> HexDigit(id[i])
  }

  /** `msg-` and 32 hexadecimal digits, character by character. */
  predicate MessageId(id: string) {
    && |id| == 36
    && id[0] == 'm' && id[1] == 's' && id[2] == 'g' && id[3] == '-'
    && forall i :: 4 <= i < 36 ==> id[i] in "0123456789abcdef"
  }

  /** A message id is `msg-` and then 32 lower-case hexadecimal digits. */
  lemma MessageIdCharacters(id: string)
    ensures ValidMessageId(id) <==> MessageId(id)
  {
    assert |id| == 36 ==> id[..4] == [id[0], id[1], id[2], id[3]];
    forall c: char ensures HexDigit(c) <==> c in "0123456789abcdef" {
      HexDigits(c);
    }
  }

  lemma HexDigits(c: char)
    ensures HexDigit(c) <==> c in "0123456789abcdef"
  {
    var digits := "0123456789abcdef";
    assert digits[0] == '0' && digits[1] == '1' && digits[2] == '2' && digits[3] == '3' && digits[4] == '4';
    assert digits[5] == '5' && digits[6] == '6' && digits[7] == '7' && digits[8] == '8' && digits[9] == '9';
    assert digits[10] == 'a' && digits[11] == 'b' && digits[12] == 'c' && digits[13] == 'd';
    assert digits[14] == 'e' && digits[15] == 'f';
    if HexDigit(c) {
      var i := if c <= '9' then c as int - '0' as int else c as int - 'a' as int + 10;
      assert digits[i] == c;
    }
  }

  predicate SafeChar(c: char) {
    'A' <= c <= 'Z' || 'a' <= c <= 'z' || '0' <= c <= '9' || c == '_' || c == '.' || c == '-'
  }

  function Sanitized(agentId: string): string {
    Map(agentId, (c: char) => if SafeChar(c) then c else '_')
  }

  /** `_safe_dir`; `None` is the TransportError. */
  function SafeDir(agentId: string): Option<string> {
    var safe := Sanitized(agentId);
    if safe in ["", ".", ".."] then None else Some(safe)
  }

  /** Letters, digits, `_`, `.` and `-` stay, every other character becomes `_`, and the only ids
      refused are the empty one, `.` and `..`. */
  lemma SafeDirCharacters(agentId: string)
    ensures SafeDir(agentId) == None <==> agentId == "" || agentId == "." || agentId == ".."
    ensures SafeDir(agentId).Some? ==>
              var dir := SafeDir(agentId).value;
              && |dir| == |agentId|
              && forall i :: 0 <= i < |agentId| ==>
                   var c := agentId[i];
                   dir[i] == if || 'a' <= c <= 'z' || 'A' <= c <= 'Z' || '0' <= c <= '9'
                                || c == '_' || c == '.' || c == '-'
                             then c else '_'
  {
    var safe := Sanitized(agentId);
    forall i | 0 <= i < |agentId| ensures safe[i] == '.' <==> agentId[i] == '.' {
    }
    assert safe == "." <==> agentId == ".";
    assert safe == ".." <==> agentId == "..";
  }

  /** The ids this project mints: `agent:` and then only characters `_safe_dir` keeps. */
  predicate CanonicalAgentId(agentId: string) {
    |agentId| >= 6 && agentId[..6] == "agent:" && forall i :: 6 <= i < |agentId| ==> SafeChar(agentId[i])
  }

  /** Distinct canonical ids get distinct directories. */
  lemma SafeDirInjective(a: string, b: string)
    requires CanonicalAgentId(a) && CanonicalAgentId(b)
    requires SafeDir(a) == SafeDir(b)
    ensures a == b && SafeDir(a).Some?
  {
    var x, y := Sanitized(a), Sanitized(b);
    assert x[0] == 'a' && y[0] == 'a' && x[1] == 'g' && y[1] == 'g' by {
      assert a[..6][0] == 'a' && a[..6][1] == 'g' && b[..6][0] == 'a' && b[..6][1] == 'g';
    }
    assert x == y;
    forall i | 0 <= i < |a| ensures a[i] == b[i] {
      if i < 6 {
        assert a[..6][i] == b[..6][i];
      } else {
        assert x[i] == y[i];
      }
    }
  }

  /** Outside the canonical form two agents can share a directory. */
  lemma SafeDirCollision()
    ensures SafeDir("agent:a:0") == SafeDir("agent:a_0") == Some("agent_a_0")
  {
    assert Sanitized("agent:a:0") == "agent_a_0" == Sanitized("agent:a_0");
  }

  /** `sorted` compares file names; on message ids that is the order of the ids. */
  lemma FileNameOrder(id1: string, id2: string)
    requires ValidMessageId(id1) && ValidMessageId(id2)
    ensures Less(id1 + ".json", id2 + ".json") <==> Less(id1, id2)
  {
    LessWithSuffix(id1, id2, ".json");
  }

  // Files

  /** The place of one message: its agent's directory and its id. */
  datatype Slot = Slot(dir: string, id: string)

  /** `claims` records which process wrote a claim file (its `pid` field). */
  datatype Files = Files(inbox: map<Slot, Envelope>, claims: map<Slot, nat>, done: set<Slot>)

  /** The claims process `pid` wrote. */
  ghost function Mine(fs: Files, pid: nat): set<Slot> {
    set slot | slot in fs.claims && fs.claims[slot] == pid
  }

  /** Only `send` writes inbox files, under the receiver's directory and the message id. */
  ghost predicate WellFormed(fs: Files) {
    forall slot :: slot in fs.inbox ==>
      && ValidMessageId(slot.id)
      && fs.inbox[slot].messageId == slot.id
      && SafeDir(fs.inbox[slot].receiver) == Some(slot.dir)
  }

  /** Inbox files and done markers are never changed or removed. */
  ghost predicate Grown(a: Files, b: Files) {
    && (forall slot :: slot in a.inbox ==> slot in b.inbox && b.inbox[slot] == a.inbox[slot])
    && a.done <= b.done
  }

  /** What the other processes can do while `pid` is between two steps: files only
      accumulate, and neither the claims of `pid` nor the messages under them are touched. */
  ghost predicate Interference(a: Files, b: Files, pid: nat) {
    && Grown(a, b)
    && Mine(a, pid) == Mine(b, pid)
    && (forall slot :: slot in Mine(a, pid) ==> (slot in b.done <==> slot in a.done))
  }

  // The operations on their own

  datatype Failure =
    | InvalidMessageId
    | InvalidRespondsTo
    | UnsafeAgentId
    | AlreadyProcessed
    | NoSuchMessage
    | NotAddressed
    | AlreadyClaimed
    | ProcessedConcurrently
    | NoClaimHeld
    | FileExists
    | FileMissing

  datatype Answer<+T> = Returned(value: T) | Failed(why: Failure)

  /** The checks every path-building operation starts with. */
  function SlotOf(agentId: string, id: string): Answer<Slot> {
    if !ValidMessageId(id) then Failed(InvalidMessageId)
    else if SafeDir(agentId).None? then Failed(UnsafeAgentId)
    else Returned(Slot(SafeDir(agentId).value, id))
  }

  function SendSpec(fs: Files, envelope: Envelope): (Files, Answer<string>) {
    var dir := SafeDir(envelope.receiver);
    if envelope.respondsTo.Some? && !ValidMessageId(envelope.respondsTo.value) then (fs, Failed(InvalidRespondsTo))
    else if dir.None? then (fs, Failed(UnsafeAgentId))
    else
      var slot := Slot(dir.value, envelope.messageId);
      if slot in fs.inbox then (fs, Failed(FileExists))
      else (fs.(inbox := fs.inbox[slot := envelope]), Returned(envelope.messageId))
  }

  /** `claim` with no other process about. */
  function ClaimSpec(fs: Files, agentId: string, id: string, pid: nat): (Files, Answer<Envelope>) {
    match SlotOf(agentId, id)
    case Failed(why) => (fs, Failed(why))
    case Returned(slot) =>
      if slot in fs.done then (fs, Failed(AlreadyProcessed))
      else if slot !in fs.inbox then (fs, Failed(NoSuchMessage))
      else if fs.inbox[slot].receiver != agentId then (fs, Failed(NotAddressed))
      else if slot in fs.claims then (fs, Failed(AlreadyClaimed))
      else (fs.(claims := fs.claims[slot := pid]), Returned(fs.inbox[slot]))
  }

  /** `complete` with no other process about. */
  function CompleteSpec(fs: Files, agentId: string, id: string): (Files, Answer<()>) {
    match SlotOf(agentId, id)
    case Failed(why) => (fs, Failed(why))
    case Returned(slot) =>
      if slot !in fs.claims then (fs, Failed(NoClaimHeld))
      else if slot in fs.done then (fs, Failed(FileExists))
      else (fs.(claims := fs.claims - {slot}, done := fs.done + {slot}), Returned(()))
  }

  /** `release` with no other process about. */
  function ReleaseSpec(fs: Files, agentId: string, id: string): (Files, Answer<()>) {
    match SlotOf(agentId, id)
    case Failed(why) => (fs, Failed(why))
    case Returned(slot) =>
      if slot !in fs.claims then (fs, Failed(NoClaimHeld))
      else (fs.(claims := fs.claims - {slot}), Returned(()))
  }

  /** Ids in an agent's directory that have no done marker. */
  ghost function PendingIds(fs: Files, dir: string): set<string> {
    set slot | slot in fs.inbox && slot.dir == dir && slot !in fs.done :: slot.id
  }

  /** `names` is the sorted listing of the directory. */
  ghost predicate AllNames(fs: Files, dir: string, names: seq<string>) {
    Increasing(names) && forall name :: name in names <==> Slot(dir, name) in fs.inbox
  }

  /** `sorted(inbox.glob("msg-*.json"))` */
  function Listing(fs: Files, dir: string): (names: seq<string>)
    ensures AllNames(fs, dir, names)
  {
    Sorted(set slot | slot in fs.inbox && slot.dir == dir :: slot.id)
  }

  /** The envelopes of the messages `ids` of a directory. */
  function Letters(fs: Files, dir: string, ids: seq<string>): seq<Envelope>
    requires forall id :: id in ids ==> Slot(dir, id) in fs.inbox
  {
    seq(|ids|, i requires 0 <= i < |ids| => fs.inbox[Slot(dir, ids[i])])
  }

  /** `pending` with no other process about. */
  ghost function PendingSpec(fs: Files, dir: string): seq<Envelope> {
    Letters(fs, dir, Sorted(PendingIds(fs, dir)))
  }

  class FilesystemTransport {
    /** The directory tree under the root, which all processes share. */
    var disk: Files

    constructor ()
      ensures disk == Files(map[], map[], {})
    {
      disk := Files(map[], map[], {});
    }

    /** The other processes run; `alone` says there are none. */
    method Yield(pid: nat, ghost alone: bool)
      modifies this
      ensures Interference(old(disk), disk, pid)
      ensures alone ==> disk == old(disk)
    {
    }

    /** The message id is freshly minted by the caller. */
    method Send(envelope: Envelope) returns (r: Answer<string>)
      modifies this
      ensures (disk, r) == SendSpec(old(disk), envelope)
      ensures r.Returned? <==>
                && (envelope.respondsTo.Some? ==> MessageId(envelope.respondsTo.value))
                && envelope.receiver != "" && envelope.receiver != "." && envelope.receiver != ".."
                && Slot(SafeDir(envelope.receiver).value, envelope.messageId) !in old(disk.inbox)
    {
      SendOutcome(disk, envelope);
      if envelope.respondsTo.Some? && !ValidMessageId(envelope.respondsTo.value) {
        return Failed(InvalidRespondsTo);
      }
      var dir := SafeDir(envelope.receiver);
      if dir.None? {
        return Failed(UnsafeAgentId);
      }
      var slot := Slot(dir.value, envelope.messageId);
      if slot in disk.inbox {
        return Failed(FileExists);
      }
      disk := disk.(inbox := disk.inbox[slot := envelope]);
      return Returned(envelope.messageId);
    }

    /** Alone, `pending` lists the unfinished messages of the directory in id order. Among
        other processes it still lists, in id order, every message that was there at the
        start and is unfinished at the end, and none that was finished at the start. */
    method Pending(agentId: string, pid: nat, ghost alone: bool)
      returns (r: Answer<seq<Envelope>>, ghost ids: seq<string>)
      modifies this
      ensures Grown(old(disk), disk)
      ensures r.Failed? <==> SafeDir(agentId).None?
      ensures r.Returned? ==> Scanned(old(disk), disk, SafeDir(agentId).value, ids, r.value)
      ensures r.Returned? && alone ==>
                disk == old(disk) && r.value == PendingSpec(disk, SafeDir(agentId).value)
    {
      var safe := SafeDir(agentId);
      ids := [];
      if safe.None? {
        return Failed(UnsafeAgentId), ids;
      }
      var dir := safe.value;
      Yield(pid, alone);
      ghost var start := disk;
      var names := Listing(disk, dir);
      var out: seq<Envelope> := [];
      for i := 0 to |names|
        invariant Listed(start, disk, dir, names[..i], ids, out)
        invariant alone ==> disk == start
      {
        var slot := Slot(dir, names[i]);
        ghost var before := disk;
        Yield(pid, alone);
        ListedStep(start, before, disk, dir, names, i, ids, out);
        if slot !in disk.done {
          out := out + [disk.inbox[slot]];
          ids := ids + [names[i]];
        }
      }
      ScanResult(old(disk), start, disk, dir, names, ids, out);
      return Returned(out), ids;
    }

    method Claim(agentId: string, id: string, pid: nat, ghost alone: bool) returns (r: Answer<Envelope>)
      modifies this
      ensures alone ==> (disk, r) == ClaimSpec(old(disk), agentId, id, pid)
      ensures r.Returned? ==>
                && SlotOf(agentId, id).Returned?
                && var slot := SlotOf(agentId, id).value;
                && slot !in old(Mine(disk, pid)) && Mine(disk, pid) == old(Mine(disk, pid)) + {slot}
                && slot !in disk.done
                && slot in disk.inbox && disk.inbox[slot] == r.value && r.value.receiver == agentId
      ensures r.Failed? ==> Mine(disk, pid) == old(Mine(disk, pid))
      ensures r.Failed? && SlotOf(agentId, id).Returned? ==>
                var slot := SlotOf(agentId, id).value;
                && (r.why == AlreadyProcessed ==> slot in disk.done)
                && (r.why == ProcessedConcurrently ==> slot in disk.done && slot !in old(disk.done))
      ensures Grown(old(disk), disk)
    {
      var place := SlotOf(agentId, id);
      if place.Failed? {
        return Failed(place.why);
      }
      var slot := place.value;
      Yield(pid, alone);
      if slot in disk.done {
        return Failed(AlreadyProcessed);
      }
      Yield(pid, alone);
      if slot !in disk.inbox {
        return Failed(NoSuchMessage);
      }
      var envelope := disk.inbox[slot];
      if envelope.receiver != agentId {
        return Failed(NotAddressed);
      }
      Yield(pid, alone);
      if slot in disk.claims {
        return Failed(AlreadyClaimed);
      }
      ghost var mine := Mine(disk, pid);
      disk := disk.(claims := disk.claims[slot := pid]);
      assert Mine(disk, pid) == mine + {slot};
      Yield(pid, alone);
      if slot in disk.done {
        Yield(pid, alone);
        disk := disk.(claims := disk.claims - {slot});
        assert Mine(disk, pid) == mine;
        return Failed(ProcessedConcurrently);
      }
      return Returned(envelope);
    }

    /** A caller that holds the claim always succeeds; nothing about a caller without it is
        checked beyond the existence of some claim. */
    method Complete(agentId: string, id: string, pid: nat, ghost alone: bool) returns (r: Answer<()>)
      modifies this
      ensures alone ==> (disk, r) == CompleteSpec(old(disk), agentId, id)
      ensures SlotOf(agentId, id).Returned? ==>
                var slot := SlotOf(agentId, id).value;
                && (slot in old(Mine(disk, pid)) && slot !in old(disk.done) ==>
                      r == Returned(()) && Mine(disk, pid) == old(Mine(disk, pid)) - {slot})
                && (r.Returned? ==> slot in disk.done)
      ensures Grown(old(disk), disk)
    {
      var place := SlotOf(agentId, id);
      if place.Failed? {
        return Failed(place.why);
      }
      var slot := place.value;
      ghost var mine := Mine(disk, pid);
      Yield(pid, alone);
      if slot !in disk.claims {
        return Failed(NoClaimHeld);
      }
      Yield(pid, alone);
      if slot in disk.done {
        return Failed(FileExists);
      }
      assert slot !in mine * disk.done;
      disk := disk.(done := disk.done + {slot});
      assert Mine(disk, pid) == mine;
      Yield(pid, alone);
      if slot !in disk.claims {
        return Failed(FileMissing);
      }
      disk := disk.(claims := disk.claims - {slot});
      assert Mine(disk, pid) == mine - {slot};
      return Returned(());
    }

    method Release(agentId: string, id: string, pid: nat, ghost alone: bool) returns (r: Answer<()>)
      modifies this
      ensures alone ==> (disk, r) == ReleaseSpec(old(disk), agentId, id)
      ensures SlotOf(agentId, id).Returned? ==>
                var slot := SlotOf(agentId, id).value;
                slot in old(Mine(disk, pid)) ==>
                  && r == Returned(())
                  && Mine(disk, pid) == old(Mine(disk, pid)) - {slot}
                  && slot !in disk.claims && (slot in disk.done <==> slot in old(disk.done))
      ensures Grown(old(disk), disk)
    {
      var place := SlotOf(agentId, id);
      if place.Failed? {
        return Failed(place.why);
      }
      var slot := place.value;
      Yield(pid, alone);
      if slot !in disk.claims {
        return Failed(NoClaimHeld);
      }
      Yield(pid, alone);
      if slot !in disk.claims {
        return Failed(FileMissing);
      }
      ghost var mine := Mine(disk, pid);
      disk := disk.(claims := disk.claims - {slot});
      assert Mine(disk, pid) == mine - {slot};
      return Returned(());
    }
  }

  /** `out` are the envelopes of the messages `ids` of a directory. */
  ghost predicate LettersOf(fs: Files, dir: string, ids: seq<string>, out: seq<Envelope>) {
    && |out| == |ids|
    && forall k :: 0 <= k < |ids| ==> Slot(dir, ids[k]) in fs.inbox && fs.inbox[Slot(dir, ids[k])] == out[k]
  }

  /** Of the directory entries `seen`, scanned between the states `start` and `now`, `ids`
      lists in order those found unfinished. */
  ghost predicate Listed(
    start: Files, now: Files, dir: string, seen: seq<string>, ids: seq<string>, out: seq<Envelope>)
  {
    && Grown(start, now)
    && Increasing(ids)
    && (forall id :: id in ids ==> id in seen && Slot(dir, id) !in start.done)
    && (forall id :: id in seen && id !in ids ==> Slot(dir, id) in now.done)
    && LettersOf(now, dir, ids, out)
  }

  /** What a scan of a directory that began in state `a` and ended in state `b` may report:
      in id order, every message there at the start and unfinished at the end, and none that
      was finished at the start. */
  ghost predicate Scanned(a: Files, b: Files, dir: string, ids: seq<string>, out: seq<Envelope>) {
    && Increasing(ids)
    && LettersOf(b, dir, ids, out)
    && (forall id :: id in ids ==> Slot(dir, id) !in a.done)
    && (forall id :: Slot(dir, id) in a.inbox && Slot(dir, id) !in b.done ==> id in ids)
  }

  /** One turn of the scan: the next name is looked at in state `now`. */
  lemma ListedStep(
    start: Files, before: Files, now: Files, dir: string,
    names: seq<string>, i: nat, ids: seq<string>, out: seq<Envelope>)
    requires i < |names| && AllNames(start, dir, names)
    requires Listed(start, before, dir, names[..i], ids, out) && Grown(before, now)
    ensures Slot(dir, names[i]) in now.inbox
    ensures if Slot(dir, names[i]) in now.done
            then Listed(start, now, dir, names[..i + 1], ids, out)
            else Listed(start, now, dir, names[..i + 1], ids + [names[i]], out + [now.inbox[Slot(dir, names[i])]])
  {
    assert names[..i + 1] == names[..i] + [names[i]];
    assert names[i] in names;
    forall k | 0 <= k < |ids| ensures Less(ids[k], names[i]) {
      assert ids[k] in names[..i];
      var j :| 0 <= j < i && names[..i][j] == ids[k];
      assert Less(names[j], names[i]);
    }
  }

  lemma ScanResult(
    entry: Files, start: Files, now: Files, dir: string,
    names: seq<string>, ids: seq<string>, out: seq<Envelope>)
    requires Grown(entry, start)
    requires AllNames(start, dir, names) && Listed(start, now, dir, names[..|names|], ids, out)
    ensures Scanned(entry, now, dir, ids, out)
    ensures start == now ==> out == PendingSpec(now, dir)
  {
    assert names[..|names|] == names;
    if start == now {
      forall id ensures id in ids <==> id in PendingIds(now, dir) {
        assert id in PendingIds(now, dir) <==> Slot(dir, id) in now.inbox && Slot(dir, id) !in now.done;
        if id in ids {
          var k :| 0 <= k < |ids| && ids[k] == id;
          assert Slot(dir, ids[k]) in now.inbox;
        }
      }
      SortedUnique(ids, Sorted(PendingIds(now, dir)));
    }
  }

  /** When a send succeeds, and else why not: the first of a malformed `responds_to`, an id with
      no safe directory and a file already there. Nothing else about the envelope matters, and
      only the one inbox file is added. */
  lemma SendOutcome(fs: Files, e: Envelope)
    ensures var (after, r) := SendSpec(fs, e);
            var repliesToNothing := e.respondsTo.Some? && !MessageId(e.respondsTo.value);
            var nowhere := e.receiver == "" || e.receiver == "." || e.receiver == "..";
            if repliesToNothing then (after, r) == (fs, Failed(InvalidRespondsTo))
            else if nowhere then (after, r) == (fs, Failed(UnsafeAgentId))
            else if Slot(SafeDir(e.receiver).value, e.messageId) in fs.inbox then (after, r) == (fs, Failed(FileExists))
            else
              && r == Returned(e.messageId)
              && after.claims == fs.claims && after.done == fs.done
              && after.inbox == fs.inbox[Slot(SafeDir(e.receiver).value, e.messageId) := e]
  {
    SafeDirCharacters(e.receiver);
    if e.respondsTo.Some? {
      MessageIdCharacters(e.respondsTo.value);
    }
  }

  /** When an undisturbed complete or release succeeds, and else why not; a release does not look at the
      done marker, and neither looks at who holds the claim. */
  lemma FinishOutcome(fs: Files, agentId: string, id: string)
    ensures var (completed, c) := CompleteSpec(fs, agentId, id);
            var (released, r) := ReleaseSpec(fs, agentId, id);
            if !MessageId(id) then c == r == Failed(InvalidMessageId) && completed == released == fs
            else if agentId == "" || agentId == "." || agentId == ".."
            then c == r == Failed(UnsafeAgentId) && completed == released == fs
            else
              var slot := Slot(SafeDir(agentId).value, id);
              && (r == Returned(()) <==> slot in fs.claims)
              && (c == Returned(()) <==> slot in fs.claims && slot !in fs.done)
              && (r.Failed? ==> released == fs && r.why == NoClaimHeld)
              && (c.Failed? ==> completed == fs && c.why == if slot in fs.claims then FileExists else NoClaimHeld)
              && (r.Returned? ==> released.inbox == fs.inbox && released.done == fs.done
                                  && released.claims == fs.claims - {slot})
              && (c.Returned? ==> completed.inbox == fs.inbox && completed.done == fs.done + {slot}
                                  && completed.claims == fs.claims - {slot})
  {
    SafeDirCharacters(agentId);
    MessageIdCharacters(id);
  }

  /** When an undisturbed claim succeeds, and else why not. */
  lemma ClaimOutcome(fs: Files, agentId: string, id: string, pid: nat)
    ensures var (after, r) := ClaimSpec(fs, agentId, id, pid);
            if !MessageId(id) then (after, r) == (fs, Failed(InvalidMessageId))
            else if agentId == "" || agentId == "." || agentId == ".." then (after, r) == (fs, Failed(UnsafeAgentId))
            else
              var slot := Slot(SafeDir(agentId).value, id);
              if slot in fs.done then (after, r) == (fs, Failed(AlreadyProcessed))
              else if slot !in fs.inbox then (after, r) == (fs, Failed(NoSuchMessage))
              else if fs.inbox[slot].receiver != agentId then (after, r) == (fs, Failed(NotAddressed))
              else if slot in fs.claims then (after, r) == (fs, Failed(AlreadyClaimed))
              else
                && r == Returned(fs.inbox[slot])
                && after.inbox == fs.inbox && after.done == fs.done && after.claims == fs.claims[slot := pid]
  {
    SafeDirCharacters(agentId);
    MessageIdCharacters(id);
  }

  /** A release undoes the claim it follows, and a completed message can neither be claimed
      again nor be listed again, while every other message stays as it was. */
  lemma ReleaseUndoesClaim(fs: Files, agentId: string, id: string, pid: nat)
    requires ClaimSpec(fs, agentId, id, pid).1.Returned?
    ensures ReleaseSpec(ClaimSpec(fs, agentId, id, pid).0, agentId, id) == (fs, Returned(()))
  {
    var slot := Slot(SafeDir(agentId).value, id);
    assert fs.claims[slot := pid] - {slot} == fs.claims;
  }

  lemma CompletionIsFinal(fs: Files, agentId: string, id: string, pid: nat, later: nat)
    requires ClaimSpec(fs, agentId, id, pid).1.Returned?
    ensures var done := CompleteSpec(ClaimSpec(fs, agentId, id, pid).0, agentId, id);
            && done.1.Returned?
            && ClaimSpec(done.0, agentId, id, later) == (done.0, Failed(AlreadyProcessed))
            && PendingIds(done.0, SafeDir(agentId).value) == PendingIds(fs, SafeDir(agentId).value) - {id}
            && (forall dir :: dir != SafeDir(agentId).value ==> PendingIds(done.0, dir) == PendingIds(fs, dir))
  {
    var dir := SafeDir(agentId).value;
    var after := CompleteSpec(ClaimSpec(fs, agentId, id, pid).0, agentId, id).0;
    assert after.inbox == fs.inbox && after.done == fs.done + {Slot(dir, id)};
    forall x ensures x in PendingIds(after, dir) <==> x in PendingIds(fs, dir) - {id} {
      assert x in PendingIds(after, dir) <==> Slot(dir, x) in fs.inbox && Slot(dir, x) !in after.done;
      assert x in PendingIds(fs, dir) <==> Slot(dir, x) in fs.inbox && Slot(dir, x) !in fs.done;
    }
  }
}
