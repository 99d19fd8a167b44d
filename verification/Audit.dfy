/** The hash-chained audit log (audit.py). The canonical JSON form and SHA-256 are
    arbitrary functions: nothing is assumed about them. */
module Audit {

  const SIXTEEN_ZEROS: string := "0000000000000000"
  const GENESIS_HASH: string := SIXTEEN_ZEROS + SIXTEEN_ZEROS + SIXTEEN_ZEROS + SIXTEEN_ZEROS

  /** What an event's hash commits to. */
  datatype Fields<P> = Fields(
    eventId: string,
    eventType: string,
    occurredAt: string,
    actor: string,
    payload: P,
    previousHash: string)

  datatype AuditEvent<P> = AuditEvent(fields: Fields<P>, eventHash: string)

  datatype Hasher<!P> = Hasher(canonical: Fields<P> -> string, sha256: string -> string) {
    function ComputeHash(fields: Fields<P>): string {
      sha256(canonical(fields))
    }
  }

  /** The hash the event at position `i` must chain to. */
  function HashBefore<P>(events: seq<AuditEvent<P>>, i: nat): string
    requires i <= |events|
  {
    if i == 0 then GENESIS_HASH else events[i - 1].eventHash
  }

  /** The hash the next event will chain to. */
  function Head<P>(events: seq<AuditEvent<P>>): string {
    HashBefore(events, |events|)
  }

  ghost predicate LinkHolds<P>(h: Hasher<P>, events: seq<AuditEvent<P>>, i: nat)
    requires i < |events|
  {
    && events[i].fields.previousHash == HashBefore(events, i)
    && events[i].eventHash == h.ComputeHash(events[i].fields)
  }

  ghost predicate Verifies<P>(h: Hasher<P>, events: seq<AuditEvent<P>>) {
    forall i :: 0 <= i < |events| ==> LinkHolds(h, events, i)
  }

  function NextEvent<P>(
    h: Hasher<P>, events: seq<AuditEvent<P>>,
    eventId: string, eventType: string, occurredAt: string, actor: string, payload: P): AuditEvent<P>
  {
    var fields := Fields(eventId, eventType, occurredAt, actor, payload, Head(events));
    AuditEvent(fields, h.ComputeHash(fields))
  }

  class AuditLog<P> {
    const hasher: Hasher<P>
    var events: seq<AuditEvent<P>>

    constructor (hasher: Hasher<P>)
      ensures events == [] && this.hasher == hasher
    {
      this.hasher := hasher;
      events := [];
    }

    /** `eventId` and `now` are the fresh id and the clock reading. */
    method Append(eventType: string, actor: string, payload: P, eventId: string, now: string)
      returns (event: AuditEvent<P>)
      modifies this`events
      ensures events == old(events) + [event]
      ensures event == NextEvent(hasher, old(events), eventId, eventType, now, actor, payload)
      ensures Verifies(hasher, old(events)) <==> Verifies(hasher, events)
    {
      var previousHash := if |events| > 0 then events[|events| - 1].eventHash else GENESIS_HASH;
      var fields := Fields(eventId, eventType, now, actor, payload, previousHash);
      event := AuditEvent(fields, hasher.ComputeHash(fields));
      AppendKeepsVerification(hasher, events, eventId, eventType, now, actor, payload);
      events := events + [event];
    }

    method Verify() returns (ok: bool)
      ensures ok <==> Verifies(hasher, events)
    {
      var expectedPrevious := GENESIS_HASH;
      for i := 0 to |events|
        invariant expectedPrevious == HashBefore(events, i)
        invariant forall k :: 0 <= k < i ==> LinkHolds(hasher, events, k)
      {
        var event := events[i];
        assert LinkHolds(hasher, events, i) <==>
                 event.fields.previousHash == expectedPrevious && event.eventHash == hasher.ComputeHash(event.fields);
        if event.fields.previousHash != expectedPrevious {
          return false;
        }
        if hasher.ComputeHash(event.fields) != event.eventHash {
          return false;
        }
        expectedPrevious := event.eventHash;
      }
      return true;
    }
  }

  lemma GenesisIsZeros()
    ensures |GENESIS_HASH| == 64 && forall i :: 0 <= i < 64 ==> GENESIS_HASH[i] == '0'
  {
    assert |SIXTEEN_ZEROS| == 16 && forall i :: 0 <= i < 16 ==> SIXTEEN_ZEROS[i] == '0';
  }

  /** In a log that verifies the first event chains to sixty-four zeros and each other one to the hash of
      all fields of the event before it. */
  lemma ChainFromGenesis<P>(h: Hasher<P>, events: seq<AuditEvent<P>>, i: nat)
    requires Verifies(h, events) && i < |events|
    ensures var previous := events[i].fields.previousHash;
            if i == 0 then |previous| == 64 && forall k :: 0 <= k < 64 ==> previous[k] == '0'
            else previous == h.sha256(h.canonical(events[i - 1].fields))
  {
    assert LinkHolds(h, events, i);
    if i == 0 {
      GenesisIsZeros();
    } else {
      assert LinkHolds(h, events, i - 1);
    }
  }

  lemma VerifiesSnoc<P>(h: Hasher<P>, events: seq<AuditEvent<P>>, e: AuditEvent<P>)
    ensures Verifies(h, events + [e]) <==>
              && Verifies(h, events)
              && e.fields.previousHash == Head(events)
              && e.eventHash == h.ComputeHash(e.fields)
  {
    var more := events + [e];
    forall i | 0 <= i < |events| ensures LinkHolds(h, more, i) <==> LinkHolds(h, events, i) {
    }
    assert LinkHolds(h, more, |events|) <==>
             e.fields.previousHash == Head(events) && e.eventHash == h.ComputeHash(e.fields);
    if Verifies(h, more) {
      assert forall i :: 0 <= i < |events| ==> LinkHolds(h, more, i);
    }
  }

  lemma AppendKeepsVerification<P>(
    h: Hasher<P>, events: seq<AuditEvent<P>>,
    eventId: string, eventType: string, now: string, actor: string, payload: P)
    ensures Verifies(h, events) <==>
            Verifies(h, events + [NextEvent(h, events, eventId, eventType, now, actor, payload)])
  {
    VerifiesSnoc(h, events, NextEvent(h, events, eventId, eventType, now, actor, payload));
  }

  // Tamper evidence

  /** Evidence that the hashing is broken: two records with one canonical form, two texts
      with one hash, or a text hashing to the genesis value. */
  datatype Break<P> =
    | CanonicalClash(f: Fields<P>, g: Fields<P>)
    | HashCollision(x: string, y: string)
    | GenesisPreimage(x: string)

  predicate Genuine<P(==)>(h: Hasher<P>, b: Break<P>) {
    match b
    case CanonicalClash(f, g) => f != g && h.canonical(f) == h.canonical(g)
    case HashCollision(x, y) => x != y && h.sha256(x) == h.sha256(y)
    case GenesisPreimage(x) => h.sha256(x) == GENESIS_HASH
  }

  lemma LastLink<P>(h: Hasher<P>, events: seq<AuditEvent<P>>)
    requires Verifies(h, events) && events != []
    ensures var before, e := events[..|events| - 1], events[|events| - 1];
            && events == before + [e]
            && Verifies(h, before)
            && e.fields.previousHash == Head(before)
            && e.eventHash == h.ComputeHash(e.fields)
  {
    var before, e := events[..|events| - 1], events[|events| - 1];
    assert events == before + [e];
    VerifiesSnoc(h, before, e);
  }

  /** The head hash commits to the whole history: two different verifying logs with one
      head hash, of whatever lengths, let this function compute a genuine break. */
  function FindBreak<P(==)>(h: Hasher<P>, xs: seq<AuditEvent<P>>, ys: seq<AuditEvent<P>>): (b: Break<P>)
    requires Verifies(h, xs) && Verifies(h, ys)
    requires Head(xs) == Head(ys) && xs != ys
    ensures Genuine(h, b)
  {
    if xs == [] then
      LastLink(h, ys);
      GenesisPreimage(h.canonical(ys[|ys| - 1].fields))
    else if ys == [] then
      LastLink(h, xs);
      GenesisPreimage(h.canonical(xs[|xs| - 1].fields))
    else
      var x, y := xs[|xs| - 1], ys[|ys| - 1];
      LastLink(h, xs);
      LastLink(h, ys);
      if x.fields == y.fields then FindBreak(h, xs[..|xs| - 1], ys[..|ys| - 1])
      else if h.canonical(x.fields) == h.canonical(y.fields) then CanonicalClash(x.fields, y.fields)
      else HashCollision(h.canonical(x.fields), h.canonical(y.fields))
  }

  /** `verify()` accepts every prefix, so it cannot see events deleted from the end. */
  lemma PrefixVerifies<P>(h: Hasher<P>, events: seq<AuditEvent<P>>, n: nat)
    requires Verifies(h, events) && n <= |events|
    ensures Verifies(h, events[..n])
  {
    forall i | 0 <= i < n ensures LinkHolds(h, events[..n], i) {
      assert LinkHolds(h, events, i);
    }
  }

  /** Deleting the run `[i, j)` from a verifying log goes unseen exactly when it is the end
      of the log or the hash to chain to was the same before and after the run. */
  lemma DeletionSeenIff<P>(h: Hasher<P>, events: seq<AuditEvent<P>>, i: nat, j: nat)
    requires Verifies(h, events) && i <= j <= |events|
    ensures Verifies(h, events[..i] + events[j..]) <==>
              j == |events| || HashBefore(events, i) == HashBefore(events, j)
  {
    var rest := events[..i] + events[j..];
    forall k | 0 <= k < |rest| && k != i ensures LinkHolds(h, rest, k) {
      var k' := if k < i then k else k - i + j;
      assert LinkHolds(h, events, k');
    }
    if j < |events| {
      assert LinkHolds(h, events, j);
      assert LinkHolds(h, rest, i) <==> HashBefore(events, i) == HashBefore(events, j);
    }
  }

  /** Replacing the event at `i` goes unseen exactly when the new one is hashed correctly,
      chains to the same predecessor, and (unless it is the last) has the same hash. */
  lemma ReplacementSeenIff<P>(h: Hasher<P>, events: seq<AuditEvent<P>>, i: nat, e: AuditEvent<P>)
    requires Verifies(h, events) && i < |events|
    ensures Verifies(h, events[i := e]) <==>
              && e.eventHash == h.ComputeHash(e.fields)
              && e.fields.previousHash == events[i].fields.previousHash
              && (i + 1 < |events| ==> e.eventHash == events[i].eventHash)
  {
    var altered := events[i := e];
    forall k | 0 <= k < |events| && k != i && k != i + 1 ensures LinkHolds(h, altered, k) {
      assert LinkHolds(h, events, k);
    }
    assert LinkHolds(h, events, i);
    assert LinkHolds(h, altered, i) <==>
             e.eventHash == h.ComputeHash(e.fields) && e.fields.previousHash == events[i].fields.previousHash;
    if i + 1 < |events| {
      assert LinkHolds(h, events, i + 1);
      assert LinkHolds(h, altered, i + 1) <==> e.eventHash == events[i].eventHash;
    }
  }

  /** A replacement `verify()` misses before the last event is itself a break. */
  lemma UnseenReplacementBreaksHash<P>(h: Hasher<P>, events: seq<AuditEvent<P>>, i: nat, e: AuditEvent<P>)
    returns (b: Break<P>)
    requires Verifies(h, events) && i + 1 < |events| && e != events[i]
    requires Verifies(h, events[i := e])
    ensures Genuine(h, b)
  {
    var altered := events[i := e];
    PrefixVerifies(h, events, i + 1);
    PrefixVerifies(h, altered, i + 1);
    ReplacementSeenIff(h, events, i, e);
    assert events[..i + 1][i] != altered[..i + 1][i];
    b := FindBreak(h, events[..i + 1], altered[..i + 1]);
  }
}
