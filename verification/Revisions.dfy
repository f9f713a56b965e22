/** Optimistic concurrency on a stored value: a write names the snapshot it was planned
    against, and every accepted write gives the value a revision never seen before. */
module Revisions {
  import opened Wrappers

  const BYTE: nat := 256
  const U64_LIMIT: nat := 0x1_0000_0000_0000_0000

  type RevisionByte = n: nat | n < BYTE
  type U64 = n: nat | n < U64_LIMIT

  datatype Snapshot<+C> = Snapshot(revision: seq<RevisionByte>, content: C)

  datatype Stored<+C> = Stored(initial: seq<RevisionByte>, number: U64, snapshot: Snapshot<C>)

  /** The `width` low bytes of a number, most significant first. */
  function BigEndian(n: nat, width: nat): (bytes: seq<RevisionByte>)
    ensures |bytes| == width
    decreases width
  {
    if width == 0 then [] else BigEndian(n / BYTE, width - 1) + [n % BYTE]
  }

  function FromBigEndian(bytes: seq<RevisionByte>): nat {
    if bytes == [] then 0 else FromBigEndian(bytes[..|bytes| - 1]) * BYTE + bytes[|bytes| - 1]
  }

  function Power(width: nat): nat {
    if width == 0 then 1 else Power(width - 1) * BYTE
  }

  lemma {:induction false} BigEndianRoundTrip(n: nat, width: nat)
    requires n < Power(width)
    ensures FromBigEndian(BigEndian(n, width)) == n
    decreases width
  {
    if width > 0 {
      BigEndianRoundTrip(n / BYTE, width - 1);
      assert BigEndian(n, width)[..width - 1] == BigEndian(n / BYTE, width - 1);
    }
  }

  lemma {:induction false} EightBytes()
    ensures Power(8) == U64_LIMIT
  {
    assert Power(4) == 256 * 256 * 256 * 256;
    assert Power(8) == Power(4) * 256 * 256 * 256 * 256;
  }

  /** The revision of the `number`th write: the initial one, then that followed by eight
      big-endian bytes. */
  function RevisionOf(initial: seq<RevisionByte>, number: U64): seq<RevisionByte> {
    if number == 0 then initial else initial + BigEndian(number, 8)
  }

  lemma {:induction false} RevisionsDiffer(initial: seq<RevisionByte>, a: U64, b: U64)
    requires RevisionOf(initial, a) == RevisionOf(initial, b)
    ensures a == b
  {
    EightBytes();
    BigEndianRoundTrip(a, 8);
    BigEndianRoundTrip(b, 8);
    if a > 0 && b > 0 {
      assert RevisionOf(initial, a)[|initial|..] == BigEndian(a, 8);
      assert RevisionOf(initial, b)[|initial|..] == BigEndian(b, 8);
    } else {
      assert |RevisionOf(initial, a)| == |initial| + if a == 0 then 0 else 8;
      assert |RevisionOf(initial, b)| == |initial| + if b == 0 then 0 else 8;
    }
  }

  predicate Numbered<C>(s: Stored<C>) {
    s.snapshot.revision == RevisionOf(s.initial, s.number)
  }

  function Opened<C>(snapshot: Snapshot<C>): (s: Stored<C>)
    ensures Numbered(s) && s.snapshot == snapshot
  {
    Stored(snapshot.revision, 0, snapshot)
  }

  datatype Refusal = Stale | Invalid | Exhausted

  /** A write of `next`, planned against `expected`; `next` is absent when validation
      rejects it. */
  function TryWrite<C(==)>(s: Stored<C>, expected: Snapshot<C>, next: Option<C>): (r: Result<Stored<C>, Refusal>) {
    if s.snapshot != expected then Failure(Stale)
    else if next.None? then Failure(Invalid)
    else if s.number + 1 >= U64_LIMIT then Failure(Exhausted)
    else Success(Stored(s.initial, s.number + 1, Snapshot(RevisionOf(s.initial, s.number + 1), next.value)))
  }

  datatype Attempt<+C> = Attempt(expected: Snapshot<C>, next: Option<C>)

  function AfterAttempt<C(==)>(s: Stored<C>, a: Attempt<C>): (after: Stored<C>) {
    var done := TryWrite(s, a.expected, a.next);
    if done.Success? then done.value else s
  }

  /** The value after other writers' attempts, accepted or not. */
  function AfterAll<C(==)>(s: Stored<C>, attempts: seq<Attempt<C>>): (after: Stored<C>)
    decreases |attempts|
  {
    if attempts == [] then s else AfterAll(AfterAttempt(s, attempts[0]), attempts[1..])
  }

  function Accepted<C(==)>(s: Stored<C>, attempts: seq<Attempt<C>>): nat
    decreases |attempts|
  {
    if attempts == [] then 0
    else
      (if TryWrite(s, attempts[0].expected, attempts[0].next).Success? then 1 else 0)
      + Accepted(AfterAttempt(s, attempts[0]), attempts[1..])
  }

  lemma {:induction false} WritesAreCounted<C>(s: Stored<C>, attempts: seq<Attempt<C>>)
    requires Numbered(s)
    ensures var after := AfterAll(s, attempts);
      && Numbered(after) && after.initial == s.initial && after.number == s.number + Accepted(s, attempts)
      && (Accepted(s, attempts) == 0 ==> after == s)
    decreases |attempts|
  {
    hide BigEndian;
    if attempts != [] {
      WritesAreCounted(AfterAttempt(s, attempts[0]), attempts[1..]);
    }
  }

  /** A snapshot is stale exactly when some write was accepted after it was taken, even if
      later writes restored the very same content. */
  lemma {:induction false} StaleMeansWritten<C>(s: Stored<C>, attempts: seq<Attempt<C>>)
    requires Numbered(s)
    ensures AfterAll(s, attempts).snapshot == s.snapshot <==> Accepted(s, attempts) == 0
    ensures Accepted(s, attempts) == 0 <==> AfterAll(s, attempts) == s
  {
    hide BigEndian;
    WritesAreCounted(s, attempts);
    var after := AfterAll(s, attempts);
    if after.snapshot == s.snapshot {
      RevisionsDiffer(s.initial, s.number, after.number);
    }
  }

  /** No lost update: a write planned against an earlier snapshot is accepted only when no
      other write was accepted in between, and a refused one changes nothing. */
  lemma {:induction false} NoLostUpdate<C>(s: Stored<C>, attempts: seq<Attempt<C>>, next: Option<C>)
    requires Numbered(s)
    ensures var done := TryWrite(AfterAll(s, attempts), s.snapshot, next);
      && (done.Success? ==> Accepted(s, attempts) == 0 && done.value.snapshot.content == next.value)
      && (done == Failure(Stale) <==> Accepted(s, attempts) > 0)
  {
    hide BigEndian;
    StaleMeansWritten(s, attempts);
  }
}
