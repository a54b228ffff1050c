/** The writers that bound what a command's output or an archive may take up. */
module BoundedWriters {
  type Bytes = seq<bv8>

  function Concat(writes: seq<Bytes>): Bytes {
    if writes == [] then [] else Concat(writes[..|writes| - 1]) + writes[|writes| - 1]
  }

  // The first max bytes; a limit below zero keeps none.
  function Kept(b: Bytes, max: int): Bytes {
    if max <= 0 then [] else if |b| <= max then b else b[..max]
  }

  predicate NonEmpty(writes: seq<Bytes>) {
    forall k :: 0 <= k < |writes| ==> writes[k] != []
  }

  // More was written than is kept.
  predicate Overflows(max: int, writes: seq<Bytes>) {
    |Concat(writes)| > if max <= 0 then 0 else max
  }

  /******* The output buffer of a command *******/

  datatype Capped = Capped(buf: Bytes, truncated: bool)

  function CappedWrite(max: int, s: Capped, p: Bytes): Capped {
    var remaining := max - |s.buf|;
    if remaining <= 0 then s.(truncated := true)
    else if |p| <= remaining then s.(buf := s.buf + p)
    else Capped(s.buf + p[..remaining], true)
  }

  function CappedWrites(max: int, writes: seq<Bytes>): Capped {
    if writes == [] then Capped([], false)
    else CappedWrite(max, CappedWrites(max, writes[..|writes| - 1]), writes[|writes| - 1])
  }

  class CappedBuffer {
    const max: int
    var buf: Bytes
    var truncated: bool

    constructor (max: int)
      ensures this.max == max && buf == [] && !truncated
    {
      this.max, buf, truncated := max, [], false;
    }

    method Write(p: Bytes) returns (n: nat)
      modifies this
      ensures n == |p|
      ensures Capped(buf, truncated) == CappedWrite(max, Capped(old(buf), old(truncated)), p)
    {
      var remaining := max - |buf|;
      if remaining <= 0 {
        truncated := true;
        return |p|;
      }
      if |p| <= remaining {
        buf := buf + p;
        return |p|;
      }
      buf := buf + p[..remaining];
      truncated := true;
      return |p|;
    }
  }

  // Some write was empty and came when nothing more fitted: it marks the output as cut although
  // nothing was lost.
  predicate SpilledEmpty(max: int, writes: seq<Bytes>) {
    exists k :: 0 <= k < |writes| && SpillsAt(max, writes, k)
  }

  predicate SpillsAt(max: int, writes: seq<Bytes>, k: nat)
    requires k < |writes|
  {
    writes[k] == [] && |Concat(writes[..k])| >= max
  }

  lemma SpilledEmptyNext(max: int, writes: seq<Bytes>)
    requires writes != []
    ensures var front := writes[..|writes| - 1];
            SpilledEmpty(max, writes) <==>
              SpilledEmpty(max, front) || (writes[|writes| - 1] == [] && |Concat(front)| >= max)
  {
    var front := writes[..|writes| - 1];
    forall k | 0 <= k < |front| ensures SpillsAt(max, front, k) <==> SpillsAt(max, writes, k) {
      assert front[..k] == writes[..k];
    }
    assert SpillsAt(max, writes, |front|) <==> writes[|front|] == [] && |Concat(front)| >= max;
  }

  // However the output is cut into writes, its first max bytes are kept.
  lemma {:induction false} CappedKeepsPrefix(max: int, writes: seq<Bytes>)
    ensures var s := CappedWrites(max, writes);
            && s.buf == Kept(Concat(writes), max)
            && (s.truncated <==> Overflows(max, writes) || SpilledEmpty(max, writes))
  {
    if writes != [] {
      var front := writes[..|writes| - 1];
      CappedKeepsPrefix(max, front);
      SpilledEmptyNext(max, writes);
    }
  }

  // With no empty write in it, the cut makes no difference at all, and truncated says exactly
  // whether something was lost.
  lemma CappedIgnoresChunking(max: int, a: seq<Bytes>, b: seq<Bytes>)
    requires NonEmpty(a) && NonEmpty(b) && Concat(a) == Concat(b)
    ensures CappedWrites(max, a) == CappedWrites(max, b)
    ensures CappedWrites(max, a).truncated <==> Overflows(max, a)
  {
    CappedKeepsPrefix(max, a);
    CappedKeepsPrefix(max, b);
  }

  /******* The buffer for an archiver's complaints *******/

  function BoundedWrite(max: int, buf: Bytes, p: Bytes): Bytes {
    if |buf| >= max then buf
    else if max - |buf| >= |p| then buf + p
    else buf + p[..max - |buf|]
  }

  class BoundedBuffer {
    const max: int
    var buf: Bytes

    constructor (max: int)
      ensures this.max == max && buf == []
    {
      this.max, buf := max, [];
    }

    method Write(p: Bytes) returns (n: nat)
      modifies this
      ensures n == |p|
      ensures buf == BoundedWrite(max, old(buf), p)
    {
      if |buf| >= max {
        return |p|;
      }
      var avail := max - |buf|;
      if avail >= |p| {
        buf := buf + p;
        return |p|;
      }
      buf := buf + p[..avail];
      return |p|;
    }
  }

  function BoundedWrites(max: int, writes: seq<Bytes>): Bytes {
    if writes == [] then [] else BoundedWrite(max, BoundedWrites(max, writes[..|writes| - 1]), writes[|writes| - 1])
  }

  lemma {:induction false} BoundedKeepsPrefix(max: int, writes: seq<Bytes>)
    ensures BoundedWrites(max, writes) == Kept(Concat(writes), max)
  {
    if writes != [] {
      BoundedKeepsPrefix(max, writes[..|writes| - 1]);
    }
  }

  /******* The archive's size limit *******/

  // What the writer underneath makes of a write: it takes so many of the bytes, and may fail.
  datatype Reply = Reply(taken: nat, fails: bool)

  datatype Counting = Counting(sink: Bytes, written: int, exceeded: bool)

  datatype Outcome = Outcome(n: nat, fails: bool, after: Counting)

  // The bytes handed on; the writer underneath cannot take more than it is given.
  function HandedOn(max: int, s: Counting, p: Bytes): Bytes
    requires s.written < max
  {
    if |p| > max - s.written then p[..max - s.written] else p
  }

  function Taken(p: Bytes, r: Reply): (n: nat)
    ensures n <= |p|
  {
    if r.taken <= |p| then r.taken else |p|
  }

  function CountingWrite(max: int, s: Counting, p: Bytes, r: Reply): Outcome {
    if s.exceeded || max - s.written <= 0 then Outcome(0, true, s.(exceeded := true))
    else
      var q := HandedOn(max, s, p);
      var n, exceeded := Taken(q, r), |p| > max - s.written;
      Outcome(n, r.fails || exceeded, Counting(s.sink + q[..n], s.written + n, exceeded))
  }

  class CountingWriter {
    const max: int
    var sink: Bytes
    var written: int
    var exceeded: bool

    constructor (max: int)
      ensures this.max == max && Now() == Counting([], 0, false)
    {
      this.max, sink, written, exceeded := max, [], 0, false;
    }

    ghost function Now(): Counting
      reads this
    {
      Counting(sink, written, exceeded)
    }

    method Write(p: Bytes, r: Reply) returns (n: nat, fails: bool)
      modifies this
      ensures Outcome(n, fails, Now()) == CountingWrite(max, old(Now()), p, r)
    {
      if exceeded {
        return 0, true;
      }
      var remaining := max - written;
      if remaining <= 0 {
        exceeded := true;
        return 0, true;
      }
      var q := p;
      if |p| > remaining {
        q := p[..remaining];
        exceeded := true;
      }
      n := Taken(q, r);
      sink := sink + q[..n];
      written := written + n;
      fails := r.fails || exceeded;
    }
  }

  // After the first k writes.
  function CountingAfter(max: int, writes: seq<Bytes>, replies: seq<Reply>, k: nat): Counting
    requires k <= |writes| == |replies|
    decreases k
  {
    if k == 0 then Counting([], 0, false)
    else CountingWrite(max, CountingAfter(max, writes, replies, k - 1), writes[k - 1], replies[k - 1]).after
  }

  function OutcomeOf(max: int, writes: seq<Bytes>, replies: seq<Reply>, k: nat): Outcome
    requires k < |writes| == |replies|
  {
    CountingWrite(max, CountingAfter(max, writes, replies, k), writes[k], replies[k])
  }

  function Limit(max: int): nat {
    if max <= 0 then 0 else max
  }

  // Every byte is accounted for: what a write reports is what it added to the sink, from the front
  // of its bytes, and it reports fewer than it was given only with a failure. It fails itself
  // exactly if the bytes do not all fit.
  lemma WriteIsAccountedFor(max: int, s: Counting, p: Bytes, r: Reply)
    requires s.written == |s.sink| && !s.exceeded && (r.fails || r.taken >= |p|)
    ensures var o := CountingWrite(max, s, p, r);
            && o.n <= |p| && o.after.sink == s.sink + p[..o.n] && o.after.written == |o.after.sink|
            && (!o.fails ==> o.n == |p|)
            && (o.after.exceeded <==> |s.sink| >= max || |s.sink + p| > max)
            && (o.fails <==> r.fails || o.after.exceeded || |s.sink| >= max)
            && (o.n < r.taken && o.n < |p| ==> o.n == Limit(max - |s.sink|))
  {
  }

  // Whatever the writer underneath does, no more than max bytes reach it.
  lemma {:induction false} SinkIsBounded(max: int, writes: seq<Bytes>, replies: seq<Reply>, k: nat)
    requires k <= |writes| == |replies|
    ensures var s := CountingAfter(max, writes, replies, k); s.written == |s.sink| <= Limit(max)
  {
    if k > 0 {
      SinkIsBounded(max, writes, replies, k - 1);
    }
  }

  // Once the limit is hit every write fails and nothing more gets through.
  lemma {:induction false} ExceededIsForEver(max: int, writes: seq<Bytes>, replies: seq<Reply>, k: nat, j: nat)
    requires k <= j < |writes| == |replies| && CountingAfter(max, writes, replies, k).exceeded
    ensures CountingAfter(max, writes, replies, j) == CountingAfter(max, writes, replies, k)
    ensures OutcomeOf(max, writes, replies, j).fails && OutcomeOf(max, writes, replies, j).n == 0
    decreases j
  {
    if k < j {
      ExceededIsForEver(max, writes, replies, k, j - 1);
    }
  }

  // A writer that does not fail takes everything it is given.
  predicate Honest(writes: seq<Bytes>, replies: seq<Reply>) {
    |writes| == |replies| && forall k :: 0 <= k < |writes| ==> replies[k].fails || replies[k].taken >= |writes[k]|
  }

  predicate Succeeds(max: int, writes: seq<Bytes>, replies: seq<Reply>, k: nat)
    requires k <= |writes| == |replies|
  {
    forall j :: 0 <= j < k ==> !OutcomeOf(max, writes, replies, j).fails
  }

  // As long as no write fails, the sink has exactly what was written.
  lemma {:induction false} SuccessForwardsAll(max: int, writes: seq<Bytes>, replies: seq<Reply>, k: nat)
    requires Honest(writes, replies) && k <= |writes| && Succeeds(max, writes, replies, k)
    ensures var s := CountingAfter(max, writes, replies, k);
            s.sink == Concat(writes[..k]) && s.written == |s.sink| <= Limit(max) && !s.exceeded
  {
    if k > 0 {
      SuccessForwardsAll(max, writes, replies, k - 1);
      assert writes[..k][..k - 1] == writes[..k - 1];
      assert !OutcomeOf(max, writes, replies, k - 1).fails;
    }
  }

  // A writer that stops at the first failure leaves a prefix of its bytes in the sink.
  lemma FailureLeavesPrefix(max: int, writes: seq<Bytes>, replies: seq<Reply>, k: nat)
    requires Honest(writes, replies) && k < |writes| && Succeeds(max, writes, replies, k)
    ensures CountingAfter(max, writes, replies, k + 1).sink <= Concat(writes[..k + 1])
  {
    SuccessForwardsAll(max, writes, replies, k);
    assert writes[..k + 1][..k] == writes[..k];
  }

  // A copy of non-empty writes goes through exactly when it fits and nothing underneath fails.
  lemma {:induction false} CopySucceedsIffItFits(max: int, writes: seq<Bytes>, replies: seq<Reply>, k: nat)
    requires Honest(writes, replies) && NonEmpty(writes) && k <= |writes|
    ensures Succeeds(max, writes, replies, k) <==>
              |Concat(writes[..k])| <= Limit(max) && forall j :: 0 <= j < k ==> !replies[j].fails
  {
    if k > 0 {
      CopySucceedsIffItFits(max, writes, replies, k - 1);
      assert writes[..k][..k - 1] == writes[..k - 1];
      if Succeeds(max, writes, replies, k - 1) {
        SuccessForwardsAll(max, writes, replies, k - 1);
        LastSucceedsIff(max, CountingAfter(max, writes, replies, k - 1), writes[k - 1], replies[k - 1]);
        assert Succeeds(max, writes, replies, k) <==> !OutcomeOf(max, writes, replies, k - 1).fails;
      }
    }
  }

  lemma LastSucceedsIff(max: int, s: Counting, p: Bytes, r: Reply)
    requires p != [] && !s.exceeded && s.written == |s.sink| <= Limit(max)
    ensures CountingWrite(max, s, p, r).fails <==> r.fails || |s.sink + p| > Limit(max)
  {
  }

  predicate AllTaken(replies: seq<Reply>) {
    forall k :: 0 <= k < |replies| ==> !replies[k].fails
  }

  // Over a writer that never fails, the sink holds the first max bytes however they are cut, and
  // the limit is reported exactly when something was held back.
  lemma {:induction false} CountingIgnoresChunking(max: int, writes: seq<Bytes>, replies: seq<Reply>, k: nat)
    requires Honest(writes, replies) && NonEmpty(writes) && AllTaken(replies) && k <= |writes|
    ensures var s := CountingAfter(max, writes, replies, k);
            && s.sink == Kept(Concat(writes[..k]), max)
            && (s.exceeded <==> |Concat(writes[..k])| > Limit(max))
  {
    if k > 0 {
      CountingIgnoresChunking(max, writes, replies, k - 1);
      SinkIsBounded(max, writes, replies, k - 1);
      assert writes[..k][..k - 1] == writes[..k - 1];
      NextKept(max, CountingAfter(max, writes, replies, k - 1), Concat(writes[..k - 1]), writes[k - 1], replies[k - 1]);
    }
  }

  lemma NextKept(max: int, s: Counting, before: Bytes, p: Bytes, r: Reply)
    requires p != [] && !r.fails && r.taken >= |p|
    requires s.sink == Kept(before, max) && s.written == |s.sink| && (s.exceeded <==> |before| > Limit(max))
    ensures var t := CountingWrite(max, s, p, r).after;
            t.sink == Kept(before + p, max) && (t.exceeded <==> |before + p| > Limit(max))
  {
  }
}
