/**
  Runs of the outbox with one relay worker whose status writes work: exact accounting of sends,
  terminal states that never change again, and how long a row can stay in the queue.
 */
module Delivery {
  import opened Outbox

  datatype Message = Message(topic: string, payload: string)

  /** Between two passes any number of messages may be enqueued. */
  datatype Turn = Turn(added: seq<Message>, fates: nat -> Fate)

  ghost function EnqueueAll(b: Box, added: seq<Message>): (b': Box)
    ensures |b'.rows| == |b.rows| + |added| && b'.log == b.log
    ensures forall i :: 0 <= i < |b.rows| ==> b'.rows[i] == b.rows[i]
    decreases |added|
  {
    if added == [] then b else EnqueueAll(Enqueue(b, added[0].topic, added[0].payload), added[1..])
  }

  ghost function TurnOf(b: Box, cfg: Config, t: Turn): Box {
    Pass(EnqueueAll(b, t.added), cfg, t.fates)
  }

  ghost function AfterTurns(b: Box, cfg: Config, turns: seq<Turn>): Box
    decreases |turns|
  {
    if turns == [] then b else AfterTurns(TurnOf(b, cfg, turns[0]), cfg, turns[1..])
  }

  predicate Works(fate: Fate) {
    fate.applied && fate.replied && fate.written
  }

  /** No status write, retry increment or reply to one is lost; sends may still fail at will. */
  ghost predicate Healthy(fates: nat -> Fate) {
    forall i :: Works(fates(i))
  }

  ghost predicate AllHealthy(turns: seq<Turn>) {
    forall i :: 0 <= i < |turns| ==> Healthy(turns[i].fates)
  }

  ghost function Acks(log: seq<Attempt>, id: nat): nat {
    if log == [] then 0
    else Acks(log[..|log|-1], id) + if log[|log|-1] == Attempt(id, true) then 1 else 0
  }

  ghost function Fails(log: seq<Attempt>, id: nat): nat {
    if log == [] then 0
    else Fails(log[..|log|-1], id) + if log[|log|-1] == Attempt(id, false) then 1 else 0
  }

  lemma LogStep(log: seq<Attempt>, a: Attempt, id: nat)
    ensures Acks(log + [a], id) == Acks(log, id) + (if a == Attempt(id, true) then 1 else 0)
    ensures Fails(log + [a], id) == Fails(log, id) + (if a == Attempt(id, false) then 1 else 0)
  {
    assert (log + [a])[..|log|] == log;
  }

  /** The sends a serialisable row may fail before it is given up: the first is always made. */
  function Tries(cfg: Config): int {
    if cfg.maxRetries < 1 then 1 else cfg.maxRetries
  }

  // ---------------------------------------------------------------- exact accounting

  ghost predicate RowExact(b: Box, cfg: Config, id: nat)
    requires id < |b.rows|
  {
    var row := b.rows[id];
    && Acks(b.log, id) == (if row.status == Sent then 1 else 0)
    && Fails(b.log, id) == row.retries
    && (row.status != Pending ==> row.topic == cfg.topic)
    && match row.status
       case Pending => row.retries < Tries(cfg) && (!cfg.encodes(row.payload) ==> row.retries == 0)
       case Sent => row.retries < Tries(cfg) && cfg.encodes(row.payload)
       case Failed => row.retries == if cfg.encodes(row.payload) then Tries(cfg) else 0
  }

  /** Only rows that exist have been sent. */
  ghost predicate LogWithin(b: Box) {
    forall i :: 0 <= i < |b.log| ==> b.log[i].id < |b.rows|
  }

  ghost predicate Exact(b: Box, cfg: Config) {
    LogWithin(b) && forall id: nat :: id < |b.rows| ==> RowExact(b, cfg, id)
  }

  lemma HandledRowExact(b: Box, cfg: Config, id: nat, fate: Fate)
    requires id < |b.rows| && RowExact(b, cfg, id) && Queued(b.rows[id], cfg) && Works(fate)
    ensures RowExact(Handle(b, cfg, id, fate), cfg, id)
  {
    LogStep(b.log, Attempt(id, fate.acked), id);
  }

  /** Handling one row leaves the rows and the counts of the others. */
  lemma OtherRowExact(b: Box, cfg: Config, id: nat, fate: Fate, j: nat)
    requires id < |b.rows| && j < |b.rows| && j != id && RowExact(b, cfg, j)
    ensures RowExact(Handle(b, cfg, id, fate), cfg, j)
  {
    LogStep(b.log, Attempt(id, fate.acked), j);
    assert Handle(b, cfg, id, fate).rows[j] == b.rows[j];
  }

  lemma HandleKeepsRowExact(b: Box, cfg: Config, id: nat, fate: Fate, j: nat)
    requires id < |b.rows| && j < |b.rows| && RowExact(b, cfg, j) && Queued(b.rows[id], cfg)
    requires Works(fate)
    ensures RowExact(Handle(b, cfg, id, fate), cfg, j)
  {
    if j == id { HandledRowExact(b, cfg, id, fate); } else { OtherRowExact(b, cfg, id, fate, j); }
  }

  lemma {:induction false} HandleAllKeepsRowExact(b: Box, cfg: Config, ids: seq<nat>, fates: nat -> Fate, j: nat)
    requires forall i :: 0 <= i < |ids| ==> ids[i] < |b.rows| && Queued(b.rows[ids[i]], cfg)
    requires forall i, j :: 0 <= i < j < |ids| ==> ids[i] != ids[j]
    requires j < |b.rows| && RowExact(b, cfg, j) && Healthy(fates)
    ensures RowExact(HandleAll(b, cfg, ids, fates), cfg, j)
  {
    if ids != [] {
      var front, last := ids[..|ids|-1], ids[|ids|-1];
      HandleAllKeepsRowExact(b, cfg, front, fates, j);
      HandleAllRow(b, cfg, front, fates, last);
      HandleKeepsRowExact(HandleAll(b, cfg, front, fates), cfg, last, fates(|ids|-1), j);
    }
  }

  lemma {:induction false} HandleAllKeepsLog(b: Box, cfg: Config, ids: seq<nat>, fates: nat -> Fate)
    requires forall i :: 0 <= i < |ids| ==> ids[i] < |b.rows|
    requires LogWithin(b)
    ensures LogWithin(HandleAll(b, cfg, ids, fates))
  {
    if ids != [] { HandleAllKeepsLog(b, cfg, ids[..|ids|-1], fates); }
  }

  lemma {:induction false} EnqueueAllKeepsExact(b: Box, cfg: Config, added: seq<Message>)
    requires Exact(b, cfg)
    ensures Exact(EnqueueAll(b, added), cfg)
    decreases |added|
  {
    if added != [] {
      var b' := Enqueue(b, added[0].topic, added[0].payload);
      NoStrayCounts(b.log, |b.rows|);
      assert forall id: nat :: id < |b.rows| ==> RowExact(b, cfg, id) && b'.rows[id] == b.rows[id];
      EnqueueAllKeepsExact(b', cfg, added[1..]);
    }
  }

  lemma {:induction false} NoStrayCounts(log: seq<Attempt>, n: nat)
    requires forall i :: 0 <= i < |log| ==> log[i].id < n
    ensures Acks(log, n) == 0 && Fails(log, n) == 0
  {
    if log != [] { NoStrayCounts(log[..|log|-1], n); }
  }

  lemma BatchQueued(rows: seq<Row>, cfg: Config)
    ensures forall i :: 0 <= i < |Batch(rows, cfg)| ==> Queued(rows[Batch(rows, cfg)[i]], cfg)
    ensures forall i, j :: 0 <= i < j < |Batch(rows, cfg)| ==> Batch(rows, cfg)[i] != Batch(rows, cfg)[j]
  {
    forall i | 0 <= i < |Batch(rows, cfg)| ensures Queued(rows[Batch(rows, cfg)[i]], cfg) {
      BatchIff(rows, cfg, Batch(rows, cfg)[i]);
    }
    if |rows| > 0 { BatchIff(rows, cfg, 0); }
  }

  /**
    Single-worker exactness, over every run of enqueues and passes, whatever sends fail: a SENT row
    has exactly one acknowledged send, any other row none; retries is the number of failed sends;
    a FAILED row either cannot be serialised and was never tried, or used up exactly its tries.
   */
  lemma {:induction false} RunsAreExact(b: Box, cfg: Config, turns: seq<Turn>)
    requires Exact(b, cfg) && AllHealthy(turns)
    ensures Exact(AfterTurns(b, cfg, turns), cfg)
    decreases |turns|
  {
    if turns != [] {
      TurnKeepsExact(b, cfg, turns[0]);
      RunsAreExact(TurnOf(b, cfg, turns[0]), cfg, turns[1..]);
    }
  }

  lemma TurnKeepsExact(b: Box, cfg: Config, t: Turn)
    requires Exact(b, cfg) && Healthy(t.fates)
    ensures Exact(TurnOf(b, cfg, t), cfg)
  {
    var e := EnqueueAll(b, t.added);
    EnqueueAllKeepsExact(b, cfg, t.added);
    BatchQueued(e.rows, cfg);
    HandleAllKeepsLog(e, cfg, Batch(e.rows, cfg), t.fates);
    forall id: nat | id < |e.rows| ensures RowExact(Pass(e, cfg, t.fates), cfg, id) {
      HandleAllKeepsRowExact(e, cfg, Batch(e.rows, cfg), t.fates, id);
    }
  }

  /**
    The same for one row of any outbox, whatever happened to the other rows before: once a row's
    counts are exact, no healthy turn makes them inexact.
   */
  lemma {:induction false} RowStaysExact(b: Box, cfg: Config, turns: seq<Turn>, id: nat)
    requires id < |b.rows| && RowExact(b, cfg, id) && AllHealthy(turns)
    ensures id < |AfterTurns(b, cfg, turns).rows| && RowExact(AfterTurns(b, cfg, turns), cfg, id)
    decreases |turns|
  {
    if turns != [] {
      var e := EnqueueAll(b, turns[0].added);
      assert RowExact(e, cfg, id);
      BatchQueued(e.rows, cfg);
      HandleAllKeepsRowExact(e, cfg, Batch(e.rows, cfg), turns[0].fates, id);
      RowStaysExact(TurnOf(b, cfg, turns[0]), cfg, turns[1..], id);
    }
  }

  /** SENT and FAILED are absorbing: such a row is never changed again, not even by faulty passes. */
  lemma {:induction false} TerminalRowsStay(b: Box, cfg: Config, turns: seq<Turn>, id: nat)
    requires id < |b.rows| && b.rows[id].status != Pending
    ensures id < |AfterTurns(b, cfg, turns).rows| && AfterTurns(b, cfg, turns).rows[id] == b.rows[id]
    decreases |turns|
  {
    if turns != [] {
      PassRow(EnqueueAll(b, turns[0].added), cfg, turns[0].fates, id);
      TerminalRowsStay(TurnOf(b, cfg, turns[0]), cfg, turns[1..], id);
    }
  }

  // ---------------------------------------------------------------- the drain measure

  /** The failed sends that a queued row can still absorb; a row past its maximum is tried once more. */
  function Left(row: Row, cfg: Config): (left: nat)
    ensures 1 <= left <= Tries(cfg)
  {
    if cfg.maxRetries - row.retries < 1 then 1 else cfg.maxRetries - row.retries
  }

  /** The failed sends that the queued rows among the first n can still absorb. */
  ghost function Work(rows: seq<Row>, cfg: Config, n: nat): (work: nat)
    requires n <= |rows|
    ensures work >= Ahead(rows, cfg, n)
  {
    if n == 0 then 0
    else Work(rows, cfg, n - 1) + if Queued(rows[n-1], cfg) then Left(rows[n-1], cfg) else 0
  }

  /** A handled row leaves the queue or has one try less left. */
  lemma HandledRowLeaves(b: Box, cfg: Config, id: nat, fate: Fate)
    requires id < |b.rows| && Works(fate)
    ensures var row := Handle(b, cfg, id, fate).rows[id];
            Queued(row, cfg) ==> Left(row, cfg) == Left(b.rows[id], cfg) - 1
  {
  }

  lemma {:induction false} WorkOfUpdate(rows: seq<Row>, cfg: Config, id: nat, row: Row, n: nat)
    requires id < |rows| && n <= |rows| && Queued(rows[id], cfg)
    requires Queued(row, cfg) ==> Left(row, cfg) == Left(rows[id], cfg) - 1
    ensures n <= id ==> Work(rows[id := row], cfg, n) == Work(rows, cfg, n)
    ensures n > id ==> Work(rows[id := row], cfg, n) <= Work(rows, cfg, n) - 1
  {
    if n > 0 { WorkOfUpdate(rows, cfg, id, row, n - 1); }
  }

  lemma HandleWorks(b: Box, cfg: Config, id: nat, fate: Fate)
    requires id < |b.rows| && Queued(b.rows[id], cfg)
    requires Works(fate)
    ensures Work(Handle(b, cfg, id, fate).rows, cfg, |b.rows|) <= Work(b.rows, cfg, |b.rows|) - 1
  {
    var b' := Handle(b, cfg, id, fate);
    HandledRowLeaves(b, cfg, id, fate);
    assert b'.rows == b.rows[id := b'.rows[id]];
    WorkOfUpdate(b.rows, cfg, id, b'.rows[id], |b.rows|);
  }

  lemma {:induction false} HandleAllWorks(b: Box, cfg: Config, ids: seq<nat>, fates: nat -> Fate)
    requires forall i :: 0 <= i < |ids| ==> ids[i] < |b.rows| && Queued(b.rows[ids[i]], cfg)
    requires forall i, j :: 0 <= i < j < |ids| ==> ids[i] != ids[j]
    requires Healthy(fates)
    ensures Work(HandleAll(b, cfg, ids, fates).rows, cfg, |b.rows|) <= Work(b.rows, cfg, |b.rows|) - |ids|
  {
    if ids != [] {
      var front, last := ids[..|ids|-1], ids[|ids|-1];
      HandleAllWorks(b, cfg, front, fates);
      HandleAllRow(b, cfg, front, fates, last);
      HandleWorks(HandleAll(b, cfg, front, fates), cfg, last, fates(|ids|-1));
    }
  }

  /**
    Whatever sends fail, and whatever the outbox has been through before, a pass lowers the measure
    by the size of its batch; at zero the queue is empty.
   */
  lemma PassDrains(b: Box, cfg: Config, fates: nat -> Fate)
    requires Healthy(fates)
    ensures Work(Pass(b, cfg, fates).rows, cfg, |b.rows|) <= Work(b.rows, cfg, |b.rows|) - |Batch(b.rows, cfg)|
    ensures Work(b.rows, cfg, |b.rows|) >= Ahead(b.rows, cfg, |b.rows|)
  {
    BatchQueued(b.rows, cfg);
    HandleAllWorks(b, cfg, Batch(b.rows, cfg), fates);
  }

  // ---------------------------------------------------------------- the drain bound

  /** Queued rows can only leave the queue, so a row never moves back in it. */
  lemma {:induction false} AheadShrinks(rows: seq<Row>, rows': seq<Row>, cfg: Config, n: nat)
    requires n <= |rows| && n <= |rows'|
    requires forall j :: 0 <= j < n && Queued(rows'[j], cfg) ==> Queued(rows[j], cfg)
    ensures Ahead(rows', cfg, n) <= Ahead(rows, cfg, n)
  {
    if n > 0 { AheadShrinks(rows, rows', cfg, n - 1); }
  }

  lemma {:induction false} AheadPrefix(rows: seq<Row>, rows': seq<Row>, cfg: Config, n: nat)
    requires n <= |rows| && n <= |rows'|
    requires forall j :: 0 <= j < n ==> rows'[j] == rows[j]
    ensures Ahead(rows', cfg, n) == Ahead(rows, cfg, n)
  {
    if n > 0 { AheadPrefix(rows, rows', cfg, n - 1); }
  }

  /** When every queued row that is left had `limit` rows ahead of it, the queue is shorter by `limit`. */
  lemma {:induction false} AheadBeyond(rows: seq<Row>, rows': seq<Row>, cfg: Config, n: nat)
    requires n <= |rows| && n <= |rows'|
    requires forall j :: 0 <= j < n && Queued(rows'[j], cfg) ==>
               Queued(rows[j], cfg) && Ahead(rows, cfg, j) >= cfg.limit
    ensures Ahead(rows', cfg, n) == 0 || Ahead(rows', cfg, n) + cfg.limit <= Ahead(rows, cfg, n)
  {
    if n > 0 { AheadBeyond(rows, rows', cfg, n - 1); }
  }

  /**
    One turn for a queued row: it keeps its place or moves forward, and a row in the batch leaves or
    has a try less.
   */
  lemma TurnRow(b: Box, cfg: Config, t: Turn, id: nat)
    requires id < |b.rows| && Healthy(t.fates)
    ensures |TurnOf(b, cfg, t).rows| >= |b.rows|
    ensures var row := TurnOf(b, cfg, t).rows[id];
            && (Queued(row, cfg) ==> Queued(b.rows[id], cfg) && Left(row, cfg) <= Left(b.rows[id], cfg))
            && (Queued(row, cfg) && Ahead(b.rows, cfg, id) < cfg.limit ==> Left(row, cfg) == Left(b.rows[id], cfg) - 1)
  {
    var e := EnqueueAll(b, t.added);
    AheadPrefix(b.rows, e.rows, cfg, id);
    PassRow(e, cfg, t.fates, id);
    if Queued(e.rows[id], cfg) && Ahead(e.rows, cfg, id) < cfg.limit {
      var fate :| (exists i :: fate == t.fates(i)) && TurnOf(b, cfg, t).rows[id] == Handle(e, cfg, id, fate).rows[id];
      HandledRowLeaves(e, cfg, id, fate);
    }
  }

  lemma {:induction false} TurnsKeepPlace(b: Box, cfg: Config, turns: seq<Turn>, id: nat)
    requires id < |b.rows| && AllHealthy(turns)
    ensures |AfterTurns(b, cfg, turns).rows| >= |b.rows|
    ensures Queued(AfterTurns(b, cfg, turns).rows[id], cfg) ==> Queued(b.rows[id], cfg)
    decreases |turns|
  {
    if turns != [] {
      TurnRow(b, cfg, turns[0], id);
      TurnsKeepPlace(TurnOf(b, cfg, turns[0]), cfg, turns[1..], id);
    }
  }

  /** A row within the first `limit` of the queue is in every batch, so it leaves once its tries are used up. */
  lemma {:induction false} FrontLeaves(b: Box, cfg: Config, turns: seq<Turn>, id: nat)
    requires id < |b.rows| && AllHealthy(turns)
    requires Queued(b.rows[id], cfg) ==> Ahead(b.rows, cfg, id) < cfg.limit && |turns| >= Left(b.rows[id], cfg)
    ensures |AfterTurns(b, cfg, turns).rows| >= |b.rows|
    ensures !Queued(AfterTurns(b, cfg, turns).rows[id], cfg)
    decreases |turns|
  {
    if turns != [] {
      var b1 := TurnOf(b, cfg, turns[0]);
      TurnRow(b, cfg, turns[0], id);
      forall j: nat | j < id ensures Queued(b1.rows[j], cfg) ==> Queued(b.rows[j], cfg) {
        TurnRow(b, cfg, turns[0], j);
      }
      AheadShrinks(b.rows, b1.rows, cfg, id);
      FrontLeaves(b1, cfg, turns[1..], id);
    }
  }

  lemma {:induction false} AfterTurnsSplit(b: Box, cfg: Config, turns: seq<Turn>, k: nat)
    requires k <= |turns|
    ensures AfterTurns(b, cfg, turns) == AfterTurns(AfterTurns(b, cfg, turns[..k]), cfg, turns[k..])
    decreases k
  {
    if k > 0 {
      assert turns[..k][1..] == turns[1..][..k-1];
      assert turns[k..] == turns[1..][k-1..];
      AfterTurnsSplit(TurnOf(b, cfg, turns[0]), cfg, turns[1..], k - 1);
    } else {
      assert turns[..0] == [] && turns[0..] == turns;
    }
  }

  /** After as many turns as there are tries, the whole front of the queue is gone. */
  lemma FrontOfQueueGone(b: Box, cfg: Config, turns: seq<Turn>, id: nat)
    requires id < |b.rows| && AllHealthy(turns) && |turns| == Tries(cfg)
    ensures |AfterTurns(b, cfg, turns).rows| >= |b.rows|
    ensures var after := AfterTurns(b, cfg, turns).rows;
            Ahead(after, cfg, id) == 0 || Ahead(after, cfg, id) + cfg.limit <= Ahead(b.rows, cfg, id)
  {
    var after := AfterTurns(b, cfg, turns).rows;
    TurnsKeepPlace(b, cfg, turns, id);
    forall j: nat | j < id && Queued(after[j], cfg)
      ensures Queued(b.rows[j], cfg) && Ahead(b.rows, cfg, j) >= cfg.limit
    {
      TurnsKeepPlace(b, cfg, turns, j);
      if Ahead(b.rows, cfg, j) < cfg.limit {
        FrontLeaves(b, cfg, turns, j);
        assert false;
      }
    }
    AheadBeyond(b.rows, after, cfg, id);
  }

  /** One round of passes for the front of the queue, then the same for what is left ahead. */
  ghost function PassesFor(p: nat, limit: nat, tries: nat): nat
    requires limit > 0
  {
    if p < limit then tries else tries + PassesFor(p - limit, limit, tries)
  }

  lemma {:induction false} PassesForMonotone(p: nat, q: nat, limit: nat, tries: nat)
    requires limit > 0 && p <= q
    ensures tries <= PassesFor(p, limit, tries) <= PassesFor(q, limit, tries)
  {
    if p >= limit {
      PassesForMonotone(p - limit, q - limit, limit, tries);
    } else if q >= limit {
      PassesForMonotone(0, q - limit, limit, tries);
    }
  }

  lemma {:induction false} PassesForIs(p: nat, limit: nat, tries: nat)
    requires limit > 0
    ensures PassesFor(p, limit, tries) == (p / limit + 1) * tries
  {
    if p >= limit {
      PassesForIs(p - limit, limit, tries);
      QuotientStep(p, limit);
      var q := p / limit;
      assert (q + 1) * tries == q * tries + tries;
    } else {
      assert p / limit == 0;
    }
  }

  lemma QuotientStep(p: int, d: int)
    requires d > 0
    ensures (p - d) / d == p / d - 1
  {
    var q, r := p / d, p % d;
    assert p == d * q + r;
    assert d * (q - 1) == d * q - d;
    QuotientUnique(p - d, d, q - 1, r);
  }

  lemma QuotientUnique(x: int, d: int, q: int, r: int)
    requires d > 0 && x == d * q + r && 0 <= r < d
    ensures x / d == q
  {
    var p := x / d;
    assert x == d * p + x % d;
    if p < q {
      MultiplyMonotone(p + 1, q, d);
    } else if q < p {
      MultiplyMonotone(q + 1, p, d);
    }
  }

  lemma MultiplyMonotone(x: int, y: int, m: int)
    requires x <= y && m >= 0
    ensures x * m <= y * m
  {
  }

  lemma {:induction false} LeavesInTime(b: Box, cfg: Config, turns: seq<Turn>, id: nat)
    requires cfg.limit > 0 && id < |b.rows| && AllHealthy(turns)
    requires |turns| >= PassesFor(Ahead(b.rows, cfg, id), cfg.limit, Tries(cfg))
    ensures |AfterTurns(b, cfg, turns).rows| >= |b.rows|
    ensures !Queued(AfterTurns(b, cfg, turns).rows[id], cfg)
    decreases |turns|
  {
    var p, m := Ahead(b.rows, cfg, id), Tries(cfg);
    if p < cfg.limit {
      FrontLeaves(b, cfg, turns, id);
    } else {
      PassesForMonotone(p - cfg.limit, p - cfg.limit, cfg.limit, m);
      var mid := AfterTurns(b, cfg, turns[..m]);
      FrontOfQueueGone(b, cfg, turns[..m], id);
      AfterTurnsSplit(b, cfg, turns, m);
      PassesForMonotone(Ahead(mid.rows, cfg, id), p - cfg.limit, cfg.limit, m);
      LeavesInTime(mid, cfg, turns[m..], id);
    }
  }

  /**
    The drain bound, from any outbox whatever, also one that crashes and lost writes have left
    behind: whatever sends fail and whatever is queued behind it meanwhile, a row with p queued rows
    ahead of it leaves PENDING within (p / limit + 1) * max(1, maxRetries) passes.
   */
  lemma DrainBound(b: Box, cfg: Config, turns: seq<Turn>, id: nat)
    requires cfg.limit > 0 && id < |b.rows| && AllHealthy(turns)
    requires |turns| >= (Ahead(b.rows, cfg, id) / cfg.limit + 1) * Tries(cfg)
    ensures |AfterTurns(b, cfg, turns).rows| >= |b.rows|
    ensures !Queued(AfterTurns(b, cfg, turns).rows[id], cfg)
  {
    PassesForIs(Ahead(b.rows, cfg, id), cfg.limit, Tries(cfg));
    LeavesInTime(b, cfg, turns, id);
  }
}
