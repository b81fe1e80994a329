/**
  The transactional outbox and one relay worker: rows are queued in order of creation, and each
  pass sends the oldest pending rows to Kafka and records what became of them.
 */
module Outbox {
  datatype Status = Pending | Sent | Failed
  datatype Row = Row(topic: string, payload: string, status: Status, retries: nat)

  /** One call of SendMessage for a row: acknowledged by Kafka, or failed. */
  datatype Attempt = Attempt(id: nat, acked: bool)

  /** The outbox table, rows in order of creation, and the history of sends. */
  datatype Box = Box(rows: seq<Row>, log: seq<Attempt>)

  /** `encodes` is eventToBytes: a fixed payload either always serialises or never does. */
  datatype Config = Config(topic: string, limit: nat, maxRetries: int, encodes: string -> bool)

  /**
    What befalls one event of a pass: the send, the retry increment and the status write may each
    fail, and an increment that was applied may lose its reply.
   */
  datatype Fate = Fate(acked: bool, applied: bool, replied: bool, written: bool)

  predicate Queued(r: Row, cfg: Config) {
    r.status == Pending && r.topic == cfg.topic
  }

  // ---------------------------------------------------------------- one pass as a function

  function SetStatus(b: Box, id: nat, status: Status, written: bool): Box
    requires id < |b.rows|
  {
    if written then b.(rows := b.rows[id := b.rows[id].(status := status)]) else b
  }

  function Attempted(b: Box, id: nat, acked: bool): Box {
    b.(log := b.log + [Attempt(id, acked)])
  }

  function Incremented(b: Box, id: nat): Box
    requires id < |b.rows|
  {
    b.(rows := b.rows[id := b.rows[id].(retries := b.rows[id].retries + 1)])
  }

  /** The body of the loop in SendEvents for one event. */
  function Handle(b: Box, cfg: Config, id: nat, fate: Fate): (b': Box)
    requires id < |b.rows|
    ensures |b'.rows| == |b.rows|
  {
    if !cfg.encodes(b.rows[id].payload) then SetStatus(b, id, Failed, fate.written)
    else
      var a := Attempted(b, id, fate.acked);
      if fate.acked then SetStatus(a, id, Sent, fate.written)
      else if !fate.applied then a
      else
        var i := Incremented(a, id);
        if fate.replied && i.rows[id].retries >= cfg.maxRetries then SetStatus(i, id, Failed, fate.written) else i
  }

  /** The ids of the queued rows among the first n, oldest first. */
  function QueuedIds(rows: seq<Row>, cfg: Config, n: nat): (ids: seq<nat>)
    requires n <= |rows|
    ensures forall i :: 0 <= i < |ids| ==> ids[i] < n
  {
    if n == 0 then []
    else QueuedIds(rows, cfg, n - 1) + if Queued(rows[n-1], cfg) then [n-1] else []
  }

  /** GetPending: the oldest rows with status PENDING and the topic, at most `limit` of them. */
  function Batch(rows: seq<Row>, cfg: Config): (ids: seq<nat>)
    ensures forall i :: 0 <= i < |ids| ==> ids[i] < |rows|
  {
    var ids := QueuedIds(rows, cfg, |rows|);
    if |ids| <= cfg.limit then ids else ids[..cfg.limit]
  }

  function HandleAll(b: Box, cfg: Config, ids: seq<nat>, fates: nat -> Fate): (b': Box)
    requires forall i :: 0 <= i < |ids| ==> ids[i] < |b.rows|
    ensures |b'.rows| == |b.rows|
  {
    if ids == [] then b
    else Handle(HandleAll(b, cfg, ids[..|ids|-1], fates), cfg, ids[|ids|-1], fates(|ids|-1))
  }

  function Pass(b: Box, cfg: Config, fates: nat -> Fate): Box {
    HandleAll(b, cfg, Batch(b.rows, cfg), fates)
  }

  function Enqueue(b: Box, topic: string, payload: string): Box {
    b.(rows := b.rows + [Row(topic, payload, Pending, 0)])
  }

  // ---------------------------------------------------------------- the producer

  class Producer {
    var rows: seq<Row>
    var log: seq<Attempt>
    const cfg: Config

    constructor (cfg: Config)
      ensures this.cfg == cfg && State() == Box([], [])
    {
      this.cfg := cfg;
      rows, log := [], [];
    }

    function State(): Box
      reads this
    {
      Box(rows, log)
    }

    method Add(topic: string, payload: string)
      modifies this`rows
      ensures State() == Enqueue(old(State()), topic, payload)
    {
      rows := rows + [Row(topic, payload, Pending, 0)];
    }

    method GetPending() returns (ids: seq<nat>)
      ensures ids == Batch(rows, cfg)
    {
      ids := [];
      var n := 0;
      while n < |rows| && |ids| < cfg.limit
        invariant n <= |rows| && |ids| <= cfg.limit
        invariant ids == QueuedIds(rows, cfg, n)
      {
        if Queued(rows[n], cfg) {
          ids := ids + [n];
        }
        n := n + 1;
      }
      QueuedIdsPrefix(rows, cfg, n, |rows|);
    }

    method SendEvents(fates: nat -> Fate)
      modifies this
      ensures State() == Pass(old(State()), cfg, fates)
    {
      var events := GetPending();
      ghost var start := State();
      for i := 0 to |events|
        invariant |rows| == |start.rows|
        invariant State() == HandleAll(start, cfg, events[..i], fates)
      {
        assert events[..i+1][..i] == events[..i];
        var id, fate := events[i], fates(i);
        if !cfg.encodes(rows[id].payload) {
          UpdateStatus(id, Failed, fate.written);
          continue;
        }
        log := log + [Attempt(id, fate.acked)];
        if !fate.acked {
          IncrementRetries(id, fate);
          continue;
        }
        UpdateStatus(id, Sent, fate.written);
      }
      assert events[..|events|] == events;
    }

    method UpdateStatus(id: nat, status: Status, written: bool)
      requires id < |rows|
      modifies this`rows
      ensures State() == SetStatus(old(State()), id, status, written)
    {
      if written {
        rows := rows[id := rows[id].(status := status)];
      }
    }

    method IncrementRetries(id: nat, fate: Fate)
      requires id < |rows|
      modifies this`rows
      ensures State() ==
        if !fate.applied then old(State())
        else if fate.replied && old(rows)[id].retries + 1 >= cfg.maxRetries
          then SetStatus(Incremented(old(State()), id), id, Failed, fate.written)
        else Incremented(old(State()), id)
    {
      if fate.applied {
        rows := rows[id := rows[id].(retries := rows[id].retries + 1)];
      }
      if !fate.applied || !fate.replied {
        return;
      }
      if rows[id].retries >= cfg.maxRetries {
        UpdateStatus(id, Failed, fate.written);
      }
    }
  }

  // ---------------------------------------------------------------- the queue

  /** How many queued rows precede position n. */
  function Ahead(rows: seq<Row>, cfg: Config, n: nat): nat
    requires n <= |rows|
  {
    if n == 0 then 0 else Ahead(rows, cfg, n - 1) + if Queued(rows[n-1], cfg) then 1 else 0
  }

  lemma {:induction false} QueuedIdsPrefix(rows: seq<Row>, cfg: Config, m: nat, n: nat)
    requires m <= n <= |rows|
    ensures QueuedIds(rows, cfg, m) <= QueuedIds(rows, cfg, n)
  {
    if m < n { QueuedIdsPrefix(rows, cfg, m, n - 1); }
  }

  lemma {:induction false} QueuedIdsAre(rows: seq<Row>, cfg: Config, n: nat)
    requires n <= |rows|
    ensures |QueuedIds(rows, cfg, n)| == Ahead(rows, cfg, n)
    ensures forall i :: 0 <= i < Ahead(rows, cfg, n) ==>
      Queued(rows[QueuedIds(rows, cfg, n)[i]], cfg) && Ahead(rows, cfg, QueuedIds(rows, cfg, n)[i]) == i
    ensures forall id :: 0 <= id < n && Queued(rows[id], cfg) ==> id in QueuedIds(rows, cfg, n)
  {
    if n > 0 { QueuedIdsAre(rows, cfg, n - 1); }
  }

  /** A batch holds exactly the queued rows with fewer than `limit` queued rows ahead of them, each once. */
  lemma BatchIff(rows: seq<Row>, cfg: Config, id: nat)
    requires id < |rows|
    ensures id in Batch(rows, cfg) <==> Queued(rows[id], cfg) && Ahead(rows, cfg, id) < cfg.limit
    ensures forall i, j :: 0 <= i < j < |Batch(rows, cfg)| ==> Batch(rows, cfg)[i] != Batch(rows, cfg)[j]
  {
    QueuedIdsAre(rows, cfg, |rows|);
    var ids := QueuedIds(rows, cfg, |rows|);
    if Queued(rows[id], cfg) {
      var i :| 0 <= i < |ids| && ids[i] == id;
      assert Ahead(rows, cfg, id) == i;
      assert i < cfg.limit ==> Batch(rows, cfg)[i] == id;
    }
  }

  ghost function Older(rows: seq<Row>, cfg: Config, n: nat): set<nat>
    requires n <= |rows|
  {
    set j: nat | j < n && rows[j].status == Pending && rows[j].topic == cfg.topic
  }

  lemma OlderOneMore(rows: seq<Row>, cfg: Config, n: nat)
    requires n < |rows|
    ensures Older(rows, cfg, n + 1) ==
            if rows[n].status == Pending && rows[n].topic == cfg.topic then Older(rows, cfg, n) + {n}
            else Older(rows, cfg, n)
  {
  }

  /** The rows of the topic that are pending and older, counted. */
  lemma {:induction false} AheadIs(rows: seq<Row>, cfg: Config, n: nat)
    requires n <= |rows|
    ensures Ahead(rows, cfg, n) == |Older(rows, cfg, n)|
  {
    if n > 0 {
      AheadIs(rows, cfg, n - 1);
      OlderOneMore(rows, cfg, n - 1);
    }
  }

  /**
    What becomes of one event, for every fate: it is sent exactly if it can be serialised; a failed
    send counts when the increment is applied; and the status changes only if it can be written, to
    SENT after an acknowledgement, to FAILED if it cannot be serialised or the count that came back
    has reached the maximum.
   */
  lemma HandleOutcome(b: Box, cfg: Config, id: nat, fate: Fate)
    requires id < |b.rows|
    ensures var b', row := Handle(b, cfg, id, fate), b.rows[id];
            var sendable := cfg.encodes(row.payload);
            var counted := sendable && !fate.acked && fate.applied;
            var givenUp := !sendable || (counted && fate.replied && row.retries + 1 >= cfg.maxRetries);
            && b'.log == b.log + (if sendable then [Attempt(id, fate.acked)] else [])
            && b'.rows == b.rows[id := row.(retries := if counted then row.retries + 1 else row.retries,
                                            status := if !fate.written then row.status
                                                      else if sendable && fate.acked then Sent
                                                      else if givenUp then Failed else row.status)]
  {
  }

  /** One pass changes a row exactly if it is in the batch, and then as Handle does. */
  lemma {:induction false} HandleAllRow(b: Box, cfg: Config, ids: seq<nat>, fates: nat -> Fate, id: nat)
    requires forall i :: 0 <= i < |ids| ==> ids[i] < |b.rows|
    requires forall i, j :: 0 <= i < j < |ids| ==> ids[i] != ids[j]
    requires id < |b.rows|
    ensures id !in ids ==> HandleAll(b, cfg, ids, fates).rows[id] == b.rows[id]
    ensures forall i :: 0 <= i < |ids| && ids[i] == id ==>
      HandleAll(b, cfg, ids, fates).rows[id] == Handle(b, cfg, id, fates(i)).rows[id]
  {
    if ids != [] {
      var front := ids[..|ids|-1];
      HandleAllRow(b, cfg, front, fates, id);
      assert forall i :: 0 <= i < |front| ==> front[i] == ids[i];
      if id !in front {
        assert HandleAll(b, cfg, front, fates).rows[id] == b.rows[id];
      }
    }
  }

  lemma PassRow(b: Box, cfg: Config, fates: nat -> Fate, id: nat)
    requires id < |b.rows|
    ensures |Pass(b, cfg, fates).rows| == |b.rows|
    ensures var row := Pass(b, cfg, fates).rows[id];
            if Queued(b.rows[id], cfg) && Ahead(b.rows, cfg, id) < cfg.limit
            then exists fate :: (exists i :: fate == fates(i)) && row == Handle(b, cfg, id, fate).rows[id]
            else row == b.rows[id]
  {
    var ids := Batch(b.rows, cfg);
    BatchIff(b.rows, cfg, id);
    HandleAllRow(b, cfg, ids, fates, id);
    if id in ids {
      var i: nat :| i < |ids| && ids[i] == id;
      assert Pass(b, cfg, fates).rows[id] == Handle(b, cfg, id, fates(i)).rows[id];
    }
  }

  // ---------------------------------------------------------------- the order of the sends

  /** The events of a batch that are sent: those that can be serialised. */
  ghost function Serialisable(rows: seq<Row>, cfg: Config, ids: seq<nat>): seq<nat>
    requires forall i :: 0 <= i < |ids| ==> ids[i] < |rows|
  {
    if ids == [] then []
    else
      var last := ids[|ids|-1];
      Serialisable(rows, cfg, ids[..|ids|-1]) + if cfg.encodes(rows[last].payload) then [last] else []
  }

  function IdsOf(log: seq<Attempt>): seq<nat> {
    seq(|log|, i requires 0 <= i < |log| => log[i].id)
  }

  lemma {:induction false} QueuedIdsAscend(rows: seq<Row>, cfg: Config, n: nat)
    requires n <= |rows|
    ensures forall i, j :: 0 <= i < j < |QueuedIds(rows, cfg, n)| ==>
      QueuedIds(rows, cfg, n)[i] < QueuedIds(rows, cfg, n)[j]
  {
    if n > 0 { QueuedIdsAscend(rows, cfg, n - 1); }
  }

  lemma {:induction false} HandleAllSends(b: Box, cfg: Config, ids: seq<nat>, fates: nat -> Fate)
    requires forall i :: 0 <= i < |ids| ==> ids[i] < |b.rows|
    ensures b.log <= HandleAll(b, cfg, ids, fates).log
    ensures IdsOf(HandleAll(b, cfg, ids, fates).log[|b.log|..]) == Serialisable(b.rows, cfg, ids)
    ensures forall j :: 0 <= j < |b.rows| ==> HandleAll(b, cfg, ids, fates).rows[j].payload == b.rows[j].payload
  {
    if ids == [] {
      assert b.log[|b.log|..] == [];
    } else {
      var front, last := ids[..|ids|-1], ids[|ids|-1];
      HandleAllSends(b, cfg, front, fates);
      var before, after := HandleAll(b, cfg, front, fates).log, HandleAll(b, cfg, ids, fates).log;
      if cfg.encodes(b.rows[last].payload) {
        var a := Attempt(last, fates(|ids|-1).acked);
        assert after == before + [a];
        assert after[|b.log|..] == before[|b.log|..] + [a];
        assert IdsOf(before[|b.log|..] + [a]) == IdsOf(before[|b.log|..]) + [last];
      }
    }
  }

  lemma {:induction false} SerialisableAre(rows: seq<Row>, cfg: Config, ids: seq<nat>)
    requires forall i :: 0 <= i < |ids| ==> ids[i] < |rows|
    requires forall i, j :: 0 <= i < j < |ids| ==> ids[i] < ids[j]
    ensures forall id :: id in Serialisable(rows, cfg, ids) <==> id in ids && cfg.encodes(rows[id].payload)
    ensures forall i, j :: 0 <= i < j < |Serialisable(rows, cfg, ids)| ==>
      Serialisable(rows, cfg, ids)[i] < Serialisable(rows, cfg, ids)[j]
  {
    if ids != [] {
      var front, last := ids[..|ids|-1], ids[|ids|-1];
      SerialisableAre(rows, cfg, front);
      assert forall id :: id in ids <==> id in front || id == last;
      var kept := Serialisable(rows, cfg, front);
      forall i | 0 <= i < |kept| ensures kept[i] < last {
        assert kept[i] in front;
      }
    }
  }

  /** A pass sends each serialisable row of its batch exactly once, in order of creation, and nothing else. */
  lemma PassSendsInOrder(b: Box, cfg: Config, fates: nat -> Fate)
    ensures b.log <= Pass(b, cfg, fates).log
    ensures var sent := IdsOf(Pass(b, cfg, fates).log[|b.log|..]);
            && (forall id :: id in sent <==> id in Batch(b.rows, cfg) && cfg.encodes(b.rows[id].payload))
            && (forall i, j :: 0 <= i < j < |sent| ==> sent[i] < sent[j])
  {
    var ids := Batch(b.rows, cfg);
    QueuedIdsAscend(b.rows, cfg, |b.rows|);
    HandleAllSends(b, cfg, ids, fates);
    SerialisableAre(b.rows, cfg, ids);
  }
}
