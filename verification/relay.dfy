/**
  Any number of relay workers over one outbox, interleaved step by step, with sends that fail,
  status writes that are lost, increments whose reply is lost, and workers that crash anywhere.
 */
module Relay {
  import opened Outbox
  import opened Delivery

  /** Where a worker stands in the loop body for its current event. */
  datatype Phase = AtEvent | MarkSent | MarkFailed | Increment | GiveUp

  datatype Worker = Worker(batch: seq<nat>, pos: nat, phase: Phase) {
    predicate WellFormed() {
      pos < |batch|
    }

    function Event(): nat
      requires WellFormed()
    {
      batch[pos]
    }
  }

  /** A worker that is between passes has no entry. */
  datatype World = World(box: Box, workers: map<int, Worker>)

  datatype Action =
    | Add(topic: string, payload: string)
    | Fetch(w: int, batch: seq<nat>)
    | Reject(w: int)
    | Send(w: int, acked: bool)
    | WriteSent(w: int, written: bool)
    | WriteFailed(w: int, written: bool)
    | Retry(w: int, applied: bool, replied: bool)
    | Crash(w: int)

  /** Some rows of the topic that are pending at the moment of the query, at most `limit`, none twice. */
  ghost predicate CanFetch(b: Box, cfg: Config, batch: seq<nat>) {
    && 0 < |batch| <= cfg.limit
    && (forall i :: 0 <= i < |batch| ==> batch[i] < |b.rows| && Queued(b.rows[batch[i]], cfg))
    && (forall i, j :: 0 <= i < j < |batch| ==> batch[i] != batch[j])
  }

  ghost predicate At(s: World, w: int, phase: Phase) {
    w in s.workers && s.workers[w].WellFormed() && s.workers[w].phase == phase && s.workers[w].Event() < |s.box.rows|
  }

  ghost predicate Enabled(s: World, cfg: Config, a: Action) {
    match a
    case Add(_, _) => true
    case Fetch(w, batch) => w !in s.workers && CanFetch(s.box, cfg, batch)
    case Reject(w) => At(s, w, AtEvent) && !cfg.encodes(s.box.rows[s.workers[w].Event()].payload)
    case Send(w, _) => At(s, w, AtEvent) && cfg.encodes(s.box.rows[s.workers[w].Event()].payload)
    case WriteSent(w, _) => At(s, w, MarkSent)
    case WriteFailed(w, _) => At(s, w, MarkFailed) || At(s, w, GiveUp)
    case Retry(w, applied, replied) => At(s, w, Increment) && (replied ==> applied)
    case Crash(w) => w in s.workers
  }

  ghost function Advance(workers: map<int, Worker>, w: int): map<int, Worker>
    requires w in workers
  {
    var k := workers[w];
    if k.pos + 1 < |k.batch| then workers[w := Worker(k.batch, k.pos + 1, AtEvent)] else workers - {w}
  }

  ghost function Next(s: World, cfg: Config, a: Action): World
    requires Enabled(s, cfg, a)
  {
    match a
    case Add(topic, payload) => s.(box := Enqueue(s.box, topic, payload))
    case Fetch(w, batch) => s.(workers := s.workers[w := Worker(batch, 0, AtEvent)])
    case Reject(w) => s.(workers := s.workers[w := s.workers[w].(phase := MarkFailed)])
    case Send(w, acked) =>
      World(Attempted(s.box, s.workers[w].Event(), acked),
            s.workers[w := s.workers[w].(phase := if acked then MarkSent else Increment)])
    case WriteSent(w, written) =>
      World(SetStatus(s.box, s.workers[w].Event(), Sent, written), Advance(s.workers, w))
    case WriteFailed(w, written) =>
      World(SetStatus(s.box, s.workers[w].Event(), Failed, written), Advance(s.workers, w))
    case Retry(w, applied, replied) =>
      var id := s.workers[w].Event();
      var box := if applied then Incremented(s.box, id) else s.box;
      if replied && box.rows[id].retries >= cfg.maxRetries
      then World(box, s.workers[w := s.workers[w].(phase := GiveUp)])
      else World(box, Advance(s.workers, w))
    case Crash(w) => s.(workers := s.workers - {w})
  }

  ghost predicate Possible(s: World, cfg: Config, actions: seq<Action>)
    decreases |actions|
  {
    actions == [] || (Enabled(s, cfg, actions[0]) && Possible(Next(s, cfg, actions[0]), cfg, actions[1..]))
  }

  ghost function After(s: World, cfg: Config, actions: seq<Action>): World
    requires Possible(s, cfg, actions)
    decreases |actions|
  {
    if actions == [] then s else After(Next(s, cfg, actions[0]), cfg, actions[1..])
  }

  const EMPTY := World(Box([], []), map[])

  // ---------------------------------------------------------------- safety

  /** The workers whose failed send of row `id` is not yet counted in its retries. */
  ghost function Owing(workers: map<int, Worker>, id: nat): set<int> {
    set w | w in workers && workers[w].WellFormed() && workers[w].phase == Increment && workers[w].Event() == id
  }

  ghost predicate RowSafe(b: Box, cfg: Config, id: nat)
    requires id < |b.rows|
  {
    && (b.rows[id].status == Sent ==> Acks(b.log, id) > 0)
    && (b.rows[id].status == Failed ==> !cfg.encodes(b.rows[id].payload) || b.rows[id].retries >= cfg.maxRetries)
  }

  ghost predicate WorkerSafe(s: World, cfg: Config, w: int)
    requires w in s.workers
  {
    var k := s.workers[w];
    && k.WellFormed()
    && (forall i :: 0 <= i < |k.batch| ==> k.batch[i] < |s.box.rows|)
    && match k.phase
       case AtEvent => true
       case MarkSent => Acks(s.box.log, k.Event()) > 0
       case MarkFailed => !cfg.encodes(s.box.rows[k.Event()].payload)
       case Increment => true
       case GiveUp => s.box.rows[k.Event()].retries >= cfg.maxRetries
  }

  ghost predicate Safe(s: World, cfg: Config) {
    && (forall id: nat :: id < |s.box.rows| ==> RowSafe(s.box, cfg, id))
    && (forall id: nat :: id < |s.box.rows| ==>
          s.box.rows[id].retries + |Owing(s.workers, id)| <= Fails(s.box.log, id))
    && (forall w :: w in s.workers ==> WorkerSafe(s, cfg, w))
  }

  lemma OwingOne(workers: map<int, Worker>, workers': map<int, Worker>, w: int, id: nat)
    requires forall v :: v != w ==> (v in workers <==> v in workers') && (v in workers ==> workers[v] == workers'[v])
    ensures w in Owing(workers, id) && w !in Owing(workers', id) ==> |Owing(workers', id)| == |Owing(workers, id)| - 1
    ensures w !in Owing(workers, id) && w in Owing(workers', id) ==> |Owing(workers', id)| == |Owing(workers, id)| + 1
    ensures (w in Owing(workers, id) <==> w in Owing(workers', id)) ==> |Owing(workers', id)| == |Owing(workers, id)|
  {
    var rest, rest' := Owing(workers, id) - {w}, Owing(workers', id) - {w};
    assert rest == rest' by {
      forall v ensures v in rest <==> v in rest' {
        assert v in Owing(workers, id) && v != w <==> v in Owing(workers', id) && v != w;
      }
    }
    SizeWith(Owing(workers, id), w);
    SizeWith(Owing(workers', id), w);
  }

  lemma SizeWith(s: set<int>, w: int)
    ensures |s - {w}| == |s| - if w in s then 1 else 0
  {
    if w !in s { assert s - {w} == s; }
  }

  /** The retry count never runs ahead of the failed sends, whoever counts them. */
  lemma NextKeepsOwing(s: World, cfg: Config, a: Action, id: nat)
    requires Safe(s, cfg) && Enabled(s, cfg, a) && id < |s.box.rows|
    ensures var s' := Next(s, cfg, a);
            s'.box.rows[id].retries + |Owing(s'.workers, id)| <= Fails(s'.box.log, id)
  {
    var s' := Next(s, cfg, a);
    if !a.Add? {
      OwingOne(s.workers, s'.workers, a.w, id);
      if a.Send? {
        LogStep(s.box.log, Attempt(s.workers[a.w].Event(), a.acked), id);
      }
    }
  }

  lemma NextKeepsRows(s: World, cfg: Config, a: Action, id: nat)
    requires Safe(s, cfg) && Enabled(s, cfg, a) && id < |Next(s, cfg, a).box.rows|
    ensures RowSafe(Next(s, cfg, a).box, cfg, id)
    ensures Acks(Next(s, cfg, a).box.log, id) >= Acks(s.box.log, id)
    ensures Fails(Next(s, cfg, a).box.log, id) >= Fails(s.box.log, id)
    ensures |s.box.rows| <= |Next(s, cfg, a).box.rows|
    ensures id < |s.box.rows| ==>
      Next(s, cfg, a).box.rows[id].retries >= s.box.rows[id].retries
  {
    assert id < |s.box.rows| ==> RowSafe(s.box, cfg, id);
    if !a.Add? {
      assert a.Fetch? || WorkerSafe(s, cfg, a.w);
      if a.Send? {
        LogStep(s.box.log, Attempt(s.workers[a.w].Event(), a.acked), id);
      }
    }
  }

  lemma NextKeepsWorkers(s: World, cfg: Config, a: Action, w: int)
    requires Safe(s, cfg) && Enabled(s, cfg, a) && w in Next(s, cfg, a).workers
    ensures WorkerSafe(Next(s, cfg, a), cfg, w)
  {
    if !a.Add? && a.w == w {
      OwnStepKeepsWorker(s, cfg, a);
    } else {
      OtherWorkerStays(s, cfg, a, w);
      NextKeepsRows(s, cfg, a, s.workers[w].Event());
    }
  }

  lemma OtherWorkerStays(s: World, cfg: Config, a: Action, w: int)
    requires Safe(s, cfg) && Enabled(s, cfg, a) && w in Next(s, cfg, a).workers && (a.Add? || a.w != w)
    ensures w in s.workers && Next(s, cfg, a).workers[w] == s.workers[w] && WorkerSafe(s, cfg, w)
    ensures |s.box.rows| <= |Next(s, cfg, a).box.rows|
    ensures forall id: nat :: id < |s.box.rows| ==> Next(s, cfg, a).box.rows[id].payload == s.box.rows[id].payload
  {
  }

  lemma OwnStepKeepsWorker(s: World, cfg: Config, a: Action)
    requires !a.Add? && Safe(s, cfg) && Enabled(s, cfg, a) && a.w in Next(s, cfg, a).workers
    ensures WorkerSafe(Next(s, cfg, a), cfg, a.w)
  {
    assert a.Fetch? || WorkerSafe(s, cfg, a.w);
    var id := Next(s, cfg, a).workers[a.w].Event();
    NextKeepsRows(s, cfg, a, id);
    if a.Send? {
      LogStep(s.box.log, Attempt(s.workers[a.w].Event(), a.acked), id);
    }
  }

  lemma NextKeepsSafe(s: World, cfg: Config, a: Action)
    requires Safe(s, cfg) && Enabled(s, cfg, a)
    ensures Safe(Next(s, cfg, a), cfg)
  {
    var s' := Next(s, cfg, a);
    forall id: nat | id < |s'.box.rows|
      ensures RowSafe(s'.box, cfg, id)
      ensures s'.box.rows[id].retries + |Owing(s'.workers, id)| <= Fails(s'.box.log, id)
    {
      NextKeepsRows(s, cfg, a, id);
      if id < |s.box.rows| {
        NextKeepsOwing(s, cfg, a, id);
      } else {
        assert forall w :: w in s.workers ==> WorkerSafe(s, cfg, w);
        assert forall w :: w !in Owing(s'.workers, id);
        assert Owing(s'.workers, id) == {};
      }
    }
    forall w | w in s'.workers ensures WorkerSafe(s', cfg, w) {
      NextKeepsWorkers(s, cfg, a, w);
    }
  }

  lemma {:induction false} AfterKeepsSafe(s: World, cfg: Config, actions: seq<Action>)
    requires Safe(s, cfg) && Possible(s, cfg, actions)
    ensures Safe(After(s, cfg, actions), cfg)
    decreases |actions|
  {
    if actions != [] {
      NextKeepsSafe(s, cfg, actions[0]);
      AfterKeepsSafe(Next(s, cfg, actions[0]), cfg, actions[1..]);
    }
  }

  /**
    Outbox safety over every interleaving: a SENT row has at least one acknowledged send, and a
    FAILED row cannot be serialised or its sends really failed at least maxRetries times.
   */
  lemma OutboxSafety(cfg: Config, actions: seq<Action>, id: nat)
    requires Possible(EMPTY, cfg, actions) && id < |After(EMPTY, cfg, actions).box.rows|
    ensures var b := After(EMPTY, cfg, actions).box;
            && (b.rows[id].status == Sent ==> Acks(b.log, id) > 0)
            && (b.rows[id].status == Failed ==>
                  !cfg.encodes(b.rows[id].payload) || Fails(b.log, id) >= b.rows[id].retries >= cfg.maxRetries)
  {
    AfterKeepsSafe(EMPTY, cfg, actions);
    assert RowSafe(After(EMPTY, cfg, actions).box, cfg, id);
  }

  /** Rows never vanish and never change topic or payload, and no send is forgotten. */
  lemma {:induction false} RowsPersist(s: World, cfg: Config, actions: seq<Action>)
    requires Possible(s, cfg, actions)
    ensures var b := After(s, cfg, actions).box;
            && |s.box.rows| <= |b.rows| && s.box.log <= b.log
            && forall id :: 0 <= id < |s.box.rows| ==>
                 b.rows[id].topic == s.box.rows[id].topic && b.rows[id].payload == s.box.rows[id].payload
    decreases |actions|
  {
    if actions != [] {
      RowsPersist(Next(s, cfg, actions[0]), cfg, actions[1..]);
    }
  }

  /** Only rows that exist are ever sent, which is all that the drain bound's accounting asks of an outbox. */
  lemma {:induction false} LogStaysWithin(s: World, cfg: Config, actions: seq<Action>)
    requires Possible(s, cfg, actions) && LogWithin(s.box)
    ensures LogWithin(After(s, cfg, actions).box)
    decreases |actions|
  {
    if actions != [] {
      LogStaysWithin(Next(s, cfg, actions[0]), cfg, actions[1..]);
    }
  }

  // ---------------------------------------------------------------- runs piece by piece

  lemma AfterStep(s: World, cfg: Config, a: Action, rest: seq<Action>)
    requires Enabled(s, cfg, a) && Possible(Next(s, cfg, a), cfg, rest)
    ensures Possible(s, cfg, [a] + rest)
    ensures After(s, cfg, [a] + rest) == After(Next(s, cfg, a), cfg, rest)
  {
    assert ([a] + rest)[1..] == rest;
  }

  lemma RunOfTwo(s: World, cfg: Config, a: Action, b: Action)
    requires Enabled(s, cfg, a) && Enabled(Next(s, cfg, a), cfg, b)
    ensures Possible(s, cfg, [a, b])
    ensures After(s, cfg, [a, b]) == Next(Next(s, cfg, a), cfg, b)
  {
    AfterStep(Next(s, cfg, a), cfg, b, []);
    AfterStep(s, cfg, a, [b] + []);
    assert [a, b] == [a] + ([b] + []);
  }

  lemma RunOfThree(s: World, cfg: Config, a: Action, b: Action, c: Action)
    requires Enabled(s, cfg, a) && Enabled(Next(s, cfg, a), cfg, b) && Enabled(Next(Next(s, cfg, a), cfg, b), cfg, c)
    ensures Possible(s, cfg, [a, b, c])
    ensures After(s, cfg, [a, b, c]) == Next(Next(Next(s, cfg, a), cfg, b), cfg, c)
  {
    RunOfTwo(Next(s, cfg, a), cfg, b, c);
    AfterStep(s, cfg, a, [b, c]);
    assert [a, b, c] == [a] + [b, c];
  }

  lemma {:induction false} AfterJoin(s: World, cfg: Config, p: seq<Action>, q: seq<Action>)
    requires Possible(s, cfg, p) && Possible(After(s, cfg, p), cfg, q)
    ensures Possible(s, cfg, p + q) && After(s, cfg, p + q) == After(After(s, cfg, p), cfg, q)
    decreases |p|
  {
    if p == [] {
      assert p + q == q;
    } else {
      assert p + q == [p[0]] + (p[1..] + q);
      AfterJoin(Next(s, cfg, p[0]), cfg, p[1..], q);
      AfterStep(s, cfg, p[0], p[1..] + q);
    }
  }

  // ---------------------------------------------------------------- one worker, several workers

  ghost predicate ByWorkers(actions: seq<Action>, team: set<int>) {
    forall i :: 0 <= i < |actions| && !actions[i].Add? ==> actions[i].w in team
  }

  /** What a lone worker has not handled yet is still pending. */
  ghost predicate Alone(s: World, w: int) {
    && s.workers.Keys <= {w}
    && (w in s.workers ==>
          var k := s.workers[w];
          && (forall i :: k.pos <= i < |k.batch| ==>
               k.batch[i] < |s.box.rows| && s.box.rows[k.batch[i]].status == Pending)
          && (forall i, j :: 0 <= i < j < |k.batch| ==> k.batch[i] != k.batch[j]))
  }

  lemma NextKeepsAlone(s: World, cfg: Config, a: Action, w: int)
    requires Alone(s, w) && Enabled(s, cfg, a) && (!a.Add? ==> a.w == w)
    ensures Alone(Next(s, cfg, a), w)
    ensures |s.box.rows| <= |Next(s, cfg, a).box.rows|
    ensures forall id: nat :: id < |s.box.rows| && s.box.rows[id].status != Pending ==>
      Next(s, cfg, a).box.rows[id] == s.box.rows[id]
  {
  }

  lemma {:induction false} AfterKeepsAlone(s: World, cfg: Config, actions: seq<Action>, w: int)
    requires Alone(s, w) && Possible(s, cfg, actions) && ByWorkers(actions, {w})
    ensures Alone(After(s, cfg, actions), w)
    decreases |actions|
  {
    if actions != [] {
      NextKeepsAlone(s, cfg, actions[0], w);
      AfterKeepsAlone(Next(s, cfg, actions[0]), cfg, actions[1..], w);
    }
  }

  /**
    With one worker SENT and FAILED are absorbing, even if it crashes in the middle of a pass, is
    started again, and its writes are lost.
   */
  lemma {:induction false} OneWorkerTerminalStays(s: World, cfg: Config, actions: seq<Action>, w: int, id: nat)
    requires Alone(s, w) && Possible(s, cfg, actions) && ByWorkers(actions, {w})
    requires id < |s.box.rows| && s.box.rows[id].status != Pending
    ensures id < |After(s, cfg, actions).box.rows| && After(s, cfg, actions).box.rows[id] == s.box.rows[id]
    decreases |actions|
  {
    if actions != [] {
      NextKeepsAlone(s, cfg, actions[0], w);
      OneWorkerTerminalStays(Next(s, cfg, actions[0]), cfg, actions[1..], w, id);
    }
  }

  /** One failed try of a lone worker that is not the last one. */
  lemma FailedTry(s: World, cfg: Config, w: int, id: nat) returns (actions: seq<Action>)
    requires s.workers == map[] && id < |s.box.rows| && Queued(s.box.rows[id], cfg)
    requires cfg.limit > 0 && cfg.encodes(s.box.rows[id].payload) && s.box.rows[id].retries + 1 < cfg.maxRetries
    ensures Possible(s, cfg, actions) && ByWorkers(actions, {w})
    ensures After(s, cfg, actions) == World(Incremented(Attempted(s.box, id, false), id), map[])
  {
    var s1 := Next(s, cfg, Fetch(w, [id]));
    assert s1.workers == map[w := Worker([id], 0, AtEvent)];
    assert Enabled(s1, cfg, Send(w, false));
    var s2 := Next(s1, cfg, Send(w, false));
    assert At(s2, w, Increment);
    assert Next(s2, cfg, Retry(w, true, true)).workers == map[];
    actions := [Fetch(w, [id]), Send(w, false), Retry(w, true, true)];
    RunOfThree(s, cfg, actions[0], actions[1], actions[2]);
  }

  /** From an empty outbox one worker can bring a row to any number of retries short of the maximum. */
  lemma {:induction false} RowWithRetries(cfg: Config, payload: string, w: int, n: nat) returns (actions: seq<Action>)
    requires cfg.limit > 0 && cfg.encodes(payload) && (n > 0 ==> n < cfg.maxRetries)
    ensures Possible(EMPTY, cfg, actions) && ByWorkers(actions, {w})
    ensures After(EMPTY, cfg, actions).workers == map[]
    ensures After(EMPTY, cfg, actions).box.rows == [Row(cfg.topic, payload, Pending, n)]
  {
    if n == 0 {
      actions := [Add(cfg.topic, payload)];
      AfterStep(EMPTY, cfg, actions[0], []);
      assert actions == [actions[0]] + [];
    } else {
      var before := RowWithRetries(cfg, payload, w, n - 1);
      var again := FailedTry(After(EMPTY, cfg, before), cfg, w, 0);
      AfterJoin(EMPTY, cfg, before, again);
      actions := before + again;
    }
  }

  ghost predicate Reaches(cfg: Config, actions: seq<Action>, id: nat, status: Status) {
    && Possible(EMPTY, cfg, actions)
    && id < |After(EMPTY, cfg, actions).box.rows|
    && After(EMPTY, cfg, actions).box.rows[id].status == status
  }

  /**
    From an empty outbox: one of two workers acknowledges a row while the other, holding the same
    row, uses up its last try, in either order.
   */
  lemma TwoWorkersOverwrite(cfg: Config, payload: string, v: int, w: int)
    returns (before: seq<Action>, good: seq<Action>, bad: seq<Action>)
    requires v != w && cfg.limit > 0 && cfg.encodes(payload)
    ensures ByWorkers(before, {v, w}) && ByWorkers(good, {v, w}) && ByWorkers(bad, {v, w})
    ensures Reaches(cfg, before + good, 0, Sent) && Reaches(cfg, before + good + bad, 0, Failed)
    ensures Reaches(cfg, before + bad, 0, Failed) && Reaches(cfg, before + bad + good, 0, Sent)
  {
    var tried := RowWithRetries(cfg, payload, v, Tries(cfg) - 1);
    var s := After(EMPTY, cfg, tried);
    var fetch := BothFetch(s, cfg, v, w);
    AfterJoin(EMPTY, cfg, tried, fetch);
    before := tried + fetch;
    var both := After(EMPTY, cfg, before);
    good := [Send(v, true), WriteSent(v, true)];
    bad := [Send(w, false), Retry(w, true, true), WriteFailed(w, true)];
    GoodRun(both, cfg, v);
    BadRun(both, cfg, w);
    GoodRun(After(both, cfg, bad), cfg, v);
    BadRun(After(both, cfg, good), cfg, w);
    AfterJoin(EMPTY, cfg, before, good);
    AfterJoin(EMPTY, cfg, before, bad);
    AfterJoin(EMPTY, cfg, before + good, bad);
    AfterJoin(EMPTY, cfg, before + bad, good);
  }

  lemma BothFetch(s: World, cfg: Config, v: int, w: int) returns (fetch: seq<Action>)
    requires v != w && cfg.limit > 0 && s.workers == map[] && |s.box.rows| > 0 && Queued(s.box.rows[0], cfg)
    ensures Possible(s, cfg, fetch) && ByWorkers(fetch, {v, w})
    ensures After(s, cfg, fetch) == World(s.box, map[v := Worker([0], 0, AtEvent), w := Worker([0], 0, AtEvent)])
  {
    fetch := [Fetch(v, [0]), Fetch(w, [0])];
    RunOfTwo(s, cfg, fetch[0], fetch[1]);
  }

  lemma GoodRun(s: World, cfg: Config, w: int)
    requires w in s.workers && s.workers[w] == Worker([0], 0, AtEvent)
    requires |s.box.rows| > 0 && cfg.encodes(s.box.rows[0].payload)
    ensures Possible(s, cfg, [Send(w, true), WriteSent(w, true)])
    ensures After(s, cfg, [Send(w, true), WriteSent(w, true)]) ==
      World(SetStatus(Attempted(s.box, 0, true), 0, Sent, true), s.workers - {w})
  {
    var s1 := Next(s, cfg, Send(w, true));
    RunOfTwo(s, cfg, Send(w, true), WriteSent(w, true));
    assert s1.workers - {w} == s.workers - {w};
  }

  lemma BadRun(s: World, cfg: Config, w: int)
    requires w in s.workers && s.workers[w] == Worker([0], 0, AtEvent)
    requires |s.box.rows| > 0 && cfg.encodes(s.box.rows[0].payload) && s.box.rows[0].retries + 1 >= cfg.maxRetries
    ensures Possible(s, cfg, [Send(w, false), Retry(w, true, true), WriteFailed(w, true)])
    ensures After(s, cfg, [Send(w, false), Retry(w, true, true), WriteFailed(w, true)]) ==
      World(SetStatus(Incremented(Attempted(s.box, 0, false), 0), 0, Failed, true), s.workers - {w})
  {
    var s1 := Next(s, cfg, Send(w, false));
    var s2 := Next(s1, cfg, Retry(w, true, true));
    RunOfThree(s, cfg, Send(w, false), Retry(w, true, true), WriteFailed(w, true));
    assert s2.workers - {w} == s.workers - {w};
  }

  /** After the run p some row is terminal, and the run q then changes it. */
  ghost predicate Changes(cfg: Config, p: seq<Action>, q: seq<Action>, id: nat) {
    && Possible(EMPTY, cfg, p) && Possible(EMPTY, cfg, p + q)
    && id < |After(EMPTY, cfg, p).box.rows| && After(EMPTY, cfg, p).box.rows[id].status != Pending
    && !(id < |After(EMPTY, cfg, p + q).box.rows|
         && After(EMPTY, cfg, p + q).box.rows[id] == After(EMPTY, cfg, p).box.rows[id])
  }

  /**
    SENT and FAILED are absorbing, over all runs from an empty outbox with crashes, restarts and lost
    writes, if and only if at most one worker ever relays the topic.
   */
  lemma TerminalIffOneWorker(cfg: Config, team: set<int>, payload: string)
    requires cfg.limit > 0 && cfg.encodes(payload)
    ensures (forall p, q, id: nat :: ByWorkers(p, team) && ByWorkers(q, team) ==> !Changes(cfg, p, q, id))
            <==> |team| <= 1
  {
    if |team| <= 1 {
      forall p, q, id: nat | ByWorkers(p, team) && ByWorkers(q, team)
        ensures !Changes(cfg, p, q, id)
      {
        SmallTeamKeeps(cfg, team, p, q, id);
      }
    } else {
      var v, w := TwoOf(team);
      var before, good, bad := TwoWorkersOverwrite(cfg, payload, v, w);
      assert Changes(cfg, before + good, bad, 0);
    }
  }

  lemma TwoOf(team: set<int>) returns (v: int, w: int)
    requires |team| > 1
    ensures v in team && w in team && v != w
  {
    assert (forall x :: x !in team) ==> team == {};
    v :| v in team;
    var rest := team - {v};
    assert |rest| == |team| - 1;
    assert (forall x :: x !in rest) ==> rest == {};
    w :| w in rest;
  }

  lemma SmallTeamKeeps(cfg: Config, team: set<int>, p: seq<Action>, q: seq<Action>, id: nat)
    requires |team| <= 1 && ByWorkers(p, team) && ByWorkers(q, team)
    ensures !Changes(cfg, p, q, id)
  {
    var w := SoleMember(team);
    if Possible(EMPTY, cfg, p) && Possible(EMPTY, cfg, p + q) {
      PossibleSplit(EMPTY, cfg, p, q);
      AfterKeepsAlone(EMPTY, cfg, p, w);
      AfterJoin(EMPTY, cfg, p, q);
      var s := After(EMPTY, cfg, p);
      if id < |s.box.rows| && s.box.rows[id].status != Pending {
        OneWorkerTerminalStays(s, cfg, q, w, id);
      }
    }
  }

  lemma SoleMember(team: set<int>) returns (w: int)
    requires |team| <= 1
    ensures team <= {w}
  {
    w := 0;
    if |team| == 1 {
      assert (forall x :: x !in team) ==> team == {};
      w :| w in team;
      assert |team - {w}| == 0;
    }
  }

  lemma {:induction false} PossibleSplit(s: World, cfg: Config, p: seq<Action>, q: seq<Action>)
    requires Possible(s, cfg, p) && Possible(s, cfg, p + q)
    ensures Possible(After(s, cfg, p), cfg, q)
    decreases |p|
  {
    if p == [] {
      assert p + q == q;
    } else {
      assert (p + q)[1..] == p[1..] + q;
      PossibleSplit(Next(s, cfg, p[0]), cfg, p[1..], q);
    }
  }

  // ---------------------------------------------------------------- a pass is one of these runs

  /** The steps that a worker takes for an event with this fate. */
  function StepsFor(row: Row, cfg: Config, w: int, fate: Fate): seq<Action> {
    if !cfg.encodes(row.payload) then [Reject(w), WriteFailed(w, fate.written)]
    else if fate.acked then [Send(w, true), WriteSent(w, fate.written)]
    else if fate.applied && fate.replied && row.retries + 1 >= cfg.maxRetries then
      [Send(w, false), Retry(w, true, true), WriteFailed(w, fate.written)]
    else [Send(w, false), Retry(w, fate.applied, fate.applied && fate.replied)]
  }

  /** ... and for a whole batch, event after event. */
  function StepsForAll(rows: seq<Row>, cfg: Config, w: int, ids: seq<nat>, fates: nat -> Fate): seq<Action>
    requires forall i :: 0 <= i < |ids| ==> ids[i] < |rows|
  {
    if ids == [] then []
    else
      var last := |ids| - 1;
      StepsForAll(rows, cfg, w, ids[..last], fates) + StepsFor(rows[ids[last]], cfg, w, fates(last))
  }

  /** The loop body, as SendEvents executes it, is the run of its worker that the fate prescribes. */
  lemma HandleIsRun(s: World, cfg: Config, w: int, fate: Fate)
    requires At(s, w, AtEvent)
    ensures var id := s.workers[w].Event();
            var actions := StepsFor(s.box.rows[id], cfg, w, fate);
            && Possible(s, cfg, actions) && ByWorkers(actions, {w})
            && After(s, cfg, actions) == World(Handle(s.box, cfg, id, fate), Advance(s.workers, w))
  {
    if !cfg.encodes(s.box.rows[s.workers[w].Event()].payload) {
      RunOfTwo(s, cfg, Reject(w), WriteFailed(w, fate.written));
      AdvanceIgnoresPhase(s.workers, w, MarkFailed);
    } else if fate.acked {
      RunOfTwo(s, cfg, Send(w, true), WriteSent(w, fate.written));
      AdvanceIgnoresPhase(s.workers, w, MarkSent);
    } else {
      FailureIsRun(s, cfg, w, fate);
    }
  }

  lemma AdvanceIgnoresPhase(workers: map<int, Worker>, w: int, phase: Phase)
    requires w in workers
    ensures Advance(workers[w := workers[w].(phase := phase)], w) == Advance(workers, w)
  {
    assert (workers[w := workers[w].(phase := phase)]) - {w} == workers - {w};
  }

  lemma FailureIsRun(s: World, cfg: Config, w: int, fate: Fate)
    requires At(s, w, AtEvent) && cfg.encodes(s.box.rows[s.workers[w].Event()].payload) && !fate.acked
    ensures var id := s.workers[w].Event();
            var actions := StepsFor(s.box.rows[id], cfg, w, fate);
            && Possible(s, cfg, actions) && ByWorkers(actions, {w})
            && After(s, cfg, actions) == World(Handle(s.box, cfg, id, fate), Advance(s.workers, w))
  {
    var retry := Retry(w, fate.applied, fate.applied && fate.replied);
    var s1 := Next(s, cfg, Send(w, false));
    var s2 := Next(s1, cfg, retry);
    AdvanceIgnoresPhase(s.workers, w, Increment);
    if fate.applied && fate.replied && s.box.rows[s.workers[w].Event()].retries + 1 >= cfg.maxRetries {
      assert At(s2, w, GiveUp);
      RunOfThree(s, cfg, Send(w, false), retry, WriteFailed(w, fate.written));
      AdvanceIgnoresPhase(s1.workers, w, GiveUp);
    } else {
      RunOfTwo(s, cfg, Send(w, false), retry);
    }
  }

  /**
    SendEvents refines the step system: each pass of the producer is the run of one worker that
    fetches the batch and takes, event after event, the steps that the fates prescribe.
   */
  lemma PassIsRun(s: World, cfg: Config, w: int, fates: nat -> Fate)
    requires w !in s.workers
    ensures var ids := Batch(s.box.rows, cfg);
            var actions := if ids == [] then [] else [Fetch(w, ids)] + StepsForAll(s.box.rows, cfg, w, ids, fates);
            && Possible(s, cfg, actions) && ByWorkers(actions, {w})
            && After(s, cfg, actions) == World(Pass(s.box, cfg, fates), s.workers)
  {
    var ids := Batch(s.box.rows, cfg);
    BatchQueued(s.box.rows, cfg);
    if ids != [] {
      var first := Fetch(w, ids);
      var s1 := Next(s, cfg, first);
      var rest := StepsForAll(s.box.rows, cfg, w, ids, fates);
      EventsAreRun(s1, cfg, w, ids, fates, |ids|);
      assert ids[..|ids|] == ids;
      assert (s.workers[w := Worker(ids, 0, AtEvent)]) - {w} == s.workers;
      AfterStep(s, cfg, first, rest);
    }
  }

  ghost predicate GoodBatch(s: World, w: int, ids: seq<nat>) {
    && (forall i :: 0 <= i < |ids| ==> ids[i] < |s.box.rows|)
    && (forall i, j :: 0 <= i < j < |ids| ==> ids[i] != ids[j])
    && ids != [] && w in s.workers && s.workers[w] == Worker(ids, 0, AtEvent)
  }

  /** The steps prescribed for the first n events are a run, and do what the loop does for them. */
  ghost predicate HandlesFirst(s: World, cfg: Config, w: int, ids: seq<nat>, fates: nat -> Fate, n: nat)
    requires GoodBatch(s, w, ids) && n <= |ids|
  {
    var actions := StepsForAll(s.box.rows, cfg, w, ids[..n], fates);
    && Possible(s, cfg, actions) && ByWorkers(actions, {w})
    && After(s, cfg, actions) == World(HandleAll(s.box, cfg, ids[..n], fates), WorkersAt(s.workers, w, ids, n))
  }

  lemma {:induction false} EventsAreRun(s: World, cfg: Config, w: int, ids: seq<nat>, fates: nat -> Fate, n: nat)
    requires GoodBatch(s, w, ids) && n <= |ids|
    ensures HandlesFirst(s, cfg, w, ids, fates, n)
  {
    if n == 0 {
      assert s.workers[w := Worker(ids, 0, AtEvent)] == s.workers;
    } else {
      EventsAreRun(s, cfg, w, ids, fates, n - 1);
      var before := StepsForAll(s.box.rows, cfg, w, ids[..n-1], fates);
      OneMoreEvent(s, cfg, w, ids, fates, n, before, After(s, cfg, before));
    }
  }

  lemma OneMoreEvent(s: World, cfg: Config, w: int, ids: seq<nat>, fates: nat -> Fate, n: nat,
                     before: seq<Action>, mid: World)
    requires GoodBatch(s, w, ids) && 0 < n <= |ids|
    requires before == StepsForAll(s.box.rows, cfg, w, ids[..n-1], fates) && ByWorkers(before, {w})
    requires Possible(s, cfg, before) && After(s, cfg, before) == mid
    requires mid == World(HandleAll(s.box, cfg, ids[..n-1], fates), WorkersAt(s.workers, w, ids, n - 1))
    ensures HandlesFirst(s, cfg, w, ids, fates, n)
  {
    HandleAllRow(s.box, cfg, ids[..n-1], fates, ids[n-1]);
    HandleIsRun(mid, cfg, w, fates(n - 1));
    var last := StepsFor(s.box.rows[ids[n-1]], cfg, w, fates(n - 1));
    AfterJoin(s, cfg, before, last);
    AdvancesTo(s.workers, w, ids, n);
    LastOfBatch(s, cfg, w, ids, fates, n);
  }

  lemma LastOfBatch(s: World, cfg: Config, w: int, ids: seq<nat>, fates: nat -> Fate, n: nat)
    requires GoodBatch(s, w, ids) && 0 < n <= |ids|
    ensures StepsForAll(s.box.rows, cfg, w, ids[..n], fates) ==
            StepsForAll(s.box.rows, cfg, w, ids[..n-1], fates) + StepsFor(s.box.rows[ids[n-1]], cfg, w, fates(n - 1))
    ensures HandleAll(s.box, cfg, ids[..n], fates) ==
            Handle(HandleAll(s.box, cfg, ids[..n-1], fates), cfg, ids[n-1], fates(n - 1))
  {
    assert ids[..n][..n-1] == ids[..n-1];
  }

  /** The workers when this one has handled n events of its batch. */
  ghost function WorkersAt(workers: map<int, Worker>, w: int, ids: seq<nat>, n: nat): map<int, Worker> {
    if n < |ids| then workers[w := Worker(ids, n, AtEvent)] else workers - {w}
  }

  lemma AdvancesTo(workers: map<int, Worker>, w: int, ids: seq<nat>, n: nat)
    requires 0 < n <= |ids|
    ensures Advance(WorkersAt(workers, w, ids, n - 1), w) == WorkersAt(workers, w, ids, n)
  {
    var before := workers[w := Worker(ids, n - 1, AtEvent)];
    assert before[w := Worker(ids, n, AtEvent)] == workers[w := Worker(ids, n, AtEvent)];
    assert before - {w} == workers - {w};
  }
}
